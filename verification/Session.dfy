/** A live finality session of one validator and chunk, and the pure updates the driver makes to it.

    The checks on foreign artifacts are the function-valued fields of `Rules`; module Context
    builds them from a committee and shows that they satisfy `RulesOk`. */
module Session {
  import opened Types
  import opened SigningJournal
  import opened Pacemaker

  datatype Rules = Rules(
    self: nat,
    chunk: nat,
    claims: (VoteData, set<nat>) -> bool,
    nilClaims: (nat, Phase, set<nat>) -> bool,
    decodes: set<nat> -> bool,
    prevoteQuorum: set<nat> -> bool,
    precommitQuorum: set<nat> -> bool,
    certifies: QuorumCert -> bool,
    reportOk: Report -> bool,
    certOk: Certificate -> bool,
    highest: Certificate -> Option<QuorumCert>,
    proposalOk: (Hash, nat, Proposal) -> bool,
    leads: nat -> bool,
    stored: Hash -> Option<seq<Hash>>,
    clockOk: Clock -> bool,
    accepts: (Clock, Report) -> bool,
    collected: (Clock, Report) -> Clock,
    formed: (Clock, nat) -> Option<Certificate>)

  datatype Progress = Idle | Prevoted | Precommitted

  datatype PeerProgress = BelowPrevote | PrevoteObserved | PrecommitObserved

  /** The voting state of the current round: target, leader proposal, accumulated signers and local votes.
      The local vote vectors hold at most one vote per phase and are kept by phase. */
  datatype Ballot = Ballot(
    round: nat,
    target: Hash,
    proofs: seq<Hash>,
    proposal: Option<Proposal>,
    justification: Option<QuorumCert>,
    certificate: Option<Certificate>,
    prevotes: set<nat>,
    precommits: set<nat>,
    nilPrevotes: set<nat>,
    nilPrecommits: set<nat>,
    local: Progress,
    localVotes: map<Phase, VoteIntent>,
    localNils: map<Phase, NilIntent>)

  datatype BftSession = BftSession(
    ballot: Ballot,
    peer: PeerProgress,
    lock: Option<QuorumCert>,
    valid: Option<QuorumCert>,
    candidates: set<Hash>,
    clock: Clock,
    report: Option<Report>)

  const MAX_CANDIDATES: nat := 8

  // ----- local progress -----

  function FromFlags(prevoted: bool, precommitted: bool): Progress {
    if precommitted then Precommitted else if prevoted then Prevoted else Idle
  }

  predicate Signed(b: Ballot, phase: Phase) {
    phase in b.localVotes || phase in b.localNils
  }

  function VoteTarget(r: Rules, b: Ballot, phase: Phase): VoteData {
    VoteData(r.chunk, b.round, b.target, phase)
  }

  /** The prevote certificate formed by the accumulated prevotes. */
  function CurrentQuorum(r: Rules, b: Ballot): QuorumCert {
    QuorumCert(r.chunk, b.round, b.target, b.prevotes)
  }

  // ----- signatures of votes -----

  /** `add_vote` on a presented vote: signers that are active, their claims verified, and an aggregate that decodes. */
  predicate VoteVerifies(r: Rules, data: VoteData, signers: set<nat>) {
    signers != {} && r.claims(data, signers) && r.decodes(signers)
  }

  /** `add_nil_vote` on a presented nil vote. */
  predicate NilVerifies(r: Rules, round: nat, phase: Phase, signers: set<nat>) {
    signers != {} && r.nilClaims(round, phase, signers) && r.decodes(signers)
  }

  /** An accumulated aggregate can be presented again: it is absent, or its signatures do not cancel. */
  predicate Decodable(r: Rules, signers: set<nat>) {
    signers != {} ==> r.decodes(signers)
  }

  predicate NilsDecode(r: Rules, b: Ballot) {
    Decodable(r, b.nilPrevotes) && Decodable(r, b.nilPrecommits)
  }

  predicate AggregatesDecode(r: Rules, b: Ballot) {
    NilsDecode(r, b) && Decodable(r, b.prevotes) && Decodable(r, b.precommits)
  }

  /** The accumulated votes are added to a new accumulator, each aggregate as one presented vote. */
  predicate NilsReadded(r: Rules, b: Ballot) {
    && (b.nilPrevotes != {} ==> NilVerifies(r, b.round, Prevote, b.nilPrevotes))
    && (b.nilPrecommits != {} ==> NilVerifies(r, b.round, Precommit, b.nilPrecommits))
  }

  predicate VotesReadded(r: Rules, b: Ballot) {
    && (b.prevotes != {} ==> VoteVerifies(r, VoteTarget(r, b, Prevote), b.prevotes))
    && (b.precommits != {} ==> VoteVerifies(r, VoteTarget(r, b, Precommit), b.precommits))
  }

  /** Everything `try_finalize` needs for the current round and target. */
  predicate Complete(r: Rules, b: Ballot) {
    b.proposal.Some? && r.prevoteQuorum(b.prevotes) && r.precommitQuorum(b.precommits)
  }

  // ----- candidate retention -----

  function HashOf(qc: Option<QuorumCert>): set<Hash> {
    if qc.Some? then {qc.value.hash} else {}
  }

  function HighestOf(r: Rules, cert: Option<Certificate>): Option<QuorumCert> {
    if cert.Some? then r.highest(cert.value) else None
  }

  function ReportedBy(report: Option<Report>): Option<QuorumCert> {
    if report.Some? then report.value.highest else None
  }

  /** Hashes that eviction must keep. */
  function Protected(r: Rules, s: BftSession): set<Hash> {
    {s.ballot.target} + HashOf(s.valid) + HashOf(s.lock) + HashOf(HighestOf(r, s.ballot.certificate))
      + HashOf(ReportedBy(s.report))
  }

  function MinOf(s: set<nat>): nat
    requires s != {}
    ensures MinOf(s) in s && forall x :: x in s ==> MinOf(s) <= x
  {
    MinExists(s);
    var m :| m in s && forall x :: x in s ==> m <= x;
    m
  }

  /** Evict the smallest unprotected hash while the cache is too large. */
  function Trim(candidates: set<Hash>, protected: set<Hash>): set<Hash> {
    var free := candidates - protected;
    if |candidates| <= MAX_CANDIDATES || free == {} then candidates
    else Trim(candidates - {MinOf(free)}, protected)
  }

  function RememberCandidate(r: Rules, s: BftSession, hash: Hash): BftSession {
    s.(candidates := Trim(s.candidates + {hash}, Protected(r, s)))
  }

  /** A higher-ranked certificate becomes the valid value and is pinned before eviction. */
  function RememberValid(r: Rules, s: BftSession, qc: QuorumCert): BftSession {
    if s.valid.None? || RankBelow(s.valid.value, qc) then RememberCandidate(r, s.(valid := Some(qc)), qc.hash) else s
  }

  function RememberOptional(r: Rules, s: BftSession, qc: Option<QuorumCert>): BftSession {
    if qc.Some? then RememberValid(r, s, qc.value) else s
  }

  // ----- targets, proposals and rounds -----

  function ProofsOf(r: Rules, target: Hash): seq<Hash> {
    match r.stored(target)
    case Some(hashes) => hashes
    case None => []
  }

  /** `reset_bft_candidate`: a fresh accumulator for another chunk, to which the nil aggregates are added again;
      it succeeds only when they decode. */
  function ResetTarget(r: Rules, s: BftSession, hash: Hash): BftSession {
    s.(ballot := s.ballot.(target := hash, proofs := ProofsOf(r, hash), prevotes := {}, precommits := {}))
  }

  /** The proposal's value and branch; the prior certificate still protects its highest value. */
  function RememberProposal(r: Rules, s: BftSession, p: Proposal): BftSession {
    RememberCandidate(r, RememberOptional(r, s, p.valid), p.hash)
  }

  function WithProposal(b: Ballot, p: Proposal): Ballot {
    b.(justification := p.valid, certificate := p.certificate, proposal := Some(p))
  }

  /** The part of `accept_bft_leader_proposal` before its durable write. */
  function AcceptProposal(r: Rules, s: BftSession, p: Proposal, now: nat): BftSession {
    RememberProposal(r, s, p).(ballot := WithProposal(s.ballot, p), clock := EnterPrevote(s.clock, now))
  }

  /** The value votes and local progress of a round that was just entered. */
  function FreshBallot(round: nat, target: Hash, proofs: seq<Hash>, certificate: Option<Certificate>): Ballot {
    Ballot(round, target, proofs, None, None, certificate, {}, {}, {}, {}, Idle, map[], map[])
  }

  /** `open_bft_session_initial`: a session at round zero, or at the round a certificate enters. */
  function OpenedSession(r: Rules, target: Hash, cert: Option<Certificate>, now: nat, base: nat,
      backoff: nat): BftSession {
    var round := if cert.Some? then cert.value.round else 0;
    BftSession(
      FreshBallot(round, target, ProofsOf(r, target), cert), BelowPrevote, None, None, {target},
      NewClock(r.chunk, round, now, base, backoff), None)
  }

  /** The highest value the certificate reports, when its branch is known. */
  function KnownHighest(r: Rules, s: BftSession, cert: Certificate): Option<QuorumCert> {
    var highest := r.highest(cert);
    if highest.Some? && highest.value.hash in s.candidates then highest else None
  }

  /** The part of `enter_bft_certified_round` before its durable write. */
  function EnterRound(r: Rules, s: BftSession, cert: Certificate, now: nat): BftSession
    requires cert.round > s.clock.round
  {
    var remembered := RememberOptional(r, s, KnownHighest(r, s, cert));
    remembered.(
      ballot := FreshBallot(cert.round, s.ballot.target, s.ballot.proofs, Some(cert)), peer := BelowPrevote,
      clock := AdvanceRound(s.clock, cert.round, now), report := None)
  }

  function AddVotes(b: Ballot, phase: Phase, signers: set<nat>): Ballot {
    if phase == Prevote then b.(prevotes := b.prevotes + signers) else b.(precommits := b.precommits + signers)
  }

  function AddNils(b: Ballot, phase: Phase, signers: set<nat>): Ballot {
    if phase == Prevote then b.(nilPrevotes := b.nilPrevotes + signers)
      else b.(nilPrecommits := b.nilPrecommits + signers)
  }

  /** `advance_peer_quorum`: raw stake alone never marks a session finished. */
  function PeerAfter(r: Rules, b: Ballot, peer: PeerProgress): PeerProgress {
    if peer == BelowPrevote && !r.prevoteQuorum(b.prevotes) then BelowPrevote
    else if Complete(r, b) then PrecommitObserved
    else if peer == BelowPrevote then PrevoteObserved
    else peer
  }

  function AdvancePeer(r: Rules, s: BftSession): BftSession {
    s.(peer := PeerAfter(r, s.ballot, s.peer))
  }

  // ----- local signatures -----

  function PrevoteIntent(r: Rules, b: Ballot): VoteIntent {
    VoteIntent(VoteTarget(r, b, Prevote), r.self, [], b.justification)
  }

  function PrecommitIntent(r: Rules, b: Ballot): VoteIntent {
    VoteIntent(VoteTarget(r, b, Precommit), r.self, b.proofs, Some(CurrentQuorum(r, b)))
  }

  function RecordPrevote(r: Rules, b: Ballot): Ballot {
    b.(prevotes := b.prevotes + {r.self}, local := Prevoted, localVotes := b.localVotes[Prevote := PrevoteIntent(r, b)])
  }

  function RecordPrecommit(r: Rules, b: Ballot): Ballot {
    b.(precommits := b.precommits + {r.self}, local := Precommitted,
       localVotes := b.localVotes[Precommit := PrecommitIntent(r, b)])
  }

  function RecordNil(r: Rules, b: Ballot, phase: Phase): Ballot {
    AddNils(b, phase, {r.self}).(
      local := if phase == Prevote then Prevoted else Precommitted,
      localNils := b.localNils[phase := NilIntent(b.round, phase, r.self)])
  }

  /** `ensure_bft_candidate_lock`: the target is compatible with the retained lock. */
  predicate LockAllows(r: Rules, s: BftSession) {
    var b := s.ballot;
    && (b.justification.Some? ==> UnlockBinds(r.certifies, VoteTarget(r, b, Prevote), b.justification.value))
    && (s.lock.Some? && s.lock.value.hash != b.target ==>
          b.justification.Some? && b.justification.value.round > s.lock.value.round)
  }

  // ----- restart -----

  /** Every saved certificate is checked again. */
  predicate QuorumsOk(r: Rules, s: BftSession) {
    var b := s.ballot;
    && (s.valid.Some? ==>
          && s.valid.value.chunk == r.chunk && s.valid.value.round <= b.round
          && s.valid.value.hash in s.candidates && r.certifies(s.valid.value))
    && (b.certificate.Some? ==>
          b.certificate.value.chunk == r.chunk && b.certificate.value.round == b.round && r.certOk(b.certificate.value))
    && (s.lock.Some? ==> s.lock.value.chunk == r.chunk && s.lock.value.round <= b.round && r.certifies(s.lock.value))
    && (b.justification.Some? ==> UnlockBinds(r.certifies, VoteTarget(r, b, Prevote), b.justification.value))
  }

  /** The checks of `restore_bft_session` that do not concern local votes. */
  predicate ContextOk(r: Rules, s: BftSession, j: ChunkJournal) {
    var b := s.ballot;
    && |b.localVotes| + |b.localNils| <= 2
    && s.clock.chunk == r.chunk && s.clock.round == b.round && r.clockOk(s.clock)
    && |s.candidates| <= MAX_CANDIDATES && (b.round > 0 ==> b.certificate.Some?)
    && (s.report.Some? ==>
          && MessageSlot(ReportKind, s.report.value.round) in j.messages
          && j.messages[MessageSlot(ReportKind, s.report.value.round)] == ReportMessage(s.report.value)
          && s.report.value.chunk == r.chunk && s.report.value.round == b.round + 1 && r.reportOk(s.report.value))
    && b.proofs == ProofsOf(r, b.target)
    && (b.proposal.Some? ==>
          && r.proposalOk(b.target, b.round, b.proposal.value)
          && b.justification == b.proposal.value.valid && b.certificate == b.proposal.value.certificate)
    && NilsReadded(r, b) && VotesReadded(r, b)
    && QuorumsOk(r, s)
  }

  /** A saved nil vote is the exact reservation of its phase and is accepted again. */
  predicate NilIsReserved(r: Rules, b: Ballot, j: ChunkJournal, phase: Phase)
    requires phase in b.localNils
  {
    && b.localNils[phase].round == b.round
    && Slot(b.round, phase) in j.nils && j.nils[Slot(b.round, phase)] == b.localNils[phase]
    && NilVerifies(r, b.round, phase, {r.self})
  }

  /** A saved value vote is the session's own, the exact reservation of its phase, and is accepted again. */
  predicate VoteIsReserved(r: Rules, b: Ballot, j: ChunkJournal, phase: Phase)
    requires phase in b.localVotes
  {
    && phase !in b.localNils && b.localVotes[phase].data == VoteTarget(r, b, phase)
    && Slot(b.round, phase) in j.intents && j.intents[Slot(b.round, phase)] == b.localVotes[phase]
    && VoteVerifies(r, VoteTarget(r, b, phase), {r.self})
  }

  /** `restore_bft_session`: every check on a saved session against the journal. */
  predicate Restorable(r: Rules, s: BftSession, j: ChunkJournal) {
    var b := s.ballot;
    && ContextOk(r, s, j)
    && (forall phase :: phase in b.localNils ==> NilIsReserved(r, b, j, phase))
    && (forall phase :: phase in b.localVotes ==> VoteIsReserved(r, b, j, phase))
    && (Prevote in b.localVotes ==> b.localVotes[Prevote].unlock == b.justification)
    && (Precommit in b.localVotes ==> b.localVotes[Precommit].proofs == b.proofs)
  }

  function OwnVoter(r: Rules, b: Ballot, phase: Phase): set<nat> {
    if phase in b.localVotes then {r.self} else {}
  }

  function OwnNil(r: Rules, b: Ballot, phase: Phase): set<nat> {
    if phase in b.localNils then {r.self} else {}
  }

  /** The rebuilt voting state: local progress is derived again from the local votes. */
  function Rebuilt(r: Rules, b: Ballot): Ballot {
    b.(
      prevotes := b.prevotes + OwnVoter(r, b, Prevote), precommits := b.precommits + OwnVoter(r, b, Precommit),
      nilPrevotes := b.nilPrevotes + OwnNil(r, b, Prevote), nilPrecommits := b.nilPrecommits + OwnNil(r, b, Precommit),
      local := FromFlags(Signed(b, Prevote), Signed(b, Precommit)))
  }

  /** Peer progress starts below quorum and is derived from the accumulated stake. */
  function Restore(r: Rules, s: BftSession, j: ChunkJournal): Result<BftSession> {
    if Restorable(r, s, j) then Ok(AdvancePeer(r, s.(ballot := Rebuilt(r, s.ballot), peer := BelowPrevote)))
      else Err(Corrupt)
  }

  // ----- recovering interrupted reservations -----

  predicate PhaseReserved(w: Watermark, j: ChunkJournal, phase: Phase) {
    (if phase == Prevote then w.prevote.Some? else w.precommit.Some?) || Slot(w.round, phase) in j.nils
  }

  function AdoptLock(lock: Option<QuorumCert>, locked: Option<QuorumCert>): Option<QuorumCert> {
    if locked.Some? && (lock.None? || lock.value.round < locked.value.round) then locked else lock
  }

  /** Sign a reserved value vote again; the journal answers as for a new request. */
  function Resign(r: Rules, j: ChunkJournal, intent: Option<VoteIntent>): Result<ChunkJournal> {
    if intent.Some? then SignVote(r.certifies, j, intent.value) else Ok(j)
  }

  function ResignNil(r: Rules, j: ChunkJournal, round: nat, phase: Phase): Result<ChunkJournal> {
    var slot := Slot(round, phase);
    if slot !in j.nils then Ok(j)
    else if j.nils[slot] != NilIntent(round, phase, r.self) then Err(Corrupt)
    else SignNil(r.certifies, r.chunk, j, j.nils[slot])
  }

  /** All reservations of the journal's round, prevote first and values before nils. */
  function ResignAll(r: Rules, j: ChunkJournal, w: Watermark): Result<ChunkJournal> {
    match Resign(r, j, w.prevote)
    case Err(e) => Err(e)
    case Ok(j1) =>
      match Resign(r, j1, w.precommit)
      case Err(e) => Err(e)
      case Ok(j2) =>
        match ResignNil(r, j2, w.round, Prevote)
        case Err(e) => Err(e)
        case Ok(j3) => ResignNil(r, j3, w.round, Precommit)
  }

  function RecoverNil(r: Rules, b: Ballot, j: ChunkJournal, phase: Phase): Result<Ballot> {
    var slot := Slot(b.round, phase);
    if slot !in j.nils then Ok(b)
    else if !NilVerifies(r, b.round, phase, {r.self}) then Err(InvalidSignature)
    else Ok(AddNils(b, phase, {r.self}).(localNils := b.localNils[phase := j.nils[slot]]))
  }

  function RecoverNils(r: Rules, b: Ballot, j: ChunkJournal): Result<Ballot> {
    match RecoverNil(r, b, j, Prevote)
    case Err(e) => Err(e)
    case Ok(nil) => RecoverNil(r, nil, j, Precommit)
  }

  function KeepVote(b: Ballot, phase: Phase, intent: VoteIntent): Ballot {
    if phase in b.localVotes then b else b.(localVotes := b.localVotes[phase := intent])
  }

  /** `recover_reserved_value_vote` for the prevote. */
  function RecoverPrevote(r: Rules, b: Ballot, intent: Option<VoteIntent>): Result<Ballot> {
    if intent.None? then Ok(b)
    else if intent.value.data.hash != b.target || intent.value.data.round != b.round then Err(Conflict)
    else if intent.value.unlock != b.justification then Err(Conflict)
    else if !VoteVerifies(r, intent.value.data, {r.self}) then Err(InvalidSignature)
    else Ok(KeepVote(AddVotes(b, Prevote, {r.self}), Prevote, intent.value))
  }

  /** `recover_reserved_precommit`: only with its exact receipts and complete prevote coverage. */
  function RecoverPrecommit(r: Rules, b: Ballot, intent: Option<VoteIntent>): Result<Ballot> {
    if intent.None? then Ok(b)
    else if intent.value.data.hash != b.target || intent.value.data.round != b.round then Err(Conflict)
    else if intent.value.proofs != b.proofs then Err(Conflict)
    else if intent.value.unlock.Some?
      && (!r.prevoteQuorum(b.prevotes) || !(intent.value.unlock.value.signers <= b.prevotes)) then
      Err(Corrupt)
    else if !VoteVerifies(r, intent.value.data, {r.self}) then Err(InvalidSignature)
    else Ok(KeepVote(AddVotes(b, Precommit, {r.self}), Precommit, intent.value))
  }

  function RecoverMessages(r: Rules, b: Ballot, j: ChunkJournal, w: Watermark): Result<Ballot> {
    match RecoverNils(r, b, j)
    case Err(e) => Err(e)
    case Ok(nils) =>
      match RecoverPrevote(r, nils, w.prevote)
      case Err(e) => Err(e)
      case Ok(prevoted) => RecoverPrecommit(r, prevoted, w.precommit)
  }

  function RecoverLock(lock: Option<QuorumCert>, precommit: Option<VoteIntent>): Option<QuorumCert> {
    if precommit.Some? && precommit.value.unlock.Some? then precommit.value.unlock else lock
  }

  /** `changed`: the session has to be persisted. */
  datatype Outcome = Outcome(session: BftSession, journal: ChunkJournal, changed: bool)

  /** `recover_session_signing` */
  function Recover(r: Rules, s: BftSession, j: ChunkJournal): Result<Outcome> {
    if j.mark.None? then Ok(Outcome(s, j, false))
    else if !WatermarkAccepted(r.certifies, r.chunk, j) then Err(Corrupt)
    else
      var w, b := j.mark.value, s.ballot;
      var prevoted, precommitted := PhaseReserved(w, j, Prevote), PhaseReserved(w, j, Precommit);
      var locked := s.(lock := AdoptLock(s.lock, w.locked));
      var advanced := locked.lock != s.lock;
      if w.round < b.round && b.local == Idle then Ok(Outcome(locked, j, advanced))
      else if w.round == b.round && prevoted == (b.local != Idle) && precommitted == (b.local == Precommitted) then
        Ok(Outcome(locked, j, advanced))
      else match ResignAll(r, j, w)
        case Err(e) => Err(e)
        case Ok(signed) =>
          if !prevoted && !precommitted then Ok(Outcome(locked, signed, advanced))
          else if w.round < b.round then Err(Regression)
          else if w.round > b.round then Err(Corrupt)
          else match RecoverMessages(r, b, j, w)
            case Err(e) => Err(e)
            case Ok(messages) =>
              var recovered := messages.(local := FromFlags(prevoted, precommitted));
              var final := locked.(ballot := recovered, lock := RecoverLock(locked.lock, w.precommit));
              Ok(Outcome(AdvancePeer(r, final), signed, true))
  }
}

/** Agreement of the finality protocol, from the signing journals alone.

    The state is what every honest validator's journal holds and the log of everything honest
    validators ever signed for one chunk, in order. Honest validators sign only through their
    journals, in any order and with any arguments; faulty ones sign anything. A carried
    certificate passes the signature check only when its honest signers really signed. */
module Agreement {
  import opened Types
  import opened Stake
  import opened SigningJournal

  datatype Config = Config(committee: Committee, faulty: set<nat>, chunk: nat)

  datatype Entry = Entry(signer: nat, what: Reservation)

  /** A finalized signer has had its journal pruned and refuses to sign. */
  datatype Signer = Signer(journal: ChunkJournal, finalized: bool)

  datatype State = State(signers: map<nat, Signer>, log: seq<Entry>)

  datatype Action =
    | SignValue(v: nat, intent: VoteIntent)
    | SignNothing(v: nat, nil: NilIntent)
    | SignMessage(v: nat, kind: MessageKind, round: nat, message: Message)
    | Finalize(v: nat)

  /** What `try_finalize` assembles: both value quorums of one round and hash. */
  datatype FinalityCert = FinalityCert(round: nat, hash: Hash, prevoters: set<nat>, precommitters: set<nat>)

  function VerifierOf(c: Committee): Verifier {
    (qc: QuorumCert) => Certifies(c, qc)
  }

  predicate ConfigOk(cfg: Config) {
    && FractionValid(cfg.committee.prevote)
    && FractionValid(cfg.committee.precommit)
    && FaultBound(cfg.committee, cfg.faulty)
  }

  // ----- what the log shows -----

  predicate IsVote(e: Entry, v: nat, round: nat, hash: Hash, phase: Phase) {
    e.signer == v && e.what.ValueVote? && e.what.intent.data.round == round
    && e.what.intent.data.hash == hash && e.what.intent.data.phase == phase
  }

  predicate Voted(log: seq<Entry>, v: nat, round: nat, hash: Hash, phase: Phase) {
    exists i :: 0 <= i < |log| && IsVote(log[i], v, round, hash, phase)
  }

  /** Every honest member of `signers` cast this vote. */
  predicate AllVoted(cfg: Config, log: seq<Entry>, signers: set<nat>, round: nat, hash: Hash, phase: Phase) {
    forall v :: v in signers && v !in cfg.faulty ==> Voted(log, v, round, hash, phase)
  }

  predicate Genuine(cfg: Config, log: seq<Entry>, qc: QuorumCert) {
    AllVoted(cfg, log, qc.signers, qc.round, qc.hash, Prevote)
  }

  /** Unforgeability: a certificate that passes the check has honest signers only where they signed. */
  predicate Unforged(cfg: Config, log: seq<Entry>, qc: QuorumCert) {
    Certifies(cfg.committee, qc) ==> Genuine(cfg, log, qc)
  }

  /** A prevote quorum for `hash` at `round` exists in the log. */
  ghost predicate Formed(cfg: Config, log: seq<Entry>, round: nat, hash: Hash) {
    exists signers: set<nat> ::
      HasQuorum(cfg.committee.validators, signers, cfg.committee.prevote)
        && AllVoted(cfg, log, signers, round, hash, Prevote)
  }

  predicate Finalizes(cfg: Config, log: seq<Entry>, cert: FinalityCert) {
    && HasQuorum(cfg.committee.validators, cert.prevoters, cfg.committee.prevote)
    && AllVoted(cfg, log, cert.prevoters, cert.round, cert.hash, Prevote)
    && HasQuorum(cfg.committee.validators, cert.precommitters, cfg.committee.precommit)
    && AllVoted(cfg, log, cert.precommitters, cert.round, cert.hash, Precommit)
  }

  // ----- steps -----

  predicate Init(cfg: Config, s: State) {
    s.log == [] && forall v :: v in s.signers ==> v !in cfg.faulty && s.signers[v] == Signer(EMPTY, false)
  }

  predicate Reserves(s: State, v: nat, outcome: Result<ChunkJournal>, what: Reservation, t: State) {
    && v in s.signers && !s.signers[v].finalized
    && outcome.Ok?
    && t == State(s.signers[v := Signer(outcome.value, false)], s.log + [Entry(v, what)])
  }

  predicate Next(cfg: Config, s: State, a: Action, t: State) {
    var verifies := VerifierOf(cfg.committee);
    && a.v in s.signers
    && var j := s.signers[a.v].journal;
    match a
    case SignValue(v, intent) =>
      && intent.data.chunk == cfg.chunk && intent.index == v
      && (intent.unlock.Some? ==> Unforged(cfg, s.log, intent.unlock.value))
      && Reserves(s, v, SignVote(verifies, j, intent), ValueVote(intent), t)
    case SignNothing(v, nil) =>
      && nil.index == v
      && Reserves(s, v, SignNil(verifies, cfg.chunk, j, nil), NilVote(nil), t)
    case SignMessage(v, kind, round, message) =>
      Reserves(s, v, ReserveMessage(verifies, cfg.chunk, j, kind, round, message), RoundMessage(kind, round, message),
        t)
    case Finalize(v) =>
      t == s.(signers := s.signers[v := Signer(EMPTY, true)])
  }

  predicate IsRun(cfg: Config, states: seq<State>, actions: seq<Action>) {
    && |states| == |actions| + 1
    && Init(cfg, states[0])
    && forall i :: 0 <= i < |actions| ==> Next(cfg, states[i], actions[i], states[i + 1])
  }

  // ----- the invariant -----

  predicate IsVoting(e: Entry) {
    !e.what.RoundMessage?
  }

  predicate IsPhase(e: Entry, phase: Phase) {
    e.what.ValueVote? && e.what.intent.data.phase == phase
  }

  predicate HonestOnly(cfg: Config, log: seq<Entry>) {
    forall i :: 0 <= i < |log| ==> log[i].signer !in cfg.faulty
  }

  predicate VotesOrdered(log: seq<Entry>) {
    forall i, j :: 0 <= i < j < |log| && log[i].signer == log[j].signer && IsVoting(log[i]) && IsVoting(log[j]) ==>
      VoteSlot(log[i].what).round <= VoteSlot(log[j].what).round
  }

  predicate SinglePositions(log: seq<Entry>) {
    forall i, j :: 0 <= i < j < |log| && log[i].signer == log[j].signer && SamePosition(log[i].what, log[j].what) ==>
      log[i].what == log[j].what
  }

  /** Each precommit was preceded by its own round's prevote quorum. */
  ghost predicate PrecommitsJustified(cfg: Config, log: seq<Entry>) {
    forall i :: 0 <= i < |log| && IsPhase(log[i], Precommit) ==>
      Formed(cfg, log[..i], log[i].what.intent.data.round, log[i].what.intent.data.hash)
  }

  /** A prevote against an earlier precommit was preceded by a prevote quorum for its value from that precommit's
      round on. */
  ghost predicate UnlockedBetween(cfg: Config, log: seq<Entry>, j: nat, low: nat, high: nat, hash: Hash)
    requires j <= |log|
  {
    exists u: nat :: low <= u <= high && Formed(cfg, log[..j], u, hash)
  }

  ghost predicate PrevotesUnlocked(cfg: Config, log: seq<Entry>) {
    forall i, j :: 0 <= i < j < |log| && log[i].signer == log[j].signer && IsPhase(log[i], Precommit)
                   && IsPhase(log[j], Prevote) && log[i].what.intent.data.hash != log[j].what.intent.data.hash ==>
      UnlockedBetween(cfg, log, j, log[i].what.intent.data.round, log[j].what.intent.data.round,
        log[j].what.intent.data.hash)
  }

  ghost predicate LogOk(cfg: Config, log: seq<Entry>) {
    && HonestOnly(cfg, log) && VotesOrdered(log) && SinglePositions(log)
    && PrecommitsJustified(cfg, log) && PrevotesUnlocked(cfg, log)
  }

  /** The journal of `v` covers all it signed, its lock is genuine and no precommit of `v` is above it. */
  predicate JournalMatches(cfg: Config, log: seq<Entry>, v: nat, j: ChunkJournal) {
    && WellFormed(VerifierOf(cfg.committee), cfg.chunk, j)
    && (forall i :: 0 <= i < |log| && log[i].signer == v ==> Covers(j, log[i].what))
    && (j.mark.Some? && j.mark.value.locked.Some? ==> Genuine(cfg, log, j.mark.value.locked.value))
    && (forall i :: 0 <= i < |log| && log[i].signer == v && IsPhase(log[i], Precommit) ==>
          j.mark.Some? && j.mark.value.locked.Some? && log[i].what.intent.data.round <= j.mark.value.locked.value.round)
  }

  predicate SignersOk(cfg: Config, s: State) {
    forall v :: v in s.signers ==>
      v !in cfg.faulty && (!s.signers[v].finalized ==> JournalMatches(cfg, s.log, v, s.signers[v].journal))
  }

  ghost predicate Inv(cfg: Config, s: State) {
    LogOk(cfg, s.log) && SignersOk(cfg, s)
  }

  // ----- growth of the log -----

  lemma VotedGrows(log: seq<Entry>, e: Entry, v: nat, round: nat, hash: Hash, phase: Phase)
    requires Voted(log, v, round, hash, phase)
    ensures Voted(log + [e], v, round, hash, phase)
  {
    var i :| 0 <= i < |log| && IsVote(log[i], v, round, hash, phase);
    assert IsVote((log + [e])[i], v, round, hash, phase);
  }

  lemma GenuineGrows(cfg: Config, log: seq<Entry>, e: Entry, qc: QuorumCert)
    requires Genuine(cfg, log, qc)
    ensures Genuine(cfg, log + [e], qc)
  {
    forall v | v in qc.signers && v !in cfg.faulty
      ensures Voted(log + [e], v, qc.round, qc.hash, Prevote)
    {
      VotedGrows(log, e, v, qc.round, qc.hash, Prevote);
    }
  }

  lemma GenuineIsFormed(cfg: Config, log: seq<Entry>, qc: QuorumCert)
    requires Certifies(cfg.committee, qc) && Genuine(cfg, log, qc)
    ensures Formed(cfg, log, qc.round, qc.hash)
  {
  }

  // ----- each step keeps the invariant -----

  /** Appending `e` keeps the log facts when `e` itself satisfies them against everything before it. */
  lemma AppendKeepsLog(cfg: Config, log: seq<Entry>, e: Entry)
    requires LogOk(cfg, log) && e.signer !in cfg.faulty
    requires forall i :: 0 <= i < |log| && log[i].signer == e.signer && IsVoting(log[i]) && IsVoting(e) ==>
      VoteSlot(log[i].what).round <= VoteSlot(e.what).round
    requires forall i :: 0 <= i < |log| && log[i].signer == e.signer && SamePosition(log[i].what, e.what) ==>
      log[i].what == e.what
    requires IsPhase(e, Precommit) ==> Formed(cfg, log, e.what.intent.data.round, e.what.intent.data.hash)
    requires forall i :: 0 <= i < |log| && log[i].signer == e.signer && IsPhase(log[i], Precommit)
                         && IsPhase(e, Prevote) && log[i].what.intent.data.hash != e.what.intent.data.hash ==>
      UnlockedBetween(cfg, log, |log|, log[i].what.intent.data.round, e.what.intent.data.round, e.what.intent.data.hash)
    ensures LogOk(cfg, log + [e])
  {
    var next := log + [e];
    assert next[..|log|] == log && log[..|log|] == log;
    forall i | 0 <= i < |next| && IsPhase(next[i], Precommit)
      ensures Formed(cfg, next[..i], next[i].what.intent.data.round, next[i].what.intent.data.hash)
    {
      if i < |log| {
        assert next[..i] == log[..i];
      }
    }
    forall i, j | 0 <= i < j < |next| && next[i].signer == next[j].signer && IsPhase(next[i], Precommit)
      && IsPhase(next[j], Prevote)
                  && next[i].what.intent.data.hash != next[j].what.intent.data.hash
      ensures UnlockedBetween(cfg, next, j, next[i].what.intent.data.round, next[j].what.intent.data.round,
        next[j].what.intent.data.hash)
    {
      assert next[i] == log[i];
      assert next[..j] == log[..j];
      if j < |log| {
        assert UnlockedBetween(cfg, log, j, log[i].what.intent.data.round, log[j].what.intent.data.round,
          log[j].what.intent.data.hash);
      }
    }
  }

  /** Other signers' journals keep matching as the log grows by someone else's entry. */
  lemma OthersKeepMatching(cfg: Config, log: seq<Entry>, e: Entry, v: nat, j: ChunkJournal)
    requires JournalMatches(cfg, log, v, j) && e.signer != v
    ensures JournalMatches(cfg, log + [e], v, j)
  {
    if j.mark.Some? && j.mark.value.locked.Some? {
      GenuineGrows(cfg, log, e, j.mark.value.locked.value);
    }
  }

  lemma SignValueMatches(cfg: Config, log: seq<Entry>, v: nat, j: ChunkJournal, intent: VoteIntent)
    requires JournalMatches(cfg, log, v, j) && intent.data.chunk == cfg.chunk
    requires intent.unlock.Some? ==> Unforged(cfg, log, intent.unlock.value)
    requires SignVote(VerifierOf(cfg.committee), j, intent).Ok?
    ensures JournalMatches(cfg, log + [Entry(v, ValueVote(intent))], v,
      SignVote(VerifierOf(cfg.committee), j, intent).value)
  {
    var verifies, e := VerifierOf(cfg.committee), Entry(v, ValueVote(intent));
    var next := SignVote(verifies, j, intent).value;
    SignVoteKeepsWellFormed(verifies, j, intent);
    SignVoteLock(verifies, j, intent);
    forall i | 0 <= i < |log + [e]| && (log + [e])[i].signer == v
      ensures Covers(next, (log + [e])[i].what)
    {
      if i < |log| {
        SignVoteCovers(verifies, j, intent, log[i].what);
      }
    }
    if next.mark.value.locked.Some? {
      GenuineGrows(cfg, log, e, next.mark.value.locked.value);
    }
  }

  /** The new vote satisfies the log facts: it is ordered, unique, justified and unlocked. */
  lemma SignValueKeepsLog(cfg: Config, log: seq<Entry>, v: nat, j: ChunkJournal, intent: VoteIntent)
    requires LogOk(cfg, log) && v !in cfg.faulty && JournalMatches(cfg, log, v, j) && intent.data.chunk == cfg.chunk
    requires intent.unlock.Some? ==> Unforged(cfg, log, intent.unlock.value)
    requires SignVote(VerifierOf(cfg.committee), j, intent).Ok?
    ensures LogOk(cfg, log + [Entry(v, ValueVote(intent))])
  {
    var verifies, e := VerifierOf(cfg.committee), Entry(v, ValueVote(intent));
    forall i | 0 <= i < |log| && log[i].signer == v
      ensures SamePosition(log[i].what, e.what) ==> log[i].what == e.what
    {
      SignVoteCovers(verifies, j, intent, log[i].what);
    }
    if intent.unlock.Some? {
      GenuineIsFormed(cfg, log, intent.unlock.value);
    }
    if j.mark.Some? && j.mark.value.locked.Some? {
      GenuineIsFormed(cfg, log, j.mark.value.locked.value);
    }
    assert log[..|log|] == log;
    forall i | 0 <= i < |log| && log[i].signer == v && IsPhase(log[i], Precommit) && IsPhase(e, Prevote)
               && log[i].what.intent.data.hash != intent.data.hash
      ensures UnlockedBetween(cfg, log, |log|, log[i].what.intent.data.round, intent.data.round, intent.data.hash)
    {
      var lock := j.mark.value.locked.value;
      if lock.hash == intent.data.hash {
        assert Formed(cfg, log[..|log|], lock.round, intent.data.hash);
      } else {
        assert Formed(cfg, log[..|log|], intent.unlock.value.round, intent.data.hash);
      }
    }
    AppendKeepsLog(cfg, log, e);
  }

  lemma SignNilMatches(cfg: Config, log: seq<Entry>, v: nat, j: ChunkJournal, nil: NilIntent)
    requires LogOk(cfg, log) && v !in cfg.faulty && JournalMatches(cfg, log, v, j)
    requires SignNil(VerifierOf(cfg.committee), cfg.chunk, j, nil).Ok?
    ensures JournalMatches(cfg, log + [Entry(v, NilVote(nil))], v,
      SignNil(VerifierOf(cfg.committee), cfg.chunk, j, nil).value)
    ensures LogOk(cfg, log + [Entry(v, NilVote(nil))])
  {
    var verifies, e := VerifierOf(cfg.committee), Entry(v, NilVote(nil));
    var next := SignNil(verifies, cfg.chunk, j, nil).value;
    SignNilKeepsWellFormed(verifies, cfg.chunk, j, nil);
    SignNilLock(verifies, cfg.chunk, j, nil);
    forall i | 0 <= i < |log| && log[i].signer == v
      ensures Covers(next, log[i].what) && (SamePosition(log[i].what, e.what) ==> log[i].what == e.what)
    {
      SignNilCovers(verifies, cfg.chunk, j, nil, log[i].what);
    }
    if next.mark.value.locked.Some? {
      GenuineGrows(cfg, log, e, next.mark.value.locked.value);
    }
    AppendKeepsLog(cfg, log, e);
  }

  lemma SignMessageMatches(cfg: Config, log: seq<Entry>, v: nat, j: ChunkJournal, kind: MessageKind, round: nat,
      message: Message)
    requires LogOk(cfg, log) && v !in cfg.faulty && JournalMatches(cfg, log, v, j)
    requires ReserveMessage(VerifierOf(cfg.committee), cfg.chunk, j, kind, round, message).Ok?
    ensures var e := Entry(v, RoundMessage(kind, round, message));
      && JournalMatches(cfg, log + [e], v,
         ReserveMessage(VerifierOf(cfg.committee), cfg.chunk, j, kind, round, message).value)
      && LogOk(cfg, log + [e])
  {
    var verifies, e := VerifierOf(cfg.committee), Entry(v, RoundMessage(kind, round, message));
    var next := ReserveMessage(verifies, cfg.chunk, j, kind, round, message).value;
    ReserveMessageKeepsWellFormed(verifies, cfg.chunk, j, kind, round, message);
    forall i | 0 <= i < |log| && log[i].signer == v
      ensures Covers(next, log[i].what) && (SamePosition(log[i].what, e.what) ==> log[i].what == e.what)
    {
      ReserveMessageCovers(verifies, cfg.chunk, j, kind, round, message, log[i].what);
    }
    if next.mark.Some? && next.mark.value.locked.Some? {
      GenuineGrows(cfg, log, e, next.mark.value.locked.value);
    }
    AppendKeepsLog(cfg, log, e);
  }

  lemma OthersOk(cfg: Config, s: State, t: State, e: Entry, v: nat)
    requires SignersOk(cfg, s) && v in s.signers && v in t.signers && e.signer == v
    requires t.log == s.log + [e]
    requires t.signers == s.signers[v := t.signers[v]]
    requires !t.signers[v].finalized && JournalMatches(cfg, t.log, v, t.signers[v].journal)
    ensures SignersOk(cfg, t)
  {
    forall w | w in t.signers
      ensures w !in cfg.faulty && (!t.signers[w].finalized ==> JournalMatches(cfg, t.log, w, t.signers[w].journal))
    {
      if w != v && !s.signers[w].finalized {
        OthersKeepMatching(cfg, s.log, e, w, s.signers[w].journal);
      }
    }
  }

  lemma NextKeepsInv(cfg: Config, s: State, a: Action, t: State)
    requires Inv(cfg, s) && Next(cfg, s, a, t)
    ensures Inv(cfg, t)
    ensures s.log <= t.log
  {
    var j := s.signers[a.v].journal;
    match a
    case SignValue(v, intent) =>
      SignValueMatches(cfg, s.log, v, j, intent);
      SignValueKeepsLog(cfg, s.log, v, j, intent);
      OthersOk(cfg, s, t, Entry(v, ValueVote(intent)), v);
    case SignNothing(v, nil) =>
      SignNilMatches(cfg, s.log, v, j, nil);
      OthersOk(cfg, s, t, Entry(v, NilVote(nil)), v);
    case SignMessage(v, kind, round, message) =>
      SignMessageMatches(cfg, s.log, v, j, kind, round, message);
      OthersOk(cfg, s, t, Entry(v, RoundMessage(kind, round, message)), v);
    case Finalize(v) =>
  }

  lemma {:induction false} RunKeepsInv(cfg: Config, states: seq<State>, actions: seq<Action>, n: nat)
    requires IsRun(cfg, states, actions) && n < |states|
    ensures Inv(cfg, states[n])
  {
    if n > 0 {
      RunKeepsInv(cfg, states, actions, n - 1);
      NextKeepsInv(cfg, states[n - 1], actions[n - 1], states[n]);
    }
  }

  // ----- quorums exclude each other -----

  lemma OneVotePerPosition(
    log: seq<Entry>, a: seq<Entry>, b: seq<Entry>, signer: nat, round: nat, v: Hash, w: Hash, phase: Phase)
    requires SinglePositions(log) && a <= log && b <= log
    requires Voted(a, signer, round, v, phase) && Voted(b, signer, round, w, phase)
    ensures v == w
  {
    var i :| 0 <= i < |a| && IsVote(a[i], signer, round, v, phase);
    var j :| 0 <= j < |b| && IsVote(b[j], signer, round, w, phase);
    assert a[i] == log[i] && b[j] == log[j];
    assert SamePosition(log[i].what, log[j].what);
  }

  /** At most one value gets a prevote quorum in a round. */
  lemma OnePrevoteQuorumPerRound(cfg: Config, log: seq<Entry>, a: seq<Entry>, b: seq<Entry>, round: nat, v: Hash,
      w: Hash)
    requires ConfigOk(cfg) && LogOk(cfg, log) && a <= log && b <= log
    requires Formed(cfg, a, round, v) && Formed(cfg, b, round, w)
    ensures v == w
  {
    var vs := cfg.committee.validators;
    var p :| HasQuorum(vs, p, cfg.committee.prevote) && AllVoted(cfg, a, p, round, v, Prevote);
    var q :| HasQuorum(vs, q, cfg.committee.prevote) && AllVoted(cfg, b, q, round, w, Prevote);
    var h := QuorumsMeet(vs, p, cfg.committee.prevote, q, cfg.committee.prevote, cfg.faulty);
    OneVotePerPosition(log, a, b, h, round, v, w, Prevote);
  }

  /** The key invariant: a precommit quorum for `v` at `r` excludes a prevote quorum for any other value at every
      round from `r` on. */
  lemma {:induction false} PrecommitQuorumExcludes(
    cfg: Config, log: seq<Entry>, n: nat, precommitters: set<nat>, r: nat, v: Hash, later: nat, w: Hash)
    requires ConfigOk(cfg) && LogOk(cfg, log) && n <= |log|
    requires HasQuorum(cfg.committee.validators, precommitters, cfg.committee.precommit)
    requires AllVoted(cfg, log, precommitters, r, v, Precommit)
    requires later >= r && Formed(cfg, log[..n], later, w)
    ensures v == w
    decreases n
  {
    var vs := cfg.committee.validators;
    var q :| HasQuorum(vs, q, cfg.committee.prevote) && AllVoted(cfg, log[..n], q, later, w, Prevote);
    var h := QuorumsMeet(vs, precommitters, cfg.committee.precommit, q, cfg.committee.prevote, cfg.faulty);
    assert Voted(log[..n], h, later, w, Prevote) && Voted(log, h, r, v, Precommit);
    var i :| 0 <= i < n && IsVote(log[..n][i], h, later, w, Prevote);
    var j :| 0 <= j < |log| && IsVote(log[j], h, r, v, Precommit);
    assert log[..n][i] == log[i];
    assert Formed(cfg, log[..j], r, v);
    if later == r {
      OnePrevoteQuorumPerRound(cfg, log, log[..j], log[..n], r, v, w);
    } else if v != w {
      assert j < i;
      assert UnlockedBetween(cfg, log, i, r, later, w);
      var u: nat :| r <= u <= later && Formed(cfg, log[..i], u, w);
      PrecommitQuorumExcludes(cfg, log, i, precommitters, r, v, u, w);
    }
  }

  /** Two certificates formed at any two moments of one log name one hash. */
  lemma OneCertificate(cfg: Config, log: seq<Entry>, l1: seq<Entry>, a: FinalityCert, l2: seq<Entry>, b: FinalityCert)
    requires ConfigOk(cfg) && LogOk(cfg, log) && l1 <= log && l2 <= log
    requires Finalizes(cfg, l1, a) && Finalizes(cfg, l2, b)
    ensures a.hash == b.hash
  {
    FinalizesGrows(cfg, l1, log, a);
    FinalizesGrows(cfg, l2, log, b);
    assert log[..|log|] == log;
    if a.round <= b.round {
      PrecommitQuorumExcludes(cfg, log, |log|, a.precommitters, a.round, a.hash, b.round, b.hash);
    } else {
      PrecommitQuorumExcludes(cfg, log, |log|, b.precommitters, b.round, b.hash, a.round, a.hash);
    }
  }

  /** Agreement: in every run, any two finality certificates of the chunk name the same hash, at whatever rounds
      and whenever in the run they were assembled. */
  lemma Agreement(
    cfg: Config, states: seq<State>, actions: seq<Action>, m: nat, n: nat, a: FinalityCert, b: FinalityCert)
    requires ConfigOk(cfg) && IsRun(cfg, states, actions) && m < |states| && n < |states|
    requires Finalizes(cfg, states[m].log, a) && Finalizes(cfg, states[n].log, b)
    ensures a.hash == b.hash
  {
    var k := |states| - 1;
    RunKeepsInv(cfg, states, actions, k);
    LogsGrow(cfg, states, actions, m, k);
    LogsGrow(cfg, states, actions, n, k);
    OneCertificate(cfg, states[k].log, states[m].log, a, states[n].log, b);
  }

  lemma LogGrowsAfter(cfg: Config, states: seq<State>, actions: seq<Action>, n: nat)
    requires IsRun(cfg, states, actions) && n < |actions|
    ensures states[n].log <= states[n + 1].log
  {
    RunKeepsInv(cfg, states, actions, n);
    NextKeepsInv(cfg, states[n], actions[n], states[n + 1]);
  }

  lemma {:induction false} LogsGrow(cfg: Config, states: seq<State>, actions: seq<Action>, m: nat, n: nat)
    requires IsRun(cfg, states, actions) && m <= n < |states|
    ensures states[m].log <= states[n].log
  {
    if m < n {
      LogsGrow(cfg, states, actions, m, n - 1);
      LogGrowsAfter(cfg, states, actions, n - 1);
    }
  }

  lemma AllVotedGrows(cfg: Config, log: seq<Entry>, more: seq<Entry>, signers: set<nat>, round: nat, hash: Hash,
      phase: Phase)
    requires log <= more && AllVoted(cfg, log, signers, round, hash, phase)
    ensures AllVoted(cfg, more, signers, round, hash, phase)
  {
    forall v | v in signers && v !in cfg.faulty
      ensures Voted(more, v, round, hash, phase)
    {
      var i :| 0 <= i < |log| && IsVote(log[i], v, round, hash, phase);
      assert IsVote(more[i], v, round, hash, phase);
    }
  }

  lemma FinalizesGrows(cfg: Config, log: seq<Entry>, more: seq<Entry>, cert: FinalityCert)
    requires log <= more && Finalizes(cfg, log, cert)
    ensures Finalizes(cfg, more, cert)
  {
    AllVotedGrows(cfg, log, more, cert.prevoters, cert.round, cert.hash, Prevote);
    AllVotedGrows(cfg, log, more, cert.precommitters, cert.round, cert.hash, Precommit);
  }
}

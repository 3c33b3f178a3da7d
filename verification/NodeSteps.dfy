/** One validator as a machine of small steps: a working copy of the session, the session map, the saved
    session and the journal. Every driver operation is a sequence of these steps, and may stop after any of them. */
module NodeSteps {
  import opened Types
  import opened SigningJournal
  import opened Pacemaker
  import opened Session
  import opened JournalGrowth
  import opened SessionInvariant
  import opened SessionSteps
  import opened SigningSteps
  import opened Recovery

  datatype Node = Node(work: BftSession, mem: BftSession, saved: BftSession, journal: ChunkJournal)

  datatype Label =
    | Begin
    | RecoverSigning
    | CountVotes(phase: Phase, signers: set<nat>)
    | CountNils(phase: Phase, signers: set<nat>)
    | KeepCandidate(hash: Hash)
    | KeepValid(qc: QuorumCert)
    | Retarget(hash: Hash)
    | TakeProposal(p: Proposal, now: nat)
    | MovePhase(clock: Clock)
    | CollectReport(report: Report)
    | EnterCertified(cert: Certificate, now: nat)
    | ObservePeers
    | SaveOnly
    | SaveAndInsert
    | SignPrevote
    | SignPrecommit
    | SignNilVote(phase: Phase)
    | SignProposal(p: Proposal)
    | SignReport
    | AdoptReport
    | Crash

  /** The session is the one in the map and the one on disk. */
  predicate Settled(n: Node) {
    n.mem == n.work && n.saved == n.work
  }

  function ReportIntent(r: Rules, s: BftSession): Report {
    Report(r.chunk, s.ballot.round + 1, r.self, s.valid)
  }

  predicate StepsTo(n: Node, s: BftSession, t: Node) {
    t == n.(work := s)
  }

  predicate Reserves(n: Node, outcome: Result<ChunkJournal>, s: BftSession, t: Node) {
    outcome.Ok? && t == n.(work := s, journal := outcome.value)
  }

  predicate UpdateStep(r: Rules, n: Node, l: Label, t: Node) {
    var s, b := n.work, n.work.ballot;
    match l
    case Begin => StepsTo(n, n.mem, t)
    case RecoverSigning =>
      var out := Recover(r, s, n.journal);
      out.Ok? && t == n.(work := out.value.session, journal := out.value.journal)
    case CountVotes(phase, signers) =>
      && s.peer != PrecommitObserved
      && VoteVerifies(r, VoteTarget(r, b, phase), signers)
      && StepsTo(n, s.(ballot := AddVotes(b, phase, signers)), t)
    case CountNils(phase, signers) =>
      NilVerifies(r, b.round, phase, signers) && StepsTo(n, s.(ballot := AddNils(b, phase, signers)), t)
    case KeepCandidate(hash) => StepsTo(n, RememberCandidate(r, s, hash), t)
    case KeepValid(qc) => KnownBy(r, qc, b.round) && StepsTo(n, RememberValid(r, s, qc), t)
    case Retarget(hash) =>
      && hash != b.target && b.proposal.None? && b.localVotes == map[] && NilsReadded(r, b)
      && StepsTo(n, ResetTarget(r, s, hash), t)
    case TakeProposal(p, now) =>
      b.proposal.None? && r.proposalOk(b.target, b.round, p) && StepsTo(n, AcceptProposal(r, s, p, now), t)
    case MovePhase(clock) => PhaseMoves(s.clock, clock) && StepsTo(n, s.(clock := clock), t)
    case CollectReport(report) => r.accepts(s.clock, report) && StepsTo(n, s.(clock := r.collected(s.clock, report)), t)
    case EnterCertified(cert, now) =>
      && cert.round > b.round && cert.round > s.clock.round && cert.chunk == r.chunk && r.certOk(cert)
      && StepsTo(n, EnterRound(r, s, cert, now), t)
    case ObservePeers => StepsTo(n, AdvancePeer(r, s), t)
    case SaveOnly => Anchored(s.ballot, n.mem.ballot) && t == n.(saved := s)
    case SaveAndInsert => t == n.(mem := s, saved := s)
    case AdoptReport =>
      var slot := MessageSlot(ReportKind, b.round + 1);
      && slot in n.journal.messages && n.journal.messages[slot].ReportMessage?
      && StepsTo(n, s.(report := Some(n.journal.messages[slot].report)), t)
    case Crash =>
      var out := Restore(r, n.saved, n.journal);
      out.Ok? && t == n.(work := out.value, mem := out.value)
    case _ => false
  }

  /** When the driver asks for a signature, and the intent it asks for. */
  predicate SignEnabled(r: Rules, n: Node, l: Label) {
    var s, b := n.work, n.work.ballot;
    match l
    case SignPrevote =>
      && Synced(s, n.journal) && b.local == Idle && b.proposal.Some? && s.clock.step == Prevoting && LockAllows(r, s)
      && Anchored(n.mem.ballot, b) && Anchored(n.saved.ballot, b)
    case SignPrecommit =>
      && Synced(s, n.journal) && Settled(n) && b.local != Precommitted && b.proposal.Some? && s.clock.step != AwaitRound
      && r.prevoteQuorum(b.prevotes) && s.valid.Some? && s.valid.value.round >= b.round
    case SignNilVote(phase) =>
      && Synced(s, n.journal) && Settled(n) && (if phase == Prevote then b.local == Idle else b.local != Precommitted)
    case SignProposal(p) =>
      && Settled(n) && b.proposal.None? && b.local == Idle && MessageSlot(ProposalKind, b.round) !in n.journal.messages
      && p == Proposal(r.chunk, b.target, b.round, r.self, s.valid, b.certificate)
      && r.leads(b.round) && Outranks(r, s.valid, b.certificate)
      && (s.valid.Some? ==> s.valid.value.round < b.round && s.valid.value.hash == b.target)
    case SignReport =>
      && Settled(n) && s.clock.step == AwaitRound && s.report.None? && b.round < MAX_ROUND
      && MessageSlot(ReportKind, b.round + 1) !in n.journal.messages
    case _ => false
  }

  function Signing(r: Rules, n: Node, l: Label): Result<ChunkJournal>
    requires SignEnabled(r, n, l)
  {
    var s, b, j := n.work, n.work.ballot, n.journal;
    match l
    case SignPrevote => SignVote(r.certifies, j, PrevoteIntent(r, b))
    case SignPrecommit => SignVote(r.certifies, j, PrecommitIntent(r, b))
    case SignNilVote(phase) => SignNil(r.certifies, r.chunk, j, NilIntent(b.round, phase, r.self))
    case SignProposal(p) => ReserveMessage(r.certifies, r.chunk, j, ProposalKind, b.round, ProposalMessage(p))
    case SignReport => ReserveMessage(r.certifies, r.chunk, j, ReportKind, b.round + 1,
      ReportMessage(ReportIntent(r, s)))
  }

  /** The session after the signature is recorded. */
  function AfterSigning(r: Rules, s: BftSession, l: Label): BftSession {
    match l
    case SignPrevote => s.(ballot := RecordPrevote(r, s.ballot))
    case SignPrecommit => s.(ballot := RecordPrecommit(r, s.ballot), lock := Some(CurrentQuorum(r, s.ballot)))
    case SignNilVote(phase) => s.(ballot := RecordNil(r, s.ballot, phase))
    case SignReport => s.(report := Some(ReportIntent(r, s)))
    case _ => s
  }

  predicate SignStep(r: Rules, n: Node, l: Label, t: Node) {
    SignEnabled(r, n, l) && Reserves(n, Signing(r, n, l), AfterSigning(r, n.work, l), t)
  }

  predicate Step(r: Rules, n: Node, l: Label, t: Node) {
    UpdateStep(r, n, l, t) || SignStep(r, n, l, t)
  }

  predicate NodeInv(r: Rules, n: Node) {
    && Good(r, n.work, n.journal) && Good(r, n.mem, n.journal) && Good(r, n.saved, n.journal)
    && Anchored(n.mem.ballot, n.saved.ballot)
  }

  // ----- steps that do not sign -----

  /** Steps that copy a session between the three places or read the journal. */
  predicate MovesCopies(l: Label) {
    l.Begin? || l.RecoverSigning? || l.SaveOnly? || l.SaveAndInsert? || l.AdoptReport? || l.Crash?
  }

  lemma CopyStepKeeps(r: Rules, n: Node, l: Label, t: Node)
    requires RulesOk(r) && NodeInv(r, n) && UpdateStep(r, n, l, t) && MovesCopies(l)
    ensures NodeInv(r, t)
  {
    if l.RecoverSigning? {
      RecoverIsExact(r, n.work, n.journal);
    } else if l.Crash? {
      RestoreIsExact(r, n.saved, n.journal);
    }
  }

  lemma WorkStepKeeps(r: Rules, n: Node, l: Label, t: Node)
    requires RulesOk(r) && NodeInv(r, n) && UpdateStep(r, n, l, t) && !MovesCopies(l)
    ensures Good(r, t.work, n.journal) && t == n.(work := t.work)
  {
    var s, j := n.work, n.journal;
    match l
    case CountVotes(phase, signers) => AddVotesKeeps(r, s, j, phase, signers);
    case CountNils(phase, signers) => AddNilsKeeps(r, s, j, phase, signers);
    case KeepCandidate(hash) => RememberCandidateOk(r, s, j, hash);
    case KeepValid(qc) => RememberValidOk(r, s, j, qc);
    case Retarget(hash) => ResetTargetKeeps(r, s, j, hash);
    case TakeProposal(p, now) => AcceptProposalKeeps(r, s, j, p, now);
    case MovePhase(clock) => PhaseKeeps(r, s, j, clock);
    case CollectReport(report) => CollectKeeps(r, s, j, report);
    case EnterCertified(cert, now) => EnterRoundKeeps(r, s, j, cert, now);
    case ObservePeers => AdvancePeerKeeps(r, s, j);
  }

  lemma UpdateStepKeeps(r: Rules, n: Node, l: Label, t: Node)
    requires RulesOk(r) && NodeInv(r, n) && UpdateStep(r, n, l, t)
    ensures NodeInv(r, t)
  {
    if MovesCopies(l) {
      CopyStepKeeps(r, n, l, t);
    } else {
      WorkStepKeeps(r, n, l, t);
    }
  }

  // ----- steps that sign -----

  lemma PrevoteNeverRefused(r: Rules, n: Node)
    requires NodeInv(r, n) && SignEnabled(r, n, SignPrevote)
    ensures Signing(r, n, SignPrevote).Ok?
  {
    WellFormedIsAccepted(r.certifies, r.chunk, n.journal);
  }

  lemma PrecommitNeverRefused(r: Rules, n: Node)
    requires NodeInv(r, n) && SignEnabled(r, n, SignPrecommit)
    ensures Signing(r, n, SignPrecommit).Ok?
  {
    WellFormedIsAccepted(r.certifies, r.chunk, n.journal);
  }

  lemma NilNeverRefused(r: Rules, n: Node, phase: Phase)
    requires NodeInv(r, n) && SignEnabled(r, n, SignNilVote(phase))
    ensures Signing(r, n, SignNilVote(phase)).Ok?
  {
    WellFormedIsAccepted(r.certifies, r.chunk, n.journal);
  }

  lemma MessageNeverRefused(r: Rules, n: Node, l: Label)
    requires NodeInv(r, n) && SignEnabled(r, n, l) && (l.SignProposal? || l.SignReport?)
    ensures Signing(r, n, l).Ok?
  {
    WellFormedIsAccepted(r.certifies, r.chunk, n.journal);
  }

  lemma SignVoteGrows(r: Rules, j: ChunkJournal, intent: VoteIntent)
    requires WellFormed(r.certifies, r.chunk, j) && intent.data.chunk == r.chunk && SignVote(r.certifies, j, intent).Ok?
    ensures var next := SignVote(r.certifies, j, intent).value;
      WellFormed(r.certifies, r.chunk, next) && VoteAdded(j, next, intent)
  {
    SignVoteAdds(r.certifies, j, intent);
    SignVoteKeepsWellFormed(r.certifies, j, intent);
  }

  /** Nothing is reserved for a round in which the synchronized session is idle. */
  lemma IdleIsFree(r: Rules, s: BftSession, j: ChunkJournal)
    requires Good(r, s, j) && Synced(s, j) && s.ballot.local == Idle
    ensures RoundFree(j, s.ballot.round)
  {
  }

  lemma LockAllowsUnlock(r: Rules, s: BftSession, j: ChunkJournal)
    requires Synced(s, j) && LockAllows(r, s)
    ensures UnlockAllowed(r.certifies, PrevoteIntent(r, s.ballot), LockOf(j))
  {
  }

  lemma PrevoteInSessions(r: Rules, n: Node, next: ChunkJournal)
    requires NodeInv(r, n) && SignEnabled(r, n, SignPrevote)
    requires WellFormed(r.certifies, r.chunk, next) && VoteAdded(n.journal, next, PrevoteIntent(r, n.work.ballot))
    ensures Good(r, n.work, next) && Good(r, n.mem, next) && Good(r, n.saved, next)
  {
    var b := n.work.ballot;
    IdleIsFree(r, n.work, n.journal);
    LockAllowsUnlock(r, n.work, n.journal);
    PrevoteReserved(r, n.work, n.journal, next, b);
    PrevoteReserved(r, n.mem, n.journal, next, b);
    PrevoteReserved(r, n.saved, n.journal, next, b);
  }

  lemma PrevoteSynced(r: Rules, s: BftSession, j: ChunkJournal, next: ChunkJournal)
    requires RulesOk(r) && Good(r, s, next) && Synced(s, j) && RoundFree(j, s.ballot.round) && s.ballot.local == Idle
    requires VoteAdded(j, next, PrevoteIntent(r, s.ballot))
    ensures var recorded := AfterSigning(r, s, SignPrevote); Good(r, recorded, next) && Synced(recorded, next)
  {
    assert SlotOf(PrevoteIntent(r, s.ballot).data) == Slot(s.ballot.round, Prevote);
    assert !Taken(next, Slot(s.ballot.round, Precommit));
    RecordPrevoteKeeps(r, s, next);
  }

  lemma SignPrevoteKeeps(r: Rules, n: Node, t: Node)
    requires RulesOk(r) && NodeInv(r, n) && SignStep(r, n, SignPrevote, t)
    ensures NodeInv(r, t) && Synced(t.work, t.journal)
  {
    SignVoteGrows(r, n.journal, PrevoteIntent(r, n.work.ballot));
    IdleIsFree(r, n.work, n.journal);
    PrevoteInSessions(r, n, t.journal);
    PrevoteSynced(r, n.work, n.journal, t.journal);
  }

  lemma PrecommitSynced(r: Rules, s: BftSession, j: ChunkJournal, next: ChunkJournal)
    requires RulesOk(r) && Good(r, s, next) && Synced(s, j) && s.ballot.local != Precommitted
    requires VoteAdded(j, next, PrecommitIntent(r, s.ballot))
    ensures var recorded := AfterSigning(r, s, SignPrecommit); Good(r, recorded, next) && Synced(recorded, next)
  {
    var b := s.ballot;
    assert SlotOf(PrecommitIntent(r, b).data) == Slot(b.round, Precommit);
    assert Taken(next, Slot(b.round, Prevote)) == Taken(j, Slot(b.round, Prevote));
    RecordPrecommitKeeps(r, s, next);
    AdoptLockKeeps(r, s.(ballot := RecordPrecommit(r, b)), next);
  }

  /** When the three copies agree, a signature only has to fit the session and what is recorded of it. */
  lemma SettledKeeps(r: Rules, n: Node, t: Node)
    requires Settled(n) && t.mem == n.mem && t.saved == n.saved
    requires Good(r, n.work, t.journal) && Good(r, t.work, t.journal)
    ensures NodeInv(r, t)
  {
  }

  /** What the driver has established when it signs a precommit. */
  lemma PrecommitStep(r: Rules, n: Node, t: Node)
    requires SignStep(r, n, SignPrecommit, t)
    ensures var b, outcome := n.work.ballot, SignVote(r.certifies, n.journal, PrecommitIntent(r, n.work.ballot));
      && Synced(n.work, n.journal) && Settled(n) && b.local != Precommitted && b.proposal.Some?
      && r.prevoteQuorum(b.prevotes) && n.work.valid.Some? && n.work.valid.value.round >= b.round
      && outcome.Ok? && t == n.(work := AfterSigning(r, n.work, SignPrecommit), journal := outcome.value)
  {
  }

  lemma PrecommitIsFree(r: Rules, s: BftSession, j: ChunkJournal)
    requires Good(r, s, j) && Synced(s, j) && s.ballot.local != Precommitted
    ensures !Taken(j, Slot(s.ballot.round, Precommit))
  {
  }

  lemma SignPrecommitKeeps(r: Rules, n: Node, t: Node)
    requires RulesOk(r) && NodeInv(r, n) && SignStep(r, n, SignPrecommit, t)
    ensures NodeInv(r, t) && Synced(t.work, t.journal)
  {
    PrecommitStep(r, n, t);
    PrecommitIsFree(r, n.work, n.journal);
    SignVoteGrows(r, n.journal, PrecommitIntent(r, n.work.ballot));
    PrecommitReserved(r, n.work, n.journal, t.journal);
    PrecommitSynced(r, n.work, n.journal, t.journal);
    SettledKeeps(r, n, t);
  }

  lemma SignNilGrows(r: Rules, j: ChunkJournal, nil: NilIntent)
    requires WellFormed(r.certifies, r.chunk, j) && SignNil(r.certifies, r.chunk, j, nil).Ok?
    ensures var next := SignNil(r.certifies, r.chunk, j, nil).value;
      WellFormed(r.certifies, r.chunk, next) && NilAdded(j, next, nil)
  {
    SignNilAdds(r.certifies, r.chunk, j, nil);
    SignNilKeepsWellFormed(r.certifies, r.chunk, j, nil);
  }

  /** A nil reservation takes its own slot only. */
  lemma NilTakes(j: ChunkJournal, next: ChunkJournal, nil: NilIntent, phase: Phase)
    requires NilAdded(j, next, nil)
    ensures Taken(next, Slot(nil.round, phase)) <==> phase == nil.phase || Taken(j, Slot(nil.round, phase))
  {
  }

  lemma NilRecordedIsSynced(r: Rules, s: BftSession, j: ChunkJournal, next: ChunkJournal, phase: Phase)
    requires Synced(s, j) && NilAdded(j, next, NilIntent(s.ballot.round, phase, r.self))
    ensures Synced(AfterSigning(r, s, SignNilVote(phase)), next)
  {
    NilTakes(j, next, NilIntent(s.ballot.round, phase, r.self), Prevote);
    NilTakes(j, next, NilIntent(s.ballot.round, phase, r.self), Precommit);
  }

  /** A reserved nil vote fits the session it was made for and the one that records it. */
  lemma NilInSession(r: Rules, s: BftSession, j: ChunkJournal, next: ChunkJournal, phase: Phase)
    requires RulesOk(r) && Good(r, s, j) && WellFormed(r.certifies, r.chunk, next) && Synced(s, j)
    requires if phase == Prevote then s.ballot.local == Idle else s.ballot.local != Precommitted
    requires NilAdded(j, next, NilIntent(s.ballot.round, phase, r.self))
    ensures Good(r, s, next) && Good(r, s.(ballot := RecordNil(r, s.ballot, phase)), next)
  {
    if phase == Prevote {
      IdleIsFree(r, s, j);
    } else {
      PrecommitIsFree(r, s, j);
    }
    NilReserved(r, s, j, next, phase);
    NilTakes(j, next, NilIntent(s.ballot.round, phase, r.self), Prevote);
    RecordNilKeeps(r, s, next, phase);
  }

  /** What the driver has established when it signs a nil vote. */
  lemma NilStep(r: Rules, n: Node, phase: Phase, t: Node)
    requires SignStep(r, n, SignNilVote(phase), t)
    ensures var b := n.work.ballot;
      var outcome := SignNil(r.certifies, r.chunk, n.journal, NilIntent(b.round, phase, r.self));
      && Synced(n.work, n.journal) && Settled(n)
      && (if phase == Prevote then b.local == Idle else b.local != Precommitted)
      && outcome.Ok? && t == n.(work := n.work.(ballot := RecordNil(r, b, phase)), journal := outcome.value)
  {
  }

  lemma SignNilKeeps(r: Rules, n: Node, phase: Phase, t: Node)
    requires RulesOk(r) && NodeInv(r, n) && SignStep(r, n, SignNilVote(phase), t)
    ensures NodeInv(r, t) && Synced(t.work, t.journal)
  {
    NilStep(r, n, phase, t);
    SignNilGrows(r, n.journal, NilIntent(n.work.ballot.round, phase, r.self));
    NilInSession(r, n.work, n.journal, t.journal, phase);
    NilRecordedIsSynced(r, n.work, n.journal, t.journal, phase);
    SettledKeeps(r, n, t);
  }

  lemma SignProposalKeeps(r: Rules, n: Node, p: Proposal, t: Node)
    requires RulesOk(r) && NodeInv(r, n) && SignStep(r, n, SignProposal(p), t)
    ensures NodeInv(r, t)
  {
    var j, b := n.journal, n.work.ballot;
    ReserveGrows(r, j, ProposalKind, b.round, ProposalMessage(p));
    assert OwnProposal(r, b.round, p);
    ProposalReserved(r, n.work, j, t.journal, p);
  }

  lemma OwnReportFits(r: Rules, s: BftSession, j: ChunkJournal)
    requires RulesOk(r) && Good(r, s, j)
    ensures r.reportOk(ReportIntent(r, s))
  {
    assert OwnReportAccepted(r, ReportIntent(r, s));
  }

  lemma ReserveGrows(r: Rules, j: ChunkJournal, kind: MessageKind, round: nat, message: Message)
    requires WellFormed(r.certifies, r.chunk, j) && ReserveMessage(r.certifies, r.chunk, j, kind, round, message).Ok?
    ensures var next := ReserveMessage(r.certifies, r.chunk, j, kind, round, message).value;
      WellFormed(r.certifies, r.chunk, next) && MessageAdded(j, next, kind, round, message)
  {
    ReserveMessageAdds(r.certifies, r.chunk, j, kind, round, message);
    ReserveMessageKeepsWellFormed(r.certifies, r.chunk, j, kind, round, message);
  }

  lemma SignReportKeeps(r: Rules, n: Node, t: Node)
    requires RulesOk(r) && NodeInv(r, n) && SignStep(r, n, SignReport, t)
    ensures NodeInv(r, t)
  {
    var report := ReportIntent(r, n.work);
    ReserveGrows(r, n.journal, ReportKind, n.work.ballot.round + 1, ReportMessage(report));
    OwnReportFits(r, n.work, n.journal);
    ReportReserved(r, n.work, n.journal, t.journal, report);
    SettledKeeps(r, n, t);
  }

  /** Every step of a validator, in any order and with a crash or an abandoned call anywhere, keeps the invariant. */
  lemma StepKeepsInv(r: Rules, n: Node, l: Label, t: Node)
    requires RulesOk(r) && NodeInv(r, n) && Step(r, n, l, t)
    ensures NodeInv(r, t)
  {
    if UpdateStep(r, n, l, t) {
      UpdateStepKeeps(r, n, l, t);
    } else {
      match l
      case SignPrevote => SignPrevoteKeeps(r, n, t);
      case SignPrecommit => SignPrecommitKeeps(r, n, t);
      case SignNilVote(phase) => SignNilKeeps(r, n, phase, t);
      case SignProposal(p) => SignProposalKeeps(r, n, p, t);
      case SignReport => SignReportKeeps(r, n, t);
    }
  }
}

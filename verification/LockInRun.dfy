/** A run of the network in which a value gathers a precommit quorum and a later round's proposal is accepted: a lone
    validator drives its session through round 0 and into round 1. */
module LockInRun {
  import opened Types
  import opened Stake
  import opened SigningJournal
  import opened Leader
  import opened Certificates
  import opened Pacemaker
  import opened Session
  import opened JournalGrowth
  import opened SessionInvariant
  import opened SessionSteps
  import opened SigningSteps
  import opened NodeSteps
  import opened Agreement
  import opened Context
  import opened Network
  import opened LockIn
  import opened NetworkRuns
  import Witness

  const SETTING: Setting := Setting(Witness.SOLO, 0, 0, (h: Hash) => None)

  const R: Rules := RulesOf(SETTING, 0)

  function FirstProposal(h: Hash): Proposal {
    Proposal(0, h, 0, 0, None, None)
  }

  function Locked(h: Hash): QuorumCert {
    QuorumCert(0, 0, h, {0})
  }

  function Departure(h: Hash): Report {
    Report(0, 1, 0, Some(Locked(h)))
  }

  function NextEntry(h: Hash): Certificate {
    Certificate(0, 1, [Departure(h)])
  }

  function SecondProposal(h: Hash): Proposal {
    Proposal(0, h, 1, 0, Some(Locked(h)), Some(NextEntry(h)))
  }

  // ----- the checks of the lone validator -----

  lemma SoloWeights()
    ensures Total(Witness.SOLO.validators) == 1 && Weight(Witness.SOLO.validators, {0}) == 1
  {
    var vs := Witness.SOLO.validators;
    assert WeightTo(vs, {0}, 1) == 1 && TotalTo(vs, 1) == 1;
  }

  lemma SoloSetting()
    ensures SettingOk(SETTING, 0) && ConfigOk(ConfigOf(SETTING, {}))
  {
    Witness.SoloQuorum();
  }

  lemma SoloQuorums(h: Hash)
    ensures R.prevoteQuorum({0}) && R.precommitQuorum({0}) && R.certifies(Locked(h))
    ensures HasQuorum(Witness.SOLO.validators, {0}, Witness.SOLO.precommit)
  {
    SoloWeights();
  }

  lemma SoloLeads(round: nat)
    ensures LeaderOf(Witness.SOLO.validators, 0, round) == Some(0)
  {
    var vs := Witness.SOLO.validators;
    assert EligibleTo(vs, 1) == EligibleTo(vs, 0) + [0] == [0];
  }

  lemma FirstIsAccepted(h: Hash)
    ensures R.proposalOk(h, 0, FirstProposal(h))
  {
    SoloLeads(0);
  }

  lemma EntryIsAccepted(h: Hash)
    ensures R.certOk(NextEntry(h)) && R.highest(NextEntry(h)) == Some(Locked(h))
  {
    SoloQuorums(h);
    SoloWeights();
    var reports := NextEntry(h).reports;
    assert reports[..0] == [] && HighestQuorum([]) == None;
    assert reports[0].index == 0;
    assert Reporters(reports) == {0};
  }

  lemma SecondIsAccepted(h: Hash)
    ensures R.proposalOk(h, 1, SecondProposal(h))
  {
    SoloLeads(1);
    SoloQuorums(h);
    EntryIsAccepted(h);
  }

  // ----- round 0 -----

  function Opening(h: Hash): BftSession {
    OpenedSession(R, h, None, 0, 1, 1)
  }

  function Proposed(h: Hash): BftSession {
    AcceptProposal(R, Opening(h), FirstProposal(h), 0)
  }

  function PrevoteMade(h: Hash): BftSession {
    AfterSigning(R, Proposed(h), SignPrevote)
  }

  function ValidKnown(h: Hash): BftSession {
    RememberValid(R, PrevoteMade(h), Locked(h))
  }

  function PrecommitMade(h: Hash): BftSession {
    AfterSigning(R, ValidKnown(h), SignPrecommit)
  }

  lemma ProposedShape(h: Hash)
    ensures var s := Proposed(h);
      && s.ballot == FreshBallot(0, h, [], None).(proposal := Some(FirstProposal(h)))
      && s.clock.step == Prevoting && s.lock.None? && s.valid.None? && s.report.None?
      && s.candidates == {h} && s.peer == BelowPrevote && s.clock.round == 0 && s.clock.reports == map[]
  {
    assert {h} + {h} == {h};
  }

  lemma ValidKnownShape(h: Hash)
    ensures var s := ValidKnown(h);
      && s == Proposed(h).(ballot := RecordPrevote(R, Proposed(h).ballot), valid := Some(Locked(h)),
         candidates := s.candidates)
      && s.candidates == {h} && s.ballot.prevotes == {0}
  {
    ProposedShape(h);
    assert {h} + {h} == {h};
  }

  /** The lone validator with `s` in all three copies. */
  function Everywhere(s: BftSession, j: ChunkJournal): Node {
    Node(s, s, s, j)
  }

  ghost predicate Reached(mid: World, n: Node, log: seq<Entry>) {
    RunVia(SETTING, {}, mid, Alone(n, log))
  }

  lemma Saves(mid: World, n: Node, log: seq<Entry>)
    requires Reached(mid, n, log)
    ensures Reached(mid, Everywhere(n.work, n.journal), log)
  {
    ActsAlone(SETTING, {}, mid, n, log, SaveAndInsert, Everywhere(n.work, n.journal));
  }

  lemma ReachesProposal(h: Hash) returns (mid: World)
    ensures Reached(mid, Everywhere(Proposed(h), EMPTY), [])
  {
    SoloSetting();
    OpensAlone(SETTING, {}, h);
    FirstIsAccepted(h);
    var n := Everywhere(Opening(h), EMPTY);
    mid := Alone(n, []);
    ActsAlone(SETTING, {}, mid, n, [], TakeProposal(FirstProposal(h), 0), n.(work := Proposed(h)));
    Saves(mid, n.(work := Proposed(h)), []);
  }

  lemma ReachedIsOk(mid: World, n: Node, log: seq<Entry>)
    requires Reached(mid, n, log)
    ensures NodeInv(R, n) && RulesOk(R)
  {
    EndKeepsInv(SETTING, {}, mid, Alone(n, log));
    assert NodeOk(SETTING, {}, log, 0, Alone(n, log).nodes[0]);
    RulesHold(SETTING, 0);
  }

  /** A vote leaves no message in a journal that has none. */
  lemma VoteAddsNoMessage(j: ChunkJournal, next: ChunkJournal, intent: VoteIntent)
    requires VoteAdded(j, next, intent) && j.messages == map[]
    ensures next.messages == map[]
  {
    assert next.messages.Keys == {};
  }

  function VoteEntry(intent: VoteIntent): Entry {
    Entry(0, ValueVote(intent))
  }

  lemma ReachesPrevote(h: Hash) returns (mid: World, j: ChunkJournal)
    ensures Reached(mid, Node(PrevoteMade(h), Proposed(h), Proposed(h), j), PrevoteLog(h))
    ensures j.messages == map[] && Synced(PrevoteMade(h), j)
  {
    var n := Everywhere(Proposed(h), EMPTY);
    mid := ReachesProposal(h);
    ReachedIsOk(mid, n, []);
    j := PrevoteIsSigned(h);
    PrevoteIsLogged(h);
    SignsAlone(SETTING, {}, mid, n, [], SignPrevote, n.(work := PrevoteMade(h), journal := j));
  }

  lemma PrevoteIsLogged(h: Hash)
    ensures LogAfter([], 0, Emitted(R, Everywhere(Proposed(h), EMPTY), SignPrevote)) == PrevoteLog(h)
  {
    assert [] + [VoteEntry(PrevoteIntent(R, Proposed(h).ballot))] == PrevoteLog(h);
  }

  lemma PrevoteIsDue(h: Hash)
    ensures SignEnabled(R, Everywhere(Proposed(h), EMPTY), SignPrevote)
  {
    ProposedShape(h);
  }

  lemma PrevoteIsSigned(h: Hash) returns (j: ChunkJournal)
    requires RulesOk(R) && NodeInv(R, Everywhere(Proposed(h), EMPTY))
    ensures SignStep(R, Everywhere(Proposed(h), EMPTY), SignPrevote, Node(PrevoteMade(h), Proposed(h), Proposed(h), j))
    ensures j.messages == map[] && Synced(PrevoteMade(h), j)
  {
    var n := Everywhere(Proposed(h), EMPTY);
    PrevoteIsDue(h);
    PrevoteNeverRefused(R, n);
    j := Signing(R, n, SignPrevote).value;
    SignPrevoteKeeps(R, n, n.(work := PrevoteMade(h), journal := j));
    SignVoteGrows(R, EMPTY, PrevoteIntent(R, n.work.ballot));
    VoteAddsNoMessage(EMPTY, j, PrevoteIntent(R, n.work.ballot));
  }

  function PrevoteLog(h: Hash): seq<Entry> {
    [VoteEntry(PrevoteIntent(R, Proposed(h).ballot))]
  }

  function PrecommitLog(h: Hash): seq<Entry> {
    PrevoteLog(h) + [VoteEntry(PrecommitIntent(R, ValidKnown(h).ballot))]
  }

  /** Both certificates a later step presents are made of votes in the log. */
  lemma LogIsGenuine(h: Hash, log: seq<Entry>)
    requires PrevoteLog(h) <= log
    ensures Genuine(ConfigOf(SETTING, {}), log, Locked(h))
  {
    assert log[0] == PrevoteLog(h)[0];
    assert IsVote(log[0], 0, 0, h, Prevote);
  }

  lemma LogHasQuorum(h: Hash, log: seq<Entry>)
    requires PrecommitLog(h) <= log
    ensures PrecommitQuorum(ConfigOf(SETTING, {}), log, {0}, 0, h)
  {
    SoloQuorums(h);
    assert log[1] == PrecommitLog(h)[1];
    assert IsVote(log[1], 0, 0, h, Precommit);
  }

  lemma ReachesValid(h: Hash) returns (mid: World, j: ChunkJournal)
    ensures Reached(mid, Everywhere(ValidKnown(h), j), PrevoteLog(h))
    ensures j.messages == map[] && Synced(ValidKnown(h), j)
  {
    mid, j := ReachesPrevote(h);
    var n := Node(PrevoteMade(h), Proposed(h), Proposed(h), j);
    ProposedShape(h);
    ValidKnownShape(h);
    SoloQuorums(h);
    LogIsGenuine(h, PrevoteLog(h));
    ActsAlone(SETTING, {}, mid, n, PrevoteLog(h), KeepValid(Locked(h)), n.(work := ValidKnown(h)));
    Saves(mid, n.(work := ValidKnown(h)), PrevoteLog(h));
  }

  lemma PrecommitIsDue(h: Hash, j: ChunkJournal)
    requires Synced(ValidKnown(h), j)
    ensures SignEnabled(R, Everywhere(ValidKnown(h), j), SignPrecommit)
  {
    ProposedShape(h);
    ValidKnownShape(h);
    SoloQuorums(h);
  }

  lemma ReachesPrecommit(h: Hash) returns (j: ChunkJournal)
    ensures var n := Node(PrecommitMade(h), ValidKnown(h), ValidKnown(h), j);
      Reached(Alone(n, PrecommitLog(h)), n, PrecommitLog(h))
    ensures j.messages == map[]
  {
    var mid, k := ReachesValid(h);
    var n := Everywhere(ValidKnown(h), k);
    ReachedIsOk(mid, n, PrevoteLog(h));
    PrecommitIsDue(h, k);
    PrecommitNeverRefused(R, n);
    j := Signing(R, n, SignPrecommit).value;
    SignVoteGrows(R, k, PrecommitIntent(R, n.work.ballot));
    VoteAddsNoMessage(k, j, PrecommitIntent(R, n.work.ballot));
    SignsAlone(SETTING, {}, mid, n, PrevoteLog(h), SignPrecommit, n.(work := PrecommitMade(h), journal := j));
  }

  // ----- into round 1 -----

  function PhaseClosed(h: Hash): BftSession {
    PrecommitMade(h).(clock := EnterAwaitRound(PrecommitMade(h).clock, 0))
  }

  function ReportMade(h: Hash): BftSession {
    AfterSigning(R, PhaseClosed(h), SignReport)
  }

  function NextRound(h: Hash): BftSession
    requires ReportMade(h).clock.round == 0
  {
    EnterRound(R, ReportMade(h), NextEntry(h), 0)
  }

  function ReportLog(h: Hash): seq<Entry> {
    PrecommitLog(h) + [ReportEntry(Departure(h))]
  }

  lemma PrecommittedShape(h: Hash)
    ensures var s := PrecommitMade(h);
      && s.ballot.round == 0 && s.ballot.target == h && s.ballot.proofs == [] && s.ballot.proposal.Some?
      && s.ballot.prevotes == {0} && s.ballot.precommits == {0}
      && s.valid == Some(Locked(h)) && s.candidates == {h} && s.report.None? && s.clock.round == 0
      && s.clock.step == Prevoting && s.clock.chunk == 0 && s.clock.reports == map[]
  {
    ProposedShape(h);
    ValidKnownShape(h);
  }

  lemma ReachesClosed(h: Hash, mid: World, n: Node)
    requires n.work == PrecommitMade(h) && Reached(mid, n, PrecommitLog(h))
    ensures Reached(mid, Everywhere(PhaseClosed(h), n.journal), PrecommitLog(h))
  {
    PrecommittedShape(h);
    ActsAlone(SETTING, {}, mid, n, PrecommitLog(h), MovePhase(PhaseClosed(h).clock), n.(work := PhaseClosed(h)));
    Saves(mid, n.(work := PhaseClosed(h)), PrecommitLog(h));
  }

  lemma ReportIsDue(h: Hash, j: ChunkJournal)
    requires j.messages == map[]
    ensures SignEnabled(R, Everywhere(PhaseClosed(h), j), SignReport)
  {
    PrecommittedShape(h);
  }

  lemma ReportIsLogged(h: Hash, j: ChunkJournal)
    ensures LogAfter(PrecommitLog(h), 0, Emitted(R, Everywhere(PhaseClosed(h), j), SignReport)) == ReportLog(h)
  {
    PrecommittedShape(h);
  }

  lemma ReachesReport(h: Hash, mid: World, n: Node) returns (m: Node)
    requires n == Everywhere(PhaseClosed(h), n.journal) && n.journal.messages == map[]
      && Reached(mid, n, PrecommitLog(h))
    ensures Reached(mid, m, ReportLog(h)) && m.work == ReportMade(h)
  {
    ReachedIsOk(mid, n, PrecommitLog(h));
    ReportIsDue(h, n.journal);
    ReportIsLogged(h, n.journal);
    MessageNeverRefused(R, n, SignReport);
    m := n.(work := ReportMade(h), journal := Signing(R, n, SignReport).value);
    SignsAlone(SETTING, {}, mid, n, PrecommitLog(h), SignReport, m);
  }

  lemma EnteredShape(h: Hash)
    ensures ReportMade(h).clock.round == 0
    ensures var s := NextRound(h);
      s.ballot == FreshBallot(1, h, [], Some(NextEntry(h))) && s.clock.round == 1
  {
    PrecommittedShape(h);
  }

  lemma EntryIsUnforged(h: Hash)
    ensures var cfg := ConfigOf(SETTING, {});
      CertUnforged(cfg, ReportLog(h), NextEntry(h)) && ProposalUnforged(cfg, ReportLog(h), SecondProposal(h))
  {
    LogIsGenuine(h, ReportLog(h));
    assert ReportLog(h)[2] == ReportEntry(Departure(h));
  }

  lemma EntersNext(h: Hash, n: Node)
    requires n.work == ReportMade(h)
    ensures ReportMade(h).clock.round == 0 && NextRound(h).ballot == FreshBallot(1, h, [], Some(NextEntry(h)))
    ensures UpdateStep(R, n, EnterCertified(NextEntry(h), 0), n.(work := NextRound(h)))
  {
    EnteredShape(h);
    EntryIsAccepted(h);
    PrecommittedShape(h);
  }

  lemma ReachesEntry(h: Hash, mid: World, n: Node) returns (m: Node)
    requires n.work == ReportMade(h) && Reached(mid, n, ReportLog(h))
    ensures Reached(mid, m, ReportLog(h)) && m.work.ballot == FreshBallot(1, h, [], Some(NextEntry(h)))
  {
    EntersNext(h, n);
    EntryIsUnforged(h);
    m := n.(work := NextRound(h));
    ActsAlone(SETTING, {}, mid, n, ReportLog(h), EnterCertified(NextEntry(h), 0), m);
  }

  lemma ReachesSecond(h: Hash, mid: World, n: Node) returns (m: Node)
    requires n.work.ballot == FreshBallot(1, h, [], Some(NextEntry(h))) && Reached(mid, n, ReportLog(h))
    ensures Reached(mid, m, ReportLog(h)) && m.work.ballot.proposal == Some(SecondProposal(h))
      && m.work.ballot.round == 1
  {
    SecondIsAccepted(h);
    EntryIsUnforged(h);
    m := n.(work := AcceptProposal(R, n.work, SecondProposal(h), 0));
    ActsAlone(SETTING, {}, mid, n, ReportLog(h), TakeProposal(SecondProposal(h), 0), m);
  }

  lemma ReachesLaterProposal(h: Hash, mid: World, n: Node) returns (m: Node)
    requires n.work == PrecommitMade(h) && n.journal.messages == map[] && Reached(mid, n, PrecommitLog(h))
    ensures Reached(mid, m, ReportLog(h)) && m.work.ballot.proposal == Some(SecondProposal(h))
      && m.work.ballot.round == 1
  {
    ReachesClosed(h, mid, n);
    var reported := ReachesReport(h, mid, Everywhere(PhaseClosed(h), n.journal));
    var entered := ReachesEntry(h, mid, reported);
    m := ReachesSecond(h, mid, entered);
  }

  lemma CertificateIsComplete(h: Hash)
    ensures Complete(R, PrecommitMade(h).ballot) && PrecommitMade(h).ballot.target == h
    ensures PrecommitQuorum(ConfigOf(SETTING, {}), PrecommitLog(h), {0}, 0, h)
  {
    PrecommittedShape(h);
    SoloQuorums(h);
    LogHasQuorum(h, PrecommitLog(h));
  }

  /** Validator 0 has a complete certificate for `h` in `mid`, and in `w` a proposal of a later round. */
  predicate LocksIn(h: Hash, mid: World, w: World) {
    && 0 in mid.nodes && Complete(R, mid.nodes[0].work.ballot) && mid.nodes[0].work.ballot.target == h
    && PrecommitQuorum(ConfigOf(SETTING, {}), mid.log, {0}, 0, h)
    && 0 in w.nodes && w.nodes[0].work.ballot.proposal.Some? && w.nodes[0].work.ballot.round > 0
  }

  /** A run of the network in which a validator completes a certificate for `h`, a precommit quorum for `h` is in the
      log, and afterwards a proposal of a later round is accepted. */
  lemma LockInIsReached(h: Hash)
    ensures ConfigOk(ConfigOf(SETTING, {}))
    ensures exists mid: World, w: World :: RunVia(SETTING, {}, mid, w) && LocksIn(h, mid, w)
  {
    SoloSetting();
    var j := ReachesPrecommit(h);
    var n := Node(PrecommitMade(h), ValidKnown(h), ValidKnown(h), j);
    var mid := Alone(n, PrecommitLog(h));
    CertificateIsComplete(h);
    var last := ReachesLaterProposal(h, mid, n);
    assert RunVia(SETTING, {}, mid, Alone(last, ReportLog(h))) && LocksIn(h, mid, Alone(last, ReportLog(h)));
  }
}

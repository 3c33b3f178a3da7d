/** Two histories of a driver in a committee of four, of which one validator is faulty. */
module DriverRuns {
  import opened Types
  import opened Stake
  import opened SigningJournal
  import opened Leader
  import opened Certificates
  import opened Pacemaker
  import opened Session
  import opened SessionInvariant
  import opened SessionSteps
  import opened NodeSteps
  import opened Context
  import opened Driver
  import opened CandidateRuns
  import opened PeerFlag

  const FOUR: Committee := Committee(
    [Validator(1, false), Validator(1, false), Validator(1, false), Validator(1, false)],
    Fraction(2, 3), Fraction(2, 3),
    (qc: QuorumCert) => true, (m: Report) => true, (p: Proposal) => true,
    (data: VoteData, i: nat) => true, (chunk: nat, round: nat, phase: Phase, i: nat) => true,
    (signers: set<nat>) => true)

  const SETTING: Setting := Setting(FOUR, 0, 1, (h: Hash) => None)

  /** The checks of validator 0; the other three form a quorum. */
  const R: Rules := RulesOf(SETTING, 0)

  const OTHERS: set<nat> := {1, 2, 3}

  // ----- the committee -----

  lemma FourWeights()
    ensures Total(FOUR.validators) == 4 && Weight(FOUR.validators, OTHERS) == 3 && Weight(FOUR.validators, {0}) == 1
    ensures AllActive(FOUR.validators, OTHERS)
  {
    var vs := FOUR.validators;
    assert forall i :: 0 <= i < 4 ==> vs[i] == Validator(1, false);
    assert TotalTo(vs, 1) == 1 && TotalTo(vs, 2) == 2 && TotalTo(vs, 3) == 3 && TotalTo(vs, 4) == 4;
    assert WeightTo(vs, OTHERS, 1) == 0 && WeightTo(vs, OTHERS, 2) == 1 && WeightTo(vs, OTHERS, 3) == 2;
    assert WeightTo(vs, {0}, 1) == 1 && WeightTo(vs, {0}, 2) == 1 && WeightTo(vs, {0}, 3) == 1;
  }

  lemma FourQuorums(qc: QuorumCert)
    ensures R.prevoteQuorum(OTHERS) && !R.prevoteQuorum({0})
    ensures qc.signers == OTHERS ==> R.certifies(qc)
  {
    FourWeights();
  }

  lemma FourSetting()
    ensures SettingOk(SETTING, 0) && RulesOk(R)
  {
    FourWeights();
    RulesHold(SETTING, 0);
  }

  lemma FourLeads()
    ensures LeaderOf(FOUR.validators, 1, 0) == Some(1) && LeaderOf(FOUR.validators, 1, 9) == Some(2)
  {
    var vs := FOUR.validators;
    assert EligibleTo(vs, 1) == [0] && EligibleTo(vs, 2) == [0, 1] && EligibleTo(vs, 3) == [0, 1, 2];
    assert Eligible(vs) == [0, 1, 2, 3];
  }

  // ----- a reported branch is dropped -----

  const REPORTED: QuorumCert := QuorumCert(0, 3, 0, OTHERS)

  const VALID: QuorumCert := QuorumCert(0, 5, 8, OTHERS)

  /** Validator 3 signs two reports for round 9; the first certificate names no value, the second the one of round 3. */
  const FIRST: Certificate := Certificate(0, 9, [Report(0, 9, 1, None), Report(0, 9, 2, None), Report(0, 9, 3, None)])

  const SECOND: Certificate :=
    Certificate(0, 9, [Report(0, 9, 1, None), Report(0, 9, 2, None), Report(0, 9, 3, Some(REPORTED))])

  const LATE: Proposal := Proposal(0, 8, 9, 2, Some(VALID), Some(SECOND))

  lemma EntryOk(cert: Certificate)
    requires cert == FIRST || cert == SECOND
    ensures R.certOk(cert)
  {
    FourWeights();
    var reports := cert.reports;
    assert reports[0].index == 1 && reports[1].index == 2 && reports[2].index == 3;
    assert Reporters(reports) == OTHERS;
    forall k | 0 <= k < |reports|
      ensures ReportOk(FOUR, reports[k])
    {
      FourQuorums(REPORTED);
    }
  }

  lemma SecondNames()
    ensures R.highest(SECOND) == Some(REPORTED) && R.highest(FIRST) == None
  {
    NoneSilent([Report(0, 9, 1, None), Report(0, 9, 2, None)]);
    NoneSilent(FIRST.reports);
    assert SECOND.reports[..2] == [Report(0, 9, 1, None), Report(0, 9, 2, None)];
  }

  lemma {:induction false} NoneSilent(reports: seq<Report>)
    requires forall k :: 0 <= k < |reports| ==> reports[k].highest.None?
    ensures HighestQuorum(reports) == None
  {
    if reports != [] {
      NoneSilent(reports[..|reports| - 1]);
    }
  }

  lemma LateOk()
    ensures R.proposalOk(8, 9, LATE)
  {
    FourLeads();
    FourWeights();
    FourQuorums(VALID);
    EntryOk(SECOND);
    SecondNames();
  }

  /** Branch 1 and the branches below `k`. */
  function Branches(k: nat): set<Hash> {
    if k == 0 then {1} else Branches(k - 1) + {k - 1}
  }

  lemma {:induction false} BranchesExact(k: nat)
    ensures forall i: Hash :: i in Branches(k) <==> i == 1 || i < k
  {
    if k > 0 {
      BranchesExact(k - 1);
    }
  }

  lemma {:induction false} BranchesFit(k: nat)
    ensures |Branches(k)| == if k < 2 then k + 1 else k
  {
    if k > 0 {
      BranchesExact(k - 1);
      BranchesFit(k - 1);
      if k == 2 {
        assert Branches(k) == Branches(k - 1);
      }
    }
  }

  function Holding(candidates: set<Hash>): BftSession {
    OpenedSession(R, 1, Some(FIRST), 0, 1, 1).(candidates := candidates)
  }

  function Copies(work: BftSession): Node {
    var s := OpenedSession(R, 1, Some(FIRST), 0, 1, 1);
    Node(work, s, s, EMPTY)
  }

  lemma Remembers(k: nat)
    requires k < 8
    ensures UpdateStep(R, Copies(Holding(Branches(k))), KeepCandidate(k), Copies(Holding(Branches(k + 1))))
  {
    BranchesFit(k + 1);
  }

  lemma OpenIsReached()
    ensures Reachable(R, Copies(Holding({1})))
  {
    FourSetting();
    EntryOk(FIRST);
    OpenedIsReachable(R, 1, Some(FIRST), 0, 1, 1, Copies(Holding({1})));
  }

  lemma {:induction false} CacheFills(k: nat)
    requires k <= 8
    ensures Reachable(R, Copies(Holding(Branches(k))))
  {
    if k == 0 {
      OpenIsReached();
    } else {
      CacheFills(k - 1);
      Remembers(k - 1);
      NextIsReachable(R, Copies(Holding(Branches(k - 1))), KeepCandidate(k - 1), Copies(Holding(Branches(k))));
    }
  }

  /** The session of round 9 with a full cache that has moved to the proposed target. */
  function Moved(k: nat): BftSession {
    ResetTarget(R, Holding(Branches(k)), 8)
  }

  lemma FullIsReached(k: nat)
    requires k == MAX_CANDIDATES
    ensures Reachable(R, Copies(Moved(k)))
  {
    CacheFills(k);
    NextIsReachable(R, Copies(Holding(Branches(k))), Retarget(8), Copies(Moved(k)));
  }

  lemma BranchIsUnnamed(k: nat)
    requires k == MAX_CANDIDATES
    ensures HighestOf(R, LATE.certificate) == Some(REPORTED) && |Branches(k)| == k && 8 !in Branches(k)
      && 0 in Branches(k)
    ensures FirstUnnamed(Branches(k) + {8}, NamedWhileAccepting(R, Moved(k), LATE), 0)
  {
    SecondNames();
    BranchesFit(k);
    NamesOnlyTarget(k);
    ZeroIsFirst(k);
  }

  lemma NamesOnlyTarget(k: nat)
    ensures NamedWhileAccepting(R, Moved(k), LATE) == {8}
  {
    SecondNames();
  }

  lemma ZeroIsFirst(k: nat)
    requires k == MAX_CANDIDATES
    ensures FirstUnnamed(Branches(k) + {8}, {8}, 0) && 8 !in Branches(k) && 0 in Branches(k)
  {
    BranchesExact(k);
  }

  /** The certificate the proposal installs names branch 0, and the same step drops branch 0 from the cache. */
  predicate DropsReported(s: BftSession, t: BftSession) {
    && HighestOf(R, t.ballot.certificate) == Some(REPORTED)
    && REPORTED.hash in s.candidates && REPORTED.hash in Protected(R, t) && REPORTED.hash !in t.candidates
  }

  lemma BranchIsDropped(k: nat)
    requires k == MAX_CANDIDATES && RulesOk(R) && Good(R, Moved(k), EMPTY) && R.proposalOk(8, 9, LATE)
    ensures DropsReported(Moved(k), AcceptProposal(R, Moved(k), LATE, 0))
  {
    BranchIsUnnamed(k);
    InstalledBranchDropped(R, Moved(k), EMPTY, LATE, 0);
    AcceptedFrame(R, Moved(k), LATE, 0);
  }

  lemma LateIsTaken(k: nat)
    requires R.proposalOk(8, 9, LATE)
    ensures Step(R, Copies(Moved(k)), TakeProposal(LATE, 0), Copies(AcceptProposal(R, Moved(k), LATE, 0)))
  {
    TakesProposal(R, Copies(Moved(k)), LATE, 0);
  }

  /** A driver that can be reached, and a proposal it accepts, whose acceptance drops the branch named by the
      certificate the proposal installs. */
  lemma ReportedBranchCanGo()
    ensures exists n, t :: Reachable(R, n) && Step(R, n, TakeProposal(LATE, 0), t) && DropsReported(n.work, t.work)
  {
    var k: nat := MAX_CANDIDATES;
    var n, t := Copies(Moved(k)), Copies(AcceptProposal(R, Moved(k), LATE, 0));
    FullIsReached(k);
    ReachableIsOk(R, n);
    LateOk();
    BranchIsDropped(k);
    LateIsTaken(k);
    assert Reachable(R, n) && Step(R, n, TakeProposal(LATE, 0), t) && DropsReported(n.work, t.work);
  }

  // ----- the prevote flag outlives its quorum -----

  /** The quorum is for hash 1; the faulty leader of round 0 then proposes hash 2. */
  const RIVAL: Proposal := Proposal(0, 2, 0, 1, None, None)

  lemma RivalOk()
    ensures R.proposalOk(2, 0, RIVAL)
  {
    FourLeads();
  }

  function Fresh(): BftSession {
    OpenedSession(R, 1, None, 0, 1, 1)
  }

  function Counted(): BftSession {
    Fresh().(ballot := AddVotes(Fresh().ballot, Prevote, OTHERS))
  }

  function Kept(): BftSession {
    RememberValid(R, Counted(), CurrentQuorum(R, Counted().ballot))
  }

  function Flagged(): BftSession {
    AdvancePeer(R, Kept())
  }

  lemma FlaggedShape()
    ensures var s := Flagged();
      && s.ballot == Fresh().ballot.(prevotes := OTHERS) && s.peer == PrevoteObserved
      && s.lock.None? && s.report.None? && s.clock == Fresh().clock
    ensures VoteCounted(R, Fresh(), Prevote, OTHERS, 0) == Flagged()
  {
    FourQuorums(CurrentQuorum(R, Counted().ballot));
    assert {} + OTHERS == OTHERS;
  }

  lemma FreshIsReached()
    ensures Reachable(R, Node(Fresh(), Fresh(), Fresh(), EMPTY))
  {
    FourSetting();
    OpenedIsReachable(R, 1, None, 0, 1, 1, Node(Fresh(), Fresh(), Fresh(), EMPTY));
  }

  lemma CountsQuorum(n: Node)
    requires n.work == Fresh()
    ensures UpdateStep(R, n, CountVotes(Prevote, OTHERS), n.(work := Counted()))
    ensures UpdateStep(R, n.(work := Counted()), KeepValid(CurrentQuorum(R, Counted().ballot)), n.(work := Kept()))
  {
    FourWeights();
    FourQuorums(CurrentQuorum(R, Counted().ballot));
    assert ClaimsVerify(FOUR, VoteTarget(R, n.work.ballot, Prevote), OTHERS);
    assert {} + OTHERS == OTHERS;
  }

  lemma KeptIsReached()
    ensures Reachable(R, Node(Kept(), Fresh(), Fresh(), EMPTY))
  {
    var n := Node(Fresh(), Fresh(), Fresh(), EMPTY);
    FreshIsReached();
    CountsQuorum(n);
    NextIsReachable(R, n, CountVotes(Prevote, OTHERS), n.(work := Counted()));
    NextIsReachable(R, n.(work := Counted()), KeepValid(CurrentQuorum(R, Counted().ballot)), n.(work := Kept()));
  }

  lemma FlaggedIsReached()
    ensures Reachable(R, Node(Flagged(), Flagged(), Flagged(), EMPTY))
  {
    var n := Node(Kept(), Fresh(), Fresh(), EMPTY);
    KeptIsReached();
    ObservesPeers(R, n);
    SavesWork(R, n.(work := Flagged()));
  }

  lemma RivalFits()
    ensures ProposalFits(R, Flagged(), RIVAL)
  {
    FlaggedShape();
    RivalOk();
  }

  lemma RivalShape()
    ensures var t := AcceptedTarget(R, Flagged(), RIVAL, 0);
      && t.ballot == FreshBallot(0, 2, [], None).(proposal := Some(RIVAL)) && t.lock.None?
      && t.peer == PrevoteObserved && t.clock.step == Prevoting
  {
    FlaggedShape();
    AcceptedShape(R, Flagged(), RIVAL, 0);
  }

  /** After the acceptance of the rival proposal only the local prevote is counted. */
  lemma OnlyOwnPrevote()
    ensures AfterPrevote(R, AcceptedTarget(R, Flagged(), RIVAL, 0)).ballot.prevotes == {0}
  {
    RivalShape();
    PrevoteIsCounted(R, AcceptedTarget(R, Flagged(), RIVAL, 0));
    assert {} + {0} == {0};
  }

  /** The prevotes a session has counted are a quorum when the flag is set and none when a proposal for another hash
      has been accepted; that acceptance ends the prevote phase all the same. */
  predicate FlagOutlives(s: BftSession, t: BftSession) {
    && R.prevoteQuorum(s.ballot.prevotes) && s.peer == PrevoteObserved && s.ballot.proposal.None?
    && Stale(R, t) && t.clock.step == Precommitting
  }

  /** A driver that can be reached and a proposal that fits its session, whose acceptance leaves the flag without a
      quorum. */
  lemma FlagOutlivesQuorum()
    ensures exists n :: Reachable(R, n) && Settled(n) && ProposalFits(R, n.work, RIVAL)
                        && FlagOutlives(n.work, Accepted(R, n.work, RIVAL, 0))
  {
    var n := Node(Flagged(), Flagged(), Flagged(), EMPTY);
    FlaggedIsReached();
    RivalFits();
    RivalLeavesFlag();
    assert Reachable(R, n) && Settled(n) && ProposalFits(R, n.work, RIVAL);
  }

  lemma RivalLeavesFlag()
    ensures FlagOutlives(Flagged(), Accepted(R, Flagged(), RIVAL, 0))
  {
    FlaggedShape();
    FourQuorums(VALID);
    RivalShape();
    OnlyOwnPrevote();
    VotedIsStaleExactly(R, AcceptedTarget(R, Flagged(), RIVAL, 0), 0);
  }
}

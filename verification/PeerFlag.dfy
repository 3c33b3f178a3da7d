/** The recorded "prevote quorum observed" flag: when it can outlive the quorum it was set for, and what that does. */
module PeerFlag {
  import opened Types
  import opened SigningJournal
  import opened Pacemaker
  import opened Session
  import opened Candidates
  import opened SessionInvariant
  import opened Recovery
  import opened NodeSteps
  import opened Driver

  /** The flag is set, but the counted prevotes are no quorum. */
  predicate Stale(r: Rules, s: BftSession) {
    s.peer == PrevoteObserved && !r.prevoteQuorum(s.ballot.prevotes)
  }

  // ----- one call -----

  /** Accepting the first proposal of a round leaves the flag without its quorum if and only if the flag was set and the
      proposed hash is not the target. */
  lemma AcceptedIsStaleExactly(r: Rules, s: BftSession, p: Proposal, now: nat)
    requires !r.prevoteQuorum({}) && s.ballot.proposal.None? && !Stale(r, s)
    ensures Stale(r, AcceptedTarget(r, s, p, now)) <==> s.peer == PrevoteObserved && p.hash != s.ballot.target
  {
    AcceptedFrame(r, Targeted(r, s, p.hash), p, now);
  }

  /** The session right after a first proposal for another hash was accepted. */
  lemma AcceptedShape(r: Rules, s: BftSession, p: Proposal, now: nat)
    requires s.ballot.proposal.None? && p.hash != s.ballot.target
    ensures var t := AcceptedTarget(r, s, p, now);
      && t.ballot == WithProposal(ResetTarget(r, s, p.hash).ballot, p) && t.lock == s.lock && t.peer == s.peer
      && t.clock == EnterPrevote(s.clock, now)
  {
    AcceptedFrame(r, ResetTarget(r, s, p.hash), p, now);
    RememberedFrame(r, ResetTarget(r, s, p.hash), p);
  }

  lemma RememberedFrame(r: Rules, s: BftSession, p: Proposal)
    ensures RememberProposal(r, s, p).clock == s.clock
  {
  }

  lemma PrevoteIsCounted(r: Rules, s: BftSession)
    requires s.ballot.local == Idle && s.clock.step == Prevoting && LockAllows(r, s)
    ensures AfterPrevote(r, s).ballot.prevotes == s.ballot.prevotes + {r.self}
  {
  }

  lemma PrevoteKeepsPeer(r: Rules, s: BftSession)
    ensures AfterPrevote(r, s).peer == s.peer
  {
  }

  lemma RecomputedPeer(r: Rules, s: BftSession)
    ensures s.peer != BelowPrevote ==> Recomputed(r, s).peer != BelowPrevote
    ensures Recomputed(r, s).ballot.prevotes == s.ballot.prevotes
    ensures Stale(r, Recomputed(r, s)) <==> Stale(r, s)
  {
  }

  /** After the vote on the proposal the flag lacks its quorum if and only if it did before the vote and the local
      prevote does not complete one. */
  lemma VotedIsStaleExactly(r: Rules, s: BftSession, now: nat)
    ensures Stale(r, Voted(r, s, now)) <==>
      s.peer == PrevoteObserved && !r.prevoteQuorum(AfterPrevote(r, s).ballot.prevotes)
    ensures s.peer != BelowPrevote ==>
      Voted(r, s, now).clock.step == Precommitting || Voted(r, s, now).clock.step == AwaitRound
    ensures s.peer != BelowPrevote && s.clock.step == Prevoting ==> Voted(r, s, now).clock.step == Precommitting
  {
    PrevoteKeepsPeer(r, s);
    RecomputedPeer(r, AfterPrevote(r, s));
  }

  /** The local validator prevotes the proposal it has just accepted. */
  predicate WillPrevote(r: Rules, s: BftSession) {
    s.ballot.local == Idle && s.clock.step == Prevoting && LockAllows(r, s)
  }

  lemma PrevotesAfter(r: Rules, s: BftSession)
    ensures AfterPrevote(r, s).ballot.prevotes == s.ballot.prevotes + (if WillPrevote(r, s) then {r.self} else {})
  {
  }

  /** The whole acceptance: the flag ends up without its quorum if and only if it was set, the proposed hash is not the
      target, and the local prevote is not a quorum alone. */
  lemma AcceptanceIsStaleExactly(r: Rules, s: BftSession, p: Proposal, now: nat)
    requires QuorumsGrow(r) && !r.prevoteQuorum({}) && s.ballot.proposal.None? && !Stale(r, s)
    ensures Stale(r, Accepted(r, s, p, now)) <==>
      && s.peer == PrevoteObserved && p.hash != s.ballot.target
      && !(WillPrevote(r, AcceptedTarget(r, s, p, now)) && r.prevoteQuorum({r.self}))
  {
    var t := AcceptedTarget(r, s, p, now);
    AcceptedIsStaleExactly(r, s, p, now);
    AcceptedFrame(r, Targeted(r, s, p.hash), p, now);
    PrevotesAfter(r, t);
    VotedIsStaleExactly(r, t, now);
    if p.hash != s.ballot.target {
      assert t.ballot.prevotes == {} && {} + {r.self} == {r.self};
    } else {
      assert s.ballot.prevotes <= AfterPrevote(r, t).ballot.prevotes;
    }
  }

  /** A set flag closes the prevote phase as soon as a proposal is accepted, whether or not that proposal has a
      quorum. */
  lemma FlagEndsPrevoting(r: Rules, s: BftSession, p: Proposal, now: nat)
    requires s.ballot.proposal.None? && s.peer == PrevoteObserved
    ensures var t := Accepted(r, s, p, now); t.clock.step == Precommitting || t.clock.step == AwaitRound
  {
    AcceptedFrame(r, Targeted(r, s, p.hash), p, now);
    VotedIsStaleExactly(r, AcceptedTarget(r, s, p, now), now);
  }

  // ----- every step -----

  /** The target of a flagged session without a proposal changes. */
  predicate Orphans(n: Node, l: Label) {
    && l.Retarget? && l.hash != n.work.ballot.target
    && n.work.peer == PrevoteObserved && n.work.ballot.proposal.None?
  }

  lemma RecoverKeepsFlag(r: Rules, s: BftSession, j: ChunkJournal)
    requires RulesOk(r) && Good(r, s, j)
    ensures Recover(r, s, j).Ok?
    ensures Stale(r, Recover(r, s, j).value.session) ==> Stale(r, s)
  {
    RecoverIsExact(r, s, j);
    RecoveredFlag(r, s, j);
  }

  /** Recovery only adds prevotes and only raises the flag, to what the counted prevotes show. */
  lemma RecoveredFlag(r: Rules, s: BftSession, j: ChunkJournal)
    requires QuorumsGrow(r) && Recover(r, s, j).Ok?
      && s.ballot.prevotes <= Recover(r, s, j).value.session.ballot.prevotes
    ensures Stale(r, Recover(r, s, j).value.session) ==> Stale(r, s)
  {
  }

  lemma RestoredIsNotStale(r: Rules, s: BftSession)
    ensures !Stale(r, AdvancePeer(r, s.(peer := BelowPrevote)))
  {
  }

  /** Steps that leave the flag and the counted prevotes alone. */
  predicate LeavesVotes(l: Label) {
    || l.KeepCandidate? || l.KeepValid? || l.TakeProposal? || l.MovePhase? || l.CollectReport?
    || l.SaveOnly? || l.SaveAndInsert? || l.AdoptReport?
  }

  lemma QuietFlag(r: Rules, n: Node, l: Label, t: Node)
    requires UpdateStep(r, n, l, t) && LeavesVotes(l)
    ensures t.work.peer == n.work.peer && t.work.ballot.prevotes == n.work.ballot.prevotes
  {
    if l.TakeProposal? {
      AcceptedFrame(r, n.work, l.p, l.now);
    }
  }

  lemma CrashFlag(r: Rules, n: Node, t: Node)
    requires RulesOk(r) && NodeInv(r, n) && UpdateStep(r, n, Crash, t)
    ensures !Stale(r, t.work) && !Stale(r, t.mem)
  {
    RestoreIsExact(r, n.saved, n.journal);
    RestoredIsNotStale(r, n.saved);
  }

  lemma CountedFlag(r: Rules, s: BftSession, phase: Phase, signers: set<nat>)
    requires QuorumsGrow(r)
    ensures Stale(r, s.(ballot := AddVotes(s.ballot, phase, signers))) ==> Stale(r, s)
    ensures Stale(r, s.(ballot := AddNils(s.ballot, phase, signers))) ==> Stale(r, s)
  {
  }

  lemma AdvancedFlag(r: Rules, s: BftSession)
    ensures Stale(r, AdvancePeer(r, s)) ==> Stale(r, s)
  {
  }

  lemma UpdateFlag(r: Rules, n: Node, l: Label, t: Node)
    requires QuorumsGrow(r) && !r.prevoteQuorum({})
    requires UpdateStep(r, n, l, t) && !l.RecoverSigning? && !l.Crash?
    ensures Stale(r, t.work) ==> Stale(r, n.work) || (l.Begin? && Stale(r, n.mem)) || Orphans(n, l)
    ensures Orphans(n, l) ==> Stale(r, t.work)
    ensures l.EnterCertified? ==> !Stale(r, t.work)
  {
    if LeavesVotes(l) {
      QuietFlag(r, n, l, t);
    } else if l.CountVotes? || l.CountNils? {
      CountedFlag(r, n.work, l.phase, l.signers);
    } else if l.ObservePeers? {
      AdvancedFlag(r, n.work);
    }
  }

  lemma SignFlag(r: Rules, s: BftSession, l: Label)
    requires QuorumsGrow(r)
    ensures Stale(r, AfterSigning(r, s, l)) ==> Stale(r, s)
  {
  }

  /** A step leaves the flag without its quorum only if it already was so, or a flagged session without a proposal
      changed its target; and then it always does. Entering a round and restarting repair it. */
  lemma StepFlag(r: Rules, n: Node, l: Label, t: Node)
    requires RulesOk(r) && NodeInv(r, n) && Step(r, n, l, t)
    ensures Stale(r, t.work) ==> Stale(r, n.work) || (l.Begin? && Stale(r, n.mem)) || Orphans(n, l)
    ensures Stale(r, t.mem) ==> Stale(r, n.mem) || Stale(r, n.work)
    ensures Orphans(n, l) ==> Stale(r, t.work)
    ensures l.EnterCertified? || l.Crash? ==> !Stale(r, t.work)
  {
    if l.RecoverSigning? {
      RecoverKeepsFlag(r, n.work, n.journal);
    } else if l.Crash? {
      CrashFlag(r, n, t);
    } else if UpdateStep(r, n, l, t) {
      UpdateFlag(r, n, l, t);
    } else {
      SignFlag(r, n.work, l);
    }
  }

  // ----- every run -----

  /** Some earlier step changed the target of a flagged session without a proposal. */
  predicate OrphanedBefore(nodes: seq<Node>, labels: seq<Label>, k: nat)
    requires |nodes| == |labels| + 1 && k < |nodes|
  {
    exists i :: 0 <= i < k && Orphans(nodes[i], labels[i])
  }

  predicate StaleSomewhere(r: Rules, n: Node) {
    Stale(r, n.work) || Stale(r, n.mem)
  }

  lemma StepOrphans(r: Rules, n: Node, l: Label, t: Node)
    requires RulesOk(r) && NodeInv(r, n) && Step(r, n, l, t)
    ensures StaleSomewhere(r, t) ==> StaleSomewhere(r, n) || Orphans(n, l)
  {
    StepFlag(r, n, l, t);
  }

  /** Generic form: what is false at first and needs a cause to become true has a cause in the past. */
  lemma {:induction false} HasCause(
    bad: Node -> bool, cause: (Node, Label) -> bool, step: (Node, Label, Node) -> bool,
    ok: Node -> bool, nodes: seq<Node>, labels: seq<Label>, k: nat)
    requires |nodes| == |labels| + 1 && k < |nodes| && !bad(nodes[0])
    requires forall i {:trigger labels[i]} :: 0 <= i < |labels| ==> step(nodes[i], labels[i], nodes[i + 1])
    requires forall i :: 0 <= i < |nodes| ==> ok(nodes[i])
    requires forall n, l, t :: ok(n) && step(n, l, t) && bad(t) ==> bad(n) || cause(n, l)
    requires bad(nodes[k])
    ensures exists i :: 0 <= i < k && cause(nodes[i], labels[i])
  {
    var i := k - 1;
    assert ok(nodes[i]) && step(nodes[i], labels[i], nodes[k]);
    if !cause(nodes[i], labels[i]) {
      HasCause(bad, cause, step, ok, nodes, labels, i);
    }
  }

  lemma HistoryIsOk(r: Rules, nodes: seq<Node>, labels: seq<Label>)
    requires IsHistory(r, nodes, labels)
    ensures RulesOk(r) && !StaleSomewhere(r, nodes[0]) && forall i :: 0 <= i < |nodes| ==> NodeInv(r, nodes[i])
  {
    HistoryKeepsInv(r, nodes, labels, 0);
    assert nodes[0] in nodes[..1];
    JustOpenedIsGood(r, nodes[0]);
    forall i | 0 <= i < |nodes|
      ensures NodeInv(r, nodes[i])
    {
      HistoryKeepsInv(r, nodes, labels, i);
    }
  }

  /** Over any run: the flag lacks its quorum only after a step that changed the target of
      a flagged session without a proposal. Without such a step it implies the quorum at every moment. */
  lemma StaleHasCause(r: Rules, nodes: seq<Node>, labels: seq<Label>, k: nat)
    requires IsHistory(r, nodes, labels) && k < |nodes|
    requires StaleSomewhere(r, nodes[k])
    ensures OrphanedBefore(nodes, labels, k)
  {
    var ok, step := (n: Node) => NodeInv(r, n), (n: Node, l: Label, t: Node) => Step(r, n, l, t);
    HistoryIsOk(r, nodes, labels);
    var bad, cause := (n: Node) => StaleSomewhere(r, n), (n: Node, l: Label) => Orphans(n, l);
    forall n, l, t | ok(n) && step(n, l, t) && bad(t)
      ensures bad(n) || cause(n, l)
    {
      StepOrphans(r, n, l, t);
    }
    HasCause(bad, cause, step, ok, nodes, labels, k);
  }
}

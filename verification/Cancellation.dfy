/** Two faulty validators with opposite keys: their votes are accepted one by one, and the session that counted them
    cannot be restored. */
module Cancellation {
  import opened Types
  import opened Stake
  import Accumulator
  import opened SigningJournal
  import opened Pacemaker
  import opened Session
  import opened SessionInvariant
  import opened NodeSteps
  import opened Agreement
  import opened Context
  import opened Network
  import opened LockIn
  import opened NetworkRuns

  /** The aggregate of the signers is not the identity of the group in which validators 1 and 2 are opposite. */
  predicate SumDecodes(signers: set<nat>) {
    Accumulator.Decodes(Accumulator.OPPOSITE, Accumulator.SumTo(Accumulator.OPPOSITE, signers, 3))
  }

  const TRIO: Committee := Committee(
    [Validator(10, false), Validator(1, false), Validator(1, false)], Fraction(2, 3), Fraction(2, 3),
    (qc: QuorumCert) => true, (m: Report) => true, (p: Proposal) => true,
    (data: VoteData, i: nat) => true, (chunk: nat, round: nat, phase: Phase, i: nat) => true,
    (signers: set<nat>) => SumDecodes(signers))

  const SETTING: Setting := Setting(TRIO, 0, 0, (h: Hash) => None)

  const FAULTY: set<nat> := {1, 2}

  lemma TrioWeights()
    ensures Total(TRIO.validators) == 12 && Weight(TRIO.validators, FAULTY) == 2
  {
    var vs := TRIO.validators;
    assert TotalTo(vs, 1) == 10 && TotalTo(vs, 2) == 11 && TotalTo(vs, 3) == 12;
    assert WeightTo(vs, FAULTY, 1) == 0 && WeightTo(vs, FAULTY, 2) == 1 && WeightTo(vs, FAULTY, 3) == 2;
  }

  /** The committee meets the fault bound, and an aggregate with its honest validator never cancels. */
  lemma TrioIsOk()
    ensures ConfigOk(ConfigOf(SETTING, FAULTY)) && HonestDecode(TRIO, FAULTY)
  {
    TrioWeights();
    OneThirdSuffices(TRIO, FAULTY);
    forall signers: set<nat>, i: nat | i in signers && i !in FAULTY && AllActive(TRIO.validators, signers)
      ensures TRIO.decodes(signers)
    {
      Accumulator.OppositeSum(signers);
    }
  }

  lemma SettingIsOk()
    ensures SettingOk(SETTING, 0)
  {
    TrioIsOk();
    HonestQuorumsDecode(TRIO, FAULTY);
    Accumulator.OppositeSum({0});
  }

  lemma EachDecodesNotBoth()
    ensures SumDecodes({1}) && SumDecodes({2}) && !SumDecodes({1, 2})
  {
    Accumulator.OppositeSum({1});
    Accumulator.OppositeSum({2});
    Accumulator.OppositeSum({1, 2});
  }

  function WithVotes(s: BftSession, signers: set<nat>): BftSession {
    s.(ballot := s.ballot.(prevotes := signers))
  }

  function WithNils(s: BftSession, signers: set<nat>): BftSession {
    s.(ballot := s.ballot.(nilPrevotes := signers))
  }

  lemma CountsVote(n: Node, signers: set<nat>, i: nat)
    requires n.work.peer != PrecommitObserved && n.work.ballot.prevotes == signers && (i == 1 || i == 2)
    ensures UpdateStep(RulesOf(SETTING, 0), n, CountVotes(Prevote, {i}), n.(work := WithVotes(n.work, signers + {i})))
  {
    EachDecodesNotBoth();
    assert ClaimsVerify(TRIO, VoteTarget(RulesOf(SETTING, 0), n.work.ballot, Prevote), {i});
  }

  lemma CountsNil(n: Node, signers: set<nat>, i: nat)
    requires n.work.ballot.nilPrevotes == signers && (i == 1 || i == 2)
    ensures UpdateStep(RulesOf(SETTING, 0), n, CountNils(Prevote, {i}), n.(work := WithNils(n.work, signers + {i})))
  {
    EachDecodesNotBoth();
    assert NilClaimsVerify(TRIO, 0, n.work.ballot.round, Prevote, {i});
  }

  /** The session of validator 0 that counted the value and nil prevotes of both. */
  function Stuck(target: Hash): BftSession {
    WithNils(WithVotes(OpenedSession(RulesOf(SETTING, 0), target, None, 0, 1, 1), {1, 2}), {1, 2})
  }

  lemma StuckIsReached(target: Hash)
    ensures var n := Node(Stuck(target), Stuck(target), Stuck(target), EMPTY);
      RunVia(SETTING, FAULTY, Alone(n, []), Alone(n, []))
  {
    var r, s := RulesOf(SETTING, 0), OpenedSession(RulesOf(SETTING, 0), target, None, 0, 1, 1);
    SettingIsOk();
    OpensAlone(SETTING, FAULTY, target);
    var n0 := Node(s, s, s, EMPTY);
    var mid := Alone(n0, []);
    var n1 := n0.(work := WithVotes(s, {1}));
    CountsVote(n0, {}, 1);
    ActsAlone(SETTING, FAULTY, mid, n0, [], CountVotes(Prevote, {1}), n1);
    CountBoth(mid, target, n1);
    EndIsReached(SETTING, FAULTY, mid, Alone(Node(Stuck(target), Stuck(target), Stuck(target), EMPTY), []));
  }

  lemma CountBoth(mid: World, target: Hash, n1: Node)
    requires var s := OpenedSession(RulesOf(SETTING, 0), target, None, 0, 1, 1);
      n1 == Node(WithVotes(s, {1}), s, s, EMPTY)
    requires RunVia(SETTING, FAULTY, mid, Alone(n1, []))
    ensures var n := Node(Stuck(target), Stuck(target), Stuck(target), EMPTY);
      RunVia(SETTING, FAULTY, mid, Alone(n, []))
  {
    var s := n1.mem;
    var n2 := n1.(work := WithVotes(s, {1, 2}));
    assert {1} + {2} == {1, 2};
    CountsVote(n1, {1}, 2);
    ActsAlone(SETTING, FAULTY, mid, n1, [], CountVotes(Prevote, {2}), n2);
    var n3 := n1.(work := WithNils(n2.work, {1}));
    CountsNil(n2, {}, 1);
    ActsAlone(SETTING, FAULTY, mid, n2, [], CountNils(Prevote, {1}), n3);
    var n4 := n1.(work := Stuck(target));
    CountsNil(n3, {1}, 2);
    ActsAlone(SETTING, FAULTY, mid, n3, [], CountNils(Prevote, {2}), n4);
    ActsAlone(SETTING, FAULTY, mid, n4, [], SaveAndInsert, n4.(mem := n4.work, saved := n4.work));
  }

  lemma StuckIsRefused(target: Hash)
    ensures var r, n := RulesOf(SETTING, 0), Node(Stuck(target), Stuck(target), Stuck(target), EMPTY);
      && !AggregatesDecode(r, n.saved.ballot) && Restore(r, n.saved, n.journal) == Err(Corrupt)
      && !NilsReadded(r, n.work.ballot)
  {
    EachDecodesNotBoth();
  }

  /** A run within the fault bound after which validator 0 does not start again: its saved session counted exactly the
      two opposite signers. Nor can it change its target. */
  lemma CancelledSessionIsStuck(target: Hash)
    ensures var r, n := RulesOf(SETTING, 0), Node(Stuck(target), Stuck(target), Stuck(target), EMPTY);
      && ConfigOk(ConfigOf(SETTING, FAULTY)) && HonestDecode(TRIO, FAULTY)
      && RunVia(SETTING, FAULTY, Alone(n, []), Alone(n, []))
      && !AggregatesDecode(r, n.saved.ballot) && Restore(r, n.saved, n.journal) == Err(Corrupt)
      && forall hash, t :: !UpdateStep(r, n, Retarget(hash), t)
  {
    TrioIsOk();
    StuckIsReached(target);
    StuckIsRefused(target);
  }
}

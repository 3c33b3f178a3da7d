/** The protocol's assumptions are met and finality is reached in a smallest committee. */
module Witness {
  import opened Types
  import opened Stake
  import opened SigningJournal
  import opened Agreement

  const SOLO: Committee := Committee(
    [Validator(1, false)], Fraction(2, 3), Fraction(2, 3),
    (qc: QuorumCert) => true, (m: Report) => true, (p: Proposal) => true,
    (data: VoteData, i: nat) => true, (chunk: nat, round: nat, phase: Phase, i: nat) => true,
    (signers: set<nat>) => true)

  const CFG: Config := Config(SOLO, {}, 0)

  function Ballot(hash: Hash): VoteIntent {
    VoteIntent(VoteData(0, 0, hash, Prevote), 0, [], None)
  }

  function Lock(hash: Hash): QuorumCert {
    QuorumCert(0, 0, hash, {0})
  }

  function Commitment(hash: Hash): VoteIntent {
    VoteIntent(VoteData(0, 0, hash, Precommit), 0, [], Some(Lock(hash)))
  }

  lemma SoloQuorum()
    ensures ConfigOk(CFG) && HasQuorum(SOLO.validators, {0}, SOLO.prevote) && forall h :: Certifies(SOLO, Lock(h))
  {
    var vs := SOLO.validators;
    assert WeightTo(vs, {0}, 1) == 1 && TotalTo(vs, 1) == 1;
    WeightEmpty(vs, 1);
  }

  /** One validator prevotes and precommits any hash through its journal, and the two votes finalize it. */
  lemma FinalityIsReached(hash: Hash)
    ensures exists states: seq<State>, actions: seq<Action> ::
      && IsRun(CFG, states, actions) && |states| == 3
      && Finalizes(CFG, states[2].log, FinalityCert(0, hash, {0}, {0}))
  {
    SoloQuorum();
    var verifies := VerifierOf(SOLO);
    var prevote, precommit := Ballot(hash), Commitment(hash);
    var j1 := ChunkJournal(Some(Watermark(0, Some(prevote), None, None)), map[Slot(0, Prevote) := prevote], map[],
      map[], map[]);
    assert SignVote(verifies, EMPTY, prevote) == Ok(j1) by {
      assert EMPTY.intents[Slot(0, Prevote) := prevote] == j1.intents;
    }
    var w2 := Watermark(0, Some(prevote), Some(precommit), Some(Lock(hash)));
    var j2 := j1.(mark := Some(w2), intents := j1.intents[Slot(0, Precommit) := precommit]);
    assert SignVote(verifies, j1, precommit) == Ok(j2);
    var s0 := State(map[0 := Signer(EMPTY, false)], []);
    var s1 := State(map[0 := Signer(j1, false)], [Entry(0, ValueVote(prevote))]);
    var s2 := State(map[0 := Signer(j2, false)], [Entry(0, ValueVote(prevote)), Entry(0, ValueVote(precommit))]);
    assert IsVote(s1.log[0], 0, 0, hash, Prevote);
    assert IsVote(s2.log[0], 0, 0, hash, Prevote) && IsVote(s2.log[1], 0, 0, hash, Precommit);
    assert Next(CFG, s0, SignValue(0, prevote), s1);
    assert s2.log == s1.log + [Entry(0, ValueVote(precommit))] && s2.signers == s1.signers[0 := Signer(j2, false)];
    assert Next(CFG, s1, SignValue(0, precommit), s2);
    var states, actions := [s0, s1, s2], [SignValue(0, prevote), SignValue(0, precommit)];
    assert IsRun(CFG, states, actions);
  }
}

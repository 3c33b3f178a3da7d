/** Validator stake, quorum thresholds and weighted quorum intersection. */
module Stake {
  import opened Types

  datatype Validator = Validator(stake: nat, slashed: bool)

  datatype Fraction = Fraction(num: nat, den: nat)

  /** The active validator set of one chunk, the two configured quorum fractions and the verdicts of the
      signature checks on carried certificates, reports, proposals and one signer's vote or nil claim.

      The signatures of one message are that message's point times the signers' keys, so whether their sum is the
      undecodable identity depends only on who signed: `decodes` says that it is not. */
  datatype Committee = Committee(
    validators: seq<Validator>,
    prevote: Fraction,
    precommit: Fraction,
    quorumVerdict: QuorumCert -> bool,
    reportVerdict: Report -> bool,
    proposalVerdict: Proposal -> bool,
    claimVerdict: (VoteData, nat) -> bool,
    nilVerdict: (nat, nat, Phase, nat) -> bool,
    decodes: set<nat> -> bool)

  predicate Active(vs: seq<Validator>, i: nat) {
    i < |vs| && !vs[i].slashed && vs[i].stake > 0
  }

  predicate AllActive(vs: seq<Validator>, signers: set<nat>) {
    forall i :: i in signers ==> Active(vs, i)
  }

  predicate FractionValid(f: Fraction) {
    f.num != 0 && f.den != 0 && f.num <= f.den && f.num * 3 >= f.den * 2
  }

  /** Non-strict: exactly the configured share already is a quorum. */
  predicate QuorumReached(stake: nat, total: nat, f: Fraction) {
    stake * f.den >= total * f.num
  }

  /** Active stake of the validators of `signers` with an index below `n`. */
  function WeightTo(vs: seq<Validator>, signers: set<nat>, n: nat): nat
    requires n <= |vs|
  {
    if n == 0 then 0
    else WeightTo(vs, signers, n - 1) + (if n - 1 in signers && Active(vs, n - 1) then vs[n - 1].stake else 0)
  }

  function Weight(vs: seq<Validator>, signers: set<nat>): nat {
    WeightTo(vs, signers, |vs|)
  }

  function TotalTo(vs: seq<Validator>, n: nat): nat
    requires n <= |vs|
  {
    if n == 0 then 0 else TotalTo(vs, n - 1) + (if Active(vs, n - 1) then vs[n - 1].stake else 0)
  }

  /** `total_active_stake`: stake of every unslashed validator with positive stake. */
  function Total(vs: seq<Validator>): nat {
    TotalTo(vs, |vs|)
  }

  predicate HasQuorum(vs: seq<Validator>, signers: set<nat>, f: Fraction) {
    AllActive(vs, signers) && QuorumReached(Weight(vs, signers), Total(vs), f)
  }

  /** `verify_value_quorum_native` on a carried prevote certificate. */
  predicate Certifies(c: Committee, qc: QuorumCert) {
    FractionValid(c.prevote) && qc.signers != {} && HasQuorum(c.validators, qc.signers, c.prevote)
      && c.quorumVerdict(qc)
  }

  /** Every signer is active and its own claim for the vote verifies. */
  predicate ClaimsVerify(c: Committee, data: VoteData, signers: set<nat>) {
    forall i :: i in signers ==> Active(c.validators, i) && c.claimVerdict(data, i)
  }

  predicate NilClaimsVerify(c: Committee, chunk: nat, round: nat, phase: Phase, signers: set<nat>) {
    forall i :: i in signers ==> Active(c.validators, i) && c.nilVerdict(chunk, round, phase, i)
  }

  /** The vote a prevote certificate aggregates. */
  function CertifiedVote(qc: QuorumCert): VoteData {
    VoteData(qc.chunk, qc.round, qc.hash, Prevote)
  }

  // ----- weights -----

  lemma {:induction false} WeightSplit(vs: seq<Validator>, a: set<nat>, b: set<nat>, n: nat)
    requires n <= |vs|
    ensures WeightTo(vs, a, n) + WeightTo(vs, b, n) == WeightTo(vs, a + b, n) + WeightTo(vs, a * b, n)
  {
    if n > 0 {
      WeightSplit(vs, a, b, n - 1);
    }
  }

  lemma {:induction false} WeightMonotone(vs: seq<Validator>, a: set<nat>, b: set<nat>, n: nat)
    requires n <= |vs|
    requires forall i :: i in a && i < n ==> i in b
    ensures WeightTo(vs, a, n) <= WeightTo(vs, b, n)
  {
    if n > 0 {
      WeightMonotone(vs, a, b, n - 1);
    }
  }

  lemma {:induction false} WeightBelowTotal(vs: seq<Validator>, a: set<nat>, n: nat)
    requires n <= |vs|
    ensures WeightTo(vs, a, n) <= TotalTo(vs, n)
  {
    if n > 0 {
      WeightBelowTotal(vs, a, n - 1);
    }
  }

  lemma {:induction false} WeightAdd(vs: seq<Validator>, a: set<nat>, i: nat, n: nat)
    requires n <= |vs| && i !in a && Active(vs, i)
    ensures WeightTo(vs, a + {i}, n) == WeightTo(vs, a, n) + (if i < n then vs[i].stake else 0)
  {
    if n > 0 {
      WeightAdd(vs, a, i, n - 1);
    }
  }

  lemma {:induction false} WeightEmpty(vs: seq<Validator>, n: nat)
    requires n <= |vs|
    ensures WeightTo(vs, {}, n) == 0
  {
    if n > 0 {
      WeightEmpty(vs, n - 1);
    }
  }

  // ----- quorum intersection -----

  /** Faulty stake is strictly below the least overlap of an `f` quorum and a `g` quorum. */
  predicate OverlapExceeds(faulty: nat, total: nat, f: Fraction, g: Fraction) {
    faulty * (f.den * g.den) + total * (f.den * g.den) < total * (f.num * g.den) + total * (g.num * f.den)
  }

  /** The fault assumption: faulty stake is below the overlap of two prevote quorums and of a
      precommit and a prevote quorum. */
  predicate FaultBound(c: Committee, faulty: set<nat>) {
    var f, t := Weight(c.validators, faulty), Total(c.validators);
    && OverlapExceeds(f, t, c.prevote, c.prevote)
    && OverlapExceeds(f, t, c.precommit, c.prevote)
  }

  lemma ScaleBound(a: nat, x: nat, b: nat, y: nat, k: nat)
    requires a * x >= b * y
    ensures a * (x * k) >= b * (y * k)
  {
    var left, right := a * x, b * y;
    assert a * (x * k) == left * k;
    assert b * (y * k) == right * k;
    assert (left - right) * k >= 0;
  }

  lemma OverlapArithmetic(wa: nat, wb: nat, t: nat, w: nat, k: nat, p: nat, q: nat)
    requires k > 0 && wa * k >= p && wb * k >= q && w * k + t * k < p + q
    ensures wa + wb - t > w
  {
    assert (wa + wb - t - w) * k > 0;
  }

  /** Two quorums share a member outside `faulty`. */
  lemma QuorumsMeet(vs: seq<Validator>, a: set<nat>, f: Fraction, b: set<nat>, g: Fraction, faulty: set<nat>)
    returns (member: nat)
    requires QuorumReached(Weight(vs, a), Total(vs), f) && QuorumReached(Weight(vs, b), Total(vs), g)
    requires f.den > 0 && g.den > 0
    requires OverlapExceeds(Weight(vs, faulty), Total(vs), f, g)
    ensures member in a && member in b && member !in faulty
  {
    QuorumWeightsOverlap(Weight(vs, a), Weight(vs, b), Total(vs), Weight(vs, faulty), f, g);
    WeightSplit(vs, a, b, |vs|);
    WeightBelowTotal(vs, a + b, |vs|);
    if forall i :: i in a * b ==> i in faulty {
      WeightMonotone(vs, a * b, faulty, |vs|);
    }
    member :| member in a * b && member !in faulty;
  }

  lemma QuorumWeightsOverlap(wa: nat, wb: nat, t: nat, w: nat, f: Fraction, g: Fraction)
    requires QuorumReached(wa, t, f) && QuorumReached(wb, t, g) && f.den > 0 && g.den > 0
    requires OverlapExceeds(w, t, f, g)
    ensures wa + wb - t > w
  {
    ScaleBound(wa, f.den, t, f.num, g.den);
    ScaleBound(wb, g.den, t, g.num, f.den);
    assert g.den * f.den == f.den * g.den;
    OverlapArithmetic(wa, wb, t, w, f.den * g.den, t * (f.num * g.den), t * (g.num * f.den));
  }

  /** With any valid fractions, less than a third of faulty stake meets the fault assumption. */
  lemma OneThirdSuffices(c: Committee, faulty: set<nat>)
    requires FractionValid(c.prevote) && FractionValid(c.precommit)
    requires 3 * Weight(c.validators, faulty) < Total(c.validators)
    ensures FaultBound(c, faulty)
  {
    var w, t := Weight(c.validators, faulty), Total(c.validators);
    OneThirdOverlap(w, t, c.prevote, c.prevote);
    OneThirdOverlap(w, t, c.precommit, c.prevote);
  }

  lemma OneThirdOverlap(w: nat, t: nat, f: Fraction, g: Fraction)
    requires FractionValid(f) && FractionValid(g) && 3 * w < t
    ensures OverlapExceeds(w, t, f, g)
  {
    ThirdScaled(f.num, f.den, g.den);
    ThirdScaled(g.num, g.den, f.den);
    OneThirdArithmetic(w, t, f.den * g.den, f.num * g.den, g.num * f.den);
  }

  lemma ThirdScaled(num: nat, den: nat, k: nat)
    requires num * 3 >= den * 2 && den > 0 && k > 0
    ensures 3 * (num * k) >= 2 * (den * k) && den * k == k * den && den * k > 0
  {
    assert (num * 3 - den * 2) * k >= 0;
  }

  lemma OneThirdArithmetic(w: nat, t: nat, k: nat, p: nat, q: nat)
    requires k > 0 && 3 * w < t && 3 * p >= 2 * k && 3 * q >= 2 * k
    ensures w * k + t * k < t * p + t * q
  {
    assert t * (3 * p) >= t * (2 * k);
    assert t * (3 * q) >= t * (2 * k);
    assert (3 * w) * k < t * k;
  }
}

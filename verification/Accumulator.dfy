/** Union accumulation of verified votes: bitmap, per-signer claims, stake and an aggregate
    signature that is extended rather than recomputed. */
module Accumulator {
  import opened Types
  import opened Stake

  /** A point of the signature group. */
  type Sig = int

  /** The signature group and, for the accumulator's one vote message, each validator's unique signature. */
  datatype Scheme = Scheme(add: (Sig, Sig) -> Sig, zero: Sig, signatureOf: nat -> Sig)

  datatype Claim = Claim(index: nat, signature: Sig)

  datatype Vote = Vote(bits: seq<bool>, signature: Sig, claims: seq<Claim>)

  ghost predicate Lawful(k: Scheme) {
    && (forall a, b :: k.add(a, b) == k.add(b, a))
    && (forall a, b, c :: k.add(k.add(a, b), c) == k.add(a, k.add(b, c)))
    && (forall a :: k.add(k.zero, a) == a)
  }

  /** `Signature::from_bytes` rejects the identity. */
  predicate Decodes(k: Scheme, s: Sig) {
    s != k.zero
  }

  function Bits(bits: seq<bool>): set<nat> {
    set i | 0 <= i < |bits| && bits[i]
  }

  function Indices(claims: seq<Claim>): set<nat> {
    set j | 0 <= j < |claims| :: claims[j].index
  }

  predicate Distinct(claims: seq<Claim>) {
    forall a, b :: 0 <= a < b < |claims| ==> claims[a].index != claims[b].index
  }

  /** The aggregate of a signer set: the group sum in index order. */
  function SumTo(k: Scheme, signers: set<nat>, n: nat): Sig {
    if n == 0 then k.zero
    else if n - 1 in signers then k.add(SumTo(k, signers, n - 1), k.signatureOf(n - 1))
    else SumTo(k, signers, n - 1)
  }

  /** The aggregate of a list of claims, taken afresh in list order. */
  function SumClaims(k: Scheme, claims: seq<Claim>): Sig {
    if claims == [] then k.zero else k.add(SumClaims(k, claims[..|claims| - 1]), claims[|claims| - 1].signature)
  }

  /** Claims of a verified vote: distinct active signers with their unique, decodable signatures. */
  predicate ClaimsOk(vs: seq<Validator>, k: Scheme, claims: seq<Claim>) {
    && Distinct(claims)
    && forall j :: 0 <= j < |claims| ==>
         && Active(vs, claims[j].index)
         && claims[j].signature == k.signatureOf(claims[j].index)
         && Decodes(k, claims[j].signature)
  }

  /** What `add_vote` has checked: exact coverage, every claim's signature, and an aggregate equal to the unique sum. */
  predicate Verified(vs: seq<Validator>, k: Scheme, vote: Vote) {
    && |vote.bits| == |vs|
    && ClaimsOk(vs, k, vote.claims)
    && Indices(vote.claims) == Bits(vote.bits) != {}
    && vote.signature == SumClaims(k, vote.claims)
    && Decodes(k, vote.signature)
  }

  // ----- sums do not depend on order -----

  lemma {:induction false} SumAdd(k: Scheme, signers: set<nat>, i: nat, n: nat)
    requires Lawful(k) && i !in signers
    ensures SumTo(k, signers + {i}, n) == if i < n then k.add(SumTo(k, signers, n), k.signatureOf(i))
      else SumTo(k, signers, n)
  {
    if n > 0 {
      SumAdd(k, signers, i, n - 1);
      if i < n - 1 && n - 1 in signers {
        var s, a, b := SumTo(k, signers, n - 1), k.signatureOf(i), k.signatureOf(n - 1);
        assert k.add(k.add(s, a), b) == k.add(s, k.add(a, b)) == k.add(s, k.add(b, a)) == k.add(k.add(s, b), a);
      }
    }
  }

  lemma {:induction false} SumEmpty(k: Scheme, n: nat)
    ensures SumTo(k, {}, n) == k.zero
  {
    if n > 0 {
      SumEmpty(k, n - 1);
    }
  }

  lemma IndicesSnoc(claims: seq<Claim>, claim: Claim)
    ensures Indices(claims + [claim]) == Indices(claims) + {claim.index}
  {
    var all := claims + [claim];
    assert forall j :: 0 <= j < |claims| ==> all[j] == claims[j];
    assert all[|claims|] == claim;
  }

  /** Aggregating distinct claims afresh gives the sum of their signer set. */
  lemma {:induction false} SumOfClaims(vs: seq<Validator>, k: Scheme, claims: seq<Claim>)
    requires Lawful(k) && ClaimsOk(vs, k, claims)
    ensures SumClaims(k, claims) == SumTo(k, Indices(claims), |vs|)
  {
    if claims == [] {
      assert Indices(claims) == {};
      SumEmpty(k, |vs|);
    } else {
      var n := |claims| - 1;
      var rest, last := claims[..n], claims[n];
      assert claims == rest + [last];
      assert forall j :: 0 <= j < n ==> rest[j] == claims[j];
      SumOfClaims(vs, k, rest);
      IndicesSnoc(rest, last);
      SumAdd(k, Indices(rest), last.index, |vs|);
    }
  }

  lemma SumSnoc(k: Scheme, claims: seq<Claim>, claim: Claim)
    ensures SumClaims(k, claims + [claim]) == k.add(SumClaims(k, claims), claim.signature)
  {
    assert (claims + [claim])[..|claims|] == claims;
  }

  // ----- the loops -----

  /** `total_active_stake` with checked addition. */
  method TotalActiveStake(vs: seq<Validator>) returns (r: Result<nat>)
    ensures r.Ok? <==> 0 < Total(vs) <= MAX_U64
    ensures r.Ok? ==> r.value == Total(vs)
    ensures r == Err(ZeroStake) <==> Total(vs) == 0
    ensures r == Err(StakeOverflow) <==> Total(vs) > MAX_U64
  {
    var total := 0;
    for i := 0 to |vs|
      invariant total == TotalTo(vs, i) <= MAX_U64
    {
      TotalMonotone(vs, i + 1, |vs|);
      if !vs[i].slashed && vs[i].stake != 0 {
        if total + vs[i].stake > MAX_U64 {
          return Err(StakeOverflow);
        }
        total := total + vs[i].stake;
      }
    }
    if total == 0 {
      return Err(ZeroStake);
    }
    r := Ok(total);
  }

  lemma {:induction false} TotalMonotone(vs: seq<Validator>, m: nat, n: nat)
    requires m <= n <= |vs|
    ensures TotalTo(vs, m) <= TotalTo(vs, n)
  {
    if m < n {
      TotalMonotone(vs, m, n - 1);
    }
  }

  /** `bitmap_stake`: accepted exactly for bitmaps of the set's length with some signer and active signers only; a
      bitmap without signers is an empty vote, any other is invalid, and the sum cannot overflow. */
  method BitmapStake(vs: seq<Validator>, bits: seq<bool>) returns (r: Result<nat>)
    requires Total(vs) <= MAX_U64
    ensures r.Ok? <==> |bits| == |vs| && AllActive(vs, Bits(bits)) && Bits(bits) != {}
    ensures r.Ok? ==> 0 < r.value == Weight(vs, Bits(bits)) <= Total(vs)
    ensures r == Err(EmptyVote) <==> |bits| == |vs| && Bits(bits) == {}
    ensures r == Err(InvalidBits) <==> |bits| != |vs| || !AllActive(vs, Bits(bits))
    ensures r != Err(StakeOverflow)
  {
    if |bits| != |vs| {
      return Err(InvalidBits);
    }
    var stake, any := 0, false;
    for i := 0 to |vs|
      invariant stake == WeightTo(vs, Bits(bits), i)
      invariant forall j :: 0 <= j < i && bits[j] ==> Active(vs, j)
      invariant any <==> exists j :: 0 <= j < i && bits[j]
      invariant any <==> stake > 0
    {
      if bits[i] {
        assert i in Bits(bits);
        if vs[i].slashed || vs[i].stake == 0 {
          return Err(InvalidBits);
        }
        WeightBelowTotal(vs, Bits(bits), i + 1);
        TotalMonotone(vs, i + 1, |vs|);
        if stake + vs[i].stake > MAX_U64 {
          return Err(StakeOverflow);
        }
        stake := stake + vs[i].stake;
        any := true;
      }
    }
    if stake == 0 {
      return Err(EmptyVote);
    }
    WeightBelowTotal(vs, Bits(bits), |vs|);
    var w :| 0 <= w < |bits| && bits[w];
    assert w in Bits(bits);
    r := Ok(stake);
  }

  /** `union_bit_vecs` */
  method UnionBits(left: seq<bool>, right: seq<bool>) returns (out: seq<bool>)
    requires |left| == |right|
    ensures |out| == |left| && Bits(out) == Bits(left) + Bits(right)
  {
    out := [];
    for i := 0 to |left|
      invariant |out| == i
      invariant forall j :: 0 <= j < i ==> out[j] == (left[j] || right[j])
    {
      out := out + [left[i] || right[i]];
    }
  }

  /** No signer appears with two different signatures. */
  predicate Consistent(claims: seq<Claim>) {
    forall a, b :: 0 <= a < b < |claims| && claims[a].index == claims[b].index ==>
      claims[a].signature == claims[b].signature
  }

  /** `merge_signed_claims`: retained claims first, then each new signer once; refused exactly when some signer
      appears with two different signatures. */
  method MergeSignedClaims(retained: seq<Claim>, incoming: seq<Claim>) returns (r: Result<seq<Claim>>)
    requires Distinct(retained)
    ensures r.Ok? <==> Consistent(retained + incoming)
    ensures r.Ok? ==> retained <= r.value && Distinct(r.value) && Indices(r.value) == Indices(retained + incoming)
    ensures r.Ok? ==> forall c :: c in r.value ==> c in retained + incoming
  {
    var claims := retained;
    var signatures: map<nat, Sig> := Table(retained);
    ghost var all := retained + incoming;
    TableMerging(retained, all);
    for j := 0 to |incoming|
      invariant retained <= claims && Merging(all, |retained| + j, claims, signatures)
    {
      var claim := incoming[j];
      ghost var n := |retained| + j;
      assert claim == all[n];
      if claim.index in signatures {
        if signatures[claim.index] != claim.signature {
          ghost var i :| 0 <= i < n && all[i].index == claim.index;
          assert !Consistent(all);
          return Err(InvalidSignature);
        }
      } else {
        MergeNew(all, n, claims, signatures);
        signatures := signatures[claim.index := claim.signature];
        claims := claims + [claim];
      }
    }
    MergedAll(all, claims, signatures);
    r := Ok(claims);
  }

  /** After the first `n` claims: one claim per signer seen, and the table has every signature seen. */
  ghost predicate Merging(all: seq<Claim>, n: nat, claims: seq<Claim>, signatures: map<nat, Sig>) {
    && n <= |all| && Distinct(claims) && Indices(claims) == signatures.Keys
    && (forall c :: c in claims ==> c in all)
    && (forall i :: 0 <= i < n ==> all[i].index in signatures && signatures[all[i].index] == all[i].signature)
    && (forall x :: x in signatures ==> exists i :: 0 <= i < n && all[i].index == x)
  }

  function Table(claims: seq<Claim>): map<nat, Sig>
    requires Distinct(claims)
  {
    map j: nat | 0 <= j < |claims| :: claims[j].index := claims[j].signature
  }

  lemma TableMerging(retained: seq<Claim>, all: seq<Claim>)
    requires Distinct(retained) && retained <= all
    ensures Merging(all, |retained|, retained, Table(retained))
  {
    forall x | x in Table(retained)
      ensures exists i :: 0 <= i < |retained| && all[i].index == x
    {
      var i :| 0 <= i < |retained| && retained[i].index == x;
      assert all[i].index == x;
    }
  }

  lemma MergeNew(all: seq<Claim>, n: nat, claims: seq<Claim>, signatures: map<nat, Sig>)
    requires n < |all| && Merging(all, n, claims, signatures) && all[n].index !in signatures
    ensures Merging(all, n + 1, claims + [all[n]], signatures[all[n].index := all[n].signature])
  {
    DistinctSnoc(claims, all[n]);
  }

  lemma MergedAll(all: seq<Claim>, claims: seq<Claim>, signatures: map<nat, Sig>)
    requires Merging(all, |all|, claims, signatures)
    ensures Consistent(all) && Indices(claims) == Indices(all)
  {
    forall x | x in signatures
      ensures x in Indices(all)
    {
      var i :| 0 <= i < |all| && all[i].index == x;
    }
  }

  lemma DistinctSnoc(claims: seq<Claim>, claim: Claim)
    requires Distinct(claims) && claim.index !in Indices(claims)
    ensures Distinct(claims + [claim]) && Indices(claims + [claim]) == Indices(claims) + {claim.index}
  {
    IndicesSnoc(claims, claim);
    forall j | 0 <= j < |claims|
      ensures claims[j].index in Indices(claims)
    {
    }
  }

  lemma IndicesAppend(a: seq<Claim>, b: seq<Claim>)
    ensures Indices(a + b) == Indices(a) + Indices(b)
  {
    var all := a + b;
    forall i | i in Indices(a) + Indices(b)
      ensures i in Indices(all)
    {
      if i in Indices(a) {
        var j :| 0 <= j < |a| && a[j].index == i;
        assert all[j].index == i;
      } else {
        var j :| 0 <= j < |b| && b[j].index == i;
        assert all[|a| + j].index == i;
      }
    }
  }

  /** Merging the claims of verified votes never meets the refusal and stays verified. */
  lemma VerifiedClaimsMerge(vs: seq<Validator>, k: Scheme, retained: seq<Claim>, incoming: seq<Claim>,
      merged: seq<Claim>)
    requires ClaimsOk(vs, k, retained) && ClaimsOk(vs, k, incoming)
    requires Distinct(merged) && forall c :: c in merged ==> c in retained + incoming
    ensures Consistent(retained + incoming) && ClaimsOk(vs, k, merged)
  {
    forall j | 0 <= j < |merged|
      ensures Active(vs, merged[j].index) && merged[j].signature == k.signatureOf(merged[j].index)
        && Decodes(k, merged[j].signature)
    {
      assert merged[j] in retained + incoming;
    }
  }

  /** `extend_vote_aggregate`: add only the new claims to an aggregate of the retained ones, or aggregate everything
      when the retained aggregate is the undecodable identity. Both equal aggregating every claim afresh. */
  method ExtendAggregate(k: Scheme, existing: Sig, claims: seq<Claim>, retained: nat) returns (r: Result<Sig>)
    requires Lawful(k) && retained <= |claims| && claims != []
    requires existing == SumClaims(k, claims[..retained])
    requires forall j :: 0 <= j < |claims| ==> Decodes(k, claims[j].signature)
    ensures r == Ok(SumClaims(k, claims))
  {
    var start := retained;
    var sum := existing;
    if !Decodes(k, existing) {
      start := 0;
      sum := k.zero;
    }
    for j := start to |claims|
      invariant sum == SumClaims(k, claims[..j])
    {
      if !Decodes(k, claims[j].signature) {
        return Err(InvalidSignature);
      }
      assert claims[..j + 1] == claims[..j] + [claims[j]];
      SumSnoc(k, claims[..j], claims[j]);
      sum := k.add(sum, claims[j].signature);
    }
    assert claims[..|claims|] == claims;
    r := Ok(sum);
  }

  // ----- the accumulator -----

  function UnionOf(votes: seq<Vote>): set<nat> {
    if votes == [] then {} else UnionOf(votes[..|votes| - 1]) + Bits(votes[|votes| - 1].bits)
  }

  class VoteAccumulator {
    const validators: seq<Validator>
    const scheme: Scheme
    var present: bool
    var bits: seq<bool>
    var signature: Sig
    var stake: nat
    var claims: seq<Claim>

    /** The accumulated signers are `signers`: bitmap, claims, stake and aggregate all describe exactly them. */
    ghost predicate Holds(signers: set<nat>)
      reads this
    {
      if present then
        && |bits| == |validators| && Bits(bits) == signers != {} && AllActive(validators, signers)
        && ClaimsOk(validators, scheme, claims) && Indices(claims) == signers
        && 0 < stake == Weight(validators, signers) <= Total(validators)
        && signature == SumClaims(scheme, claims) == SumTo(scheme, signers, |validators|)
      else
        signers == {} && claims == [] && stake == 0
    }

    constructor (validators: seq<Validator>, scheme: Scheme)
      ensures this.validators == validators && this.scheme == scheme && Holds({})
    {
      this.validators := validators;
      this.scheme := scheme;
      present := false;
      bits := [];
      signature := scheme.zero;
      stake := 0;
      claims := [];
    }

    /** `VoteAccumulator::record` of a verified vote with its stake. */
    method Record(vote: Vote, voteStake: nat, ghost signers: set<nat>) returns (r: Result<nat>)
      requires Lawful(scheme) && Total(validators) <= MAX_U64 && Verified(validators, scheme, vote)
      requires voteStake == Weight(validators, Bits(vote.bits)) && Holds(signers)
      modifies this
      ensures r.Ok? && Holds(signers + Bits(vote.bits))
      ensures old(present) ==> old(claims) <= claims
    {
      VerifiedIsActive(validators, scheme, vote);
      SumOfClaims(validators, scheme, vote.claims);
      if !present {
        claims := vote.claims;
        bits := vote.bits;
        signature := vote.signature;
        stake := voteStake;
        present := true;
        assert signers + Bits(vote.bits) == Bits(vote.bits);
        return Ok(stake);
      }
      VerifiedClaimsMerge(validators, scheme, claims, vote.claims, claims);
      IndicesAppend(claims, vote.claims);
      var merged := MergeSignedClaims(claims, vote.claims);
      VerifiedClaimsMerge(validators, scheme, claims, vote.claims, merged.value);
      if |merged.value| == |claims| {
        assert merged.value == claims;
        assert signers + Bits(vote.bits) == signers;
        return Ok(stake);
      }
      assert merged.value[..|claims|] == claims;
      var extended := ExtendAggregate(scheme, signature, merged.value, |claims|);
      var union := UnionBits(bits, vote.bits);
      var combined := BitmapStake(validators, union);
      if extended.Err? || combined.Err? {
        return Err(InvalidSignature);
      }
      SumOfClaims(validators, scheme, merged.value);
      claims := merged.value;
      bits := union;
      signature := extended.value;
      stake := combined.value;
      r := Ok(stake);
    }

    /** `current_vote`: the accumulated aggregate as one vote, which is what is saved and later added again. Every claim
        in it is verified; it is accepted again if and only if it decodes. */
    method CurrentVote(ghost signers: set<nat>) returns (vote: Option<Vote>)
      requires Lawful(scheme) && Holds(signers)
      ensures vote.None? <==> signers == {}
      ensures vote.Some? ==> Bits(vote.value.bits) == signers
      ensures vote.Some? ==>
        (Verified(validators, scheme, vote.value) <==> Decodes(scheme, SumTo(scheme, signers, |validators|)))
    {
      return if present then Some(Vote(bits, signature, claims)) else None;
    }

    /** Whatever overlapping verified votes arrive, in any order, the accumulator holds exactly the union of their
        signers. */
    method RecordAll(votes: seq<Vote>)
      requires Lawful(scheme) && Total(validators) <= MAX_U64 && Holds({})
      requires forall i :: 0 <= i < |votes| ==> Verified(validators, scheme, votes[i])
      modifies this
      ensures Holds(UnionOf(votes))
    {
      for i := 0 to |votes|
        invariant Holds(UnionOf(votes[..i]))
      {
        var counted := BitmapStake(validators, votes[i].bits);
        VerifiedIsActive(validators, scheme, votes[i]);
        assert votes[..i + 1][..i] == votes[..i];
        var _ := Record(votes[i], counted.value, UnionOf(votes[..i]));
      }
      assert votes[..|votes|] == votes;
    }
  }

  lemma VerifiedIsActive(vs: seq<Validator>, k: Scheme, vote: Vote)
    requires Verified(vs, k, vote)
    ensures AllActive(vs, Bits(vote.bits)) && 0 < Weight(vs, Bits(vote.bits)) <= Total(vs)
  {
    forall i | i in Bits(vote.bits)
      ensures Active(vs, i)
    {
      var j :| 0 <= j < |vote.claims| && vote.claims[j].index == i;
    }
    var i :| i in Bits(vote.bits);
    WeightPositive(vs, Bits(vote.bits), i, |vs|);
    WeightBelowTotal(vs, Bits(vote.bits), |vs|);
  }

  lemma {:induction false} WeightPositive(vs: seq<Validator>, signers: set<nat>, i: nat, n: nat)
    requires n <= |vs| && i < n && i in signers && Active(vs, i)
    ensures WeightTo(vs, signers, n) > 0
  {
    if i < n - 1 {
      WeightPositive(vs, signers, i, n - 1);
    }
  }

  /** The aggregate that the incremental path keeps depends only on who signed. */
  lemma AggregateIndependentOfOrder(vs: seq<Validator>, k: Scheme, a: seq<Claim>, b: seq<Claim>)
    requires Lawful(k) && ClaimsOk(vs, k, a) && ClaimsOk(vs, k, b) && Indices(a) == Indices(b)
    ensures SumClaims(k, a) == SumClaims(k, b)
  {
    SumOfClaims(vs, k, a);
    SumOfClaims(vs, k, b);
  }

  // ----- signatures that cancel -----

  /** Validators 1 and 2 have opposite keys. */
  const OPPOSITE: Scheme := Scheme(
    (a: Sig, b: Sig) => a + b, 0, (i: nat) => if i == 1 then 1 else if i == 2 then -1 else i + 2)

  function Single(i: nat): Vote {
    Vote(seq(3, j => j == i), OPPOSITE.signatureOf(i), [Claim(i, OPPOSITE.signatureOf(i))])
  }

  lemma SingleVerifies(vs: seq<Validator>, i: nat)
    requires |vs| == 3 && i < 3 && Active(vs, i)
    ensures Verified(vs, OPPOSITE, Single(i)) && Bits(Single(i).bits) == {i}
  {
    var vote := Single(i);
    assert vote.claims[..0] == [];
    assert vote.claims[0].index == i && vote.bits[i];
    assert Indices(vote.claims) == {i};
  }

  lemma OppositeSum(signers: set<nat>)
    ensures SumTo(OPPOSITE, signers, 3) ==
      (if 0 in signers then 2 else 0) + (if 1 in signers then 1 else 0) - (if 2 in signers then 1 else 0)
  {
    assert SumTo(OPPOSITE, signers, 1) == if 0 in signers then 2 else 0;
    assert SumTo(OPPOSITE, signers, 2) == SumTo(OPPOSITE, signers, 1) + if 1 in signers then 1 else 0;
  }

  lemma OppositeIsLawful()
    ensures Lawful(OPPOSITE)
  {
  }

  /** A vote whose signers' signatures cancel is never accepted. */
  lemma CancelledIsRefused(vs: seq<Validator>, k: Scheme, vote: Vote)
    requires SumTo(k, Bits(vote.bits), |vs|) == k.zero
    ensures Lawful(k) ==> !Verified(vs, k, vote)
  {
    if Lawful(k) && ClaimsOk(vs, k, vote.claims) && Indices(vote.claims) == Bits(vote.bits) {
      SumOfClaims(vs, k, vote.claims);
    }
  }

  lemma OppositeIsRefused(vs: seq<Validator>, vote: Vote)
    requires |vs| == 3 && Bits(vote.bits) == {1, 2}
    ensures Lawful(OPPOSITE) ==> !Verified(vs, OPPOSITE, vote)
  {
    OppositeSum(Bits(vote.bits));
    CancelledIsRefused(vs, OPPOSITE, vote);
  }

  lemma UnionOfTwo(a: Vote, b: Vote)
    ensures UnionOf([a, b]) == Bits(a.bits) + Bits(b.bits)
  {
    assert [a, b][..1] == [a] && [a][..0] == [];
    assert UnionOf([a]) == UnionOf([]) + Bits(a.bits);
  }

  /** Two votes that are each accepted accumulate to an aggregate that no vote of the same signers can present again. */
  lemma OppositeVotesCancel(vs: seq<Validator>, again: Vote)
    requires |vs| == 3 && Active(vs, 1) && Active(vs, 2) && Bits(again.bits) == {1, 2}
    ensures Verified(vs, OPPOSITE, Single(1)) && Verified(vs, OPPOSITE, Single(2))
    ensures UnionOf([Single(1), Single(2)]) == {1, 2}
    ensures Lawful(OPPOSITE) && !Verified(vs, OPPOSITE, again)
  {
    SingleVerifies(vs, 1);
    SingleVerifies(vs, 2);
    UnionOfTwo(Single(1), Single(2));
    OppositeIsRefused(vs, again);
    OppositeIsLawful();
  }
}

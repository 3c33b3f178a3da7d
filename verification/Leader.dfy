/** Fair round leaders: a chain-bound offset rotates round-robin order over the eligible validators. */
module Leader {
  import opened Types
  import opened Stake

  /** Indices of the unslashed validators with positive stake, in order. */
  function EligibleTo(vs: seq<Validator>, n: nat): seq<nat>
    requires n <= |vs|
  {
    if n == 0 then []
    else if Active(vs, n - 1) then EligibleTo(vs, n - 1) + [n - 1]
    else EligibleTo(vs, n - 1)
  }

  function Eligible(vs: seq<Validator>): seq<nat> {
    EligibleTo(vs, |vs|)
  }

  /** `bft_leader_with_root`; `digest` is the 64-bit prefix of the hash of chain, chunk and set. */
  function LeaderOf(vs: seq<Validator>, digest: nat, round: nat): Option<nat> {
    var eligible := Eligible(vs);
    if |vs| > MAX_ROUND + 1 || |eligible| == 0 then None
    else Some(eligible[(digest % |eligible| + round) % |eligible|])
  }

  lemma {:induction false} EligibleExact(vs: seq<Validator>, n: nat)
    requires n <= |vs|
    ensures forall i: nat :: i in EligibleTo(vs, n) <==> i < n && Active(vs, i)
    ensures forall a, b :: 0 <= a < b < |EligibleTo(vs, n)| ==> EligibleTo(vs, n)[a] < EligibleTo(vs, n)[b]
    ensures |EligibleTo(vs, n)| <= n
  {
    if n > 0 {
      EligibleExact(vs, n - 1);
      var prior := EligibleTo(vs, n - 1);
      assert forall i: nat :: i in prior + [n - 1] <==> i in prior || i == n - 1;
      assert forall a :: 0 <= a < |prior| ==> prior[a] in prior;
    }
  }

  lemma SmallMultiple(d: int, n: nat)
    requires 0 - n < d * n < n
    ensures d == 0
  {
    if d > 0 {
      MulMonotone(1, d, n);
    } else if d < 0 {
      MulMonotone(d, -1, n);
    }
  }

  lemma DivisionUnique(x: nat, q: int, r: nat, n: nat)
    requires r < n && x == q * n + r
    ensures x / n == q && x % n == r
  {
    var d := q - x / n;
    assert x == (x / n) * n + x % n;
    assert d * n == q * n - (x / n) * n;
    SmallMultiple(d, n);
  }

  /** The turn, among `n` consecutive rounds from `base`, at which slot `t` is reached. */
  function Turn(n: nat, base: nat, t: nat): nat
    requires t < n
  {
    if t >= base % n then t - base % n else t + n - base % n
  }

  lemma TurnHits(n: nat, base: nat, t: nat)
    requires t < n
    ensures Turn(n, base, t) < n && (base + Turn(n, base, t)) % n == t
  {
    var q := base / n;
    assert base == q * n + base % n;
    assert (q + 1) * n == q * n + n;
    DivisionUnique(base + Turn(n, base, t), if t >= base % n then q else q + 1, t, n);
  }

  lemma TurnUnique(n: nat, base: nat, k: nat, l: nat)
    requires k < n && l < n && (base + k) % n == (base + l) % n
    ensures k == l
  {
    var p, q := (base + k) / n, (base + l) / n;
    assert base + k == p * n + (base + k) % n;
    assert base + l == q * n + (base + l) % n;
    assert (p - q) * n == p * n - q * n;
    SmallMultiple(p - q, n);
  }

  ghost predicate LeadsAt(vs: seq<Validator>, digest: nat, start: nat, k: nat, v: nat) {
    LeaderOf(vs, digest, start + k) == Some(v)
  }

  /** In any `n` consecutive rounds, `n` being the number of eligible validators, each of them leads exactly once
      and nobody else leads; the sum that picks the leader stays below 2^64. */
  lemma RotationIsFair(vs: seq<Validator>, digest: nat, start: nat, v: nat)
    requires |vs| <= MAX_ROUND + 1 && Eligible(vs) != []
    requires start + |Eligible(vs)| <= MAX_ROUND + 1
    ensures Active(vs, v) <==> exists k: nat :: k < |Eligible(vs)| && LeadsAt(vs, digest, start, k, v)
    ensures forall k: nat, l: nat :: k < |Eligible(vs)| && l < |Eligible(vs)| ==>
      LeadsAt(vs, digest, start, k, v) && LeadsAt(vs, digest, start, l, v) ==> k == l
    ensures digest % |Eligible(vs)| + MAX_ROUND <= MAX_U64
  {
    var e, n := Eligible(vs), |Eligible(vs)|;
    var base := digest % n + start;
    EligibleExact(vs, |vs|);
    if Active(vs, v) {
      var t :| 0 <= t < n && e[t] == v;
      TurnHits(n, base, t);
      assert LeadsAt(vs, digest, start, Turn(n, base, t), v);
    }
    forall k: nat, l: nat | k < n && l < n && LeadsAt(vs, digest, start, k, v) && LeadsAt(vs, digest, start, l, v)
      ensures k == l
    {
      SameSlot(vs, digest, start, k, l, v);
    }
  }

  lemma SameSlot(vs: seq<Validator>, digest: nat, start: nat, k: nat, l: nat, v: nat)
    requires k < |Eligible(vs)| && l < |Eligible(vs)|
    requires LeadsAt(vs, digest, start, k, v) && LeadsAt(vs, digest, start, l, v)
    ensures k == l
  {
    var e, n := Eligible(vs), |Eligible(vs)|;
    var base := digest % n + start;
    EligibleExact(vs, |vs|);
    var x, y := (base + k) % n, (base + l) % n;
    assert e[x] == v == e[y];
    assert x == y;
    TurnUnique(n, base, k, l);
  }
}

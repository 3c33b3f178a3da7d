/** Borsh wire encoding of the round-protocol messages, with the local transport bounds of their decoders. */
module Codec {
  import opened Types

  type byte = x: nat | x < 256

  const MAX_BFT_SIGNERS: nat := 65_536
  const MAX_BFT_PROOF_HASHES: nat := 65_536

  /** `ok` are the values in bounds. Decoding returns the value and the bytes left unread. */
  datatype Codec<!T> = Codec(ok: T -> bool, encode: T -> seq<byte>, decode: seq<byte> -> Option<(T, seq<byte>)>)

  /** Decoding undoes encoding whatever bytes follow, and accepts nothing but encodings of values in bounds. */
  ghost predicate Lawful<T(!new)>(c: Codec<T>) {
    && (forall x, rest :: c.ok(x) ==> c.decode(c.encode(x) + rest) == Some((x, rest)))
    && (forall b :: c.decode(b).Some? ==> Accepts(c, b, c.decode(b).value.0, c.decode(b).value.1))
  }

  predicate Accepts<T>(c: Codec<T>, b: seq<byte>, x: T, rest: seq<byte>) {
    c.ok(x) && b == c.encode(x) + rest
  }

  // ----- integers and fixed bytes -----

  function Pow256(n: nat): nat
    ensures Pow256(n) > 0
  {
    if n == 0 then 1 else 256 * Pow256(n - 1)
  }

  function LittleEndian(x: nat, n: nat): seq<byte> {
    if n == 0 then [] else [x % 256] + LittleEndian(x / 256, n - 1)
  }

  function FromLittleEndian(b: seq<byte>): nat {
    if b == [] then 0 else b[0] + 256 * FromLittleEndian(b[1..])
  }

  lemma JoinByte(low: nat, high: nat, bound: nat)
    requires low < 256 && high < bound
    ensures (low + 256 * high) % 256 == low && (low + 256 * high) / 256 == high && low + 256 * high < 256 * bound
  {
  }

  lemma SplitByte(x: nat, bound: nat)
    requires x < 256 * bound
    ensures x / 256 < bound && x % 256 + 256 * (x / 256) == x
  {
  }

  lemma {:induction false} LittleEndianInverse(x: nat, n: nat)
    requires x < Pow256(n)
    ensures |LittleEndian(x, n)| == n && FromLittleEndian(LittleEndian(x, n)) == x
  {
    if n > 0 {
      SplitByte(x, Pow256(n - 1));
      LittleEndianInverse(x / 256, n - 1);
      assert LittleEndian(x, n)[1..] == LittleEndian(x / 256, n - 1);
    }
  }

  lemma {:induction false} FromLittleEndianInverse(b: seq<byte>)
    ensures FromLittleEndian(b) < Pow256(|b|) && LittleEndian(FromLittleEndian(b), |b|) == b
  {
    if b != [] {
      var low, rest := b[0], b[1..];
      FromLittleEndianInverse(rest);
      JoinByte(low, FromLittleEndian(rest), Pow256(|rest|));
      assert [low] + rest == b;
    }
  }

  function Uint(n: nat): Codec<nat> {
    Codec(
      (x: nat) => x < Pow256(n),
      (x: nat) => LittleEndian(x, n),
      (b: seq<byte>) => if |b| < n then None else Some((FromLittleEndian(b[..n]), b[n..])))
  }

  lemma UintLawful(n: nat)
    ensures Lawful(Uint(n))
  {
    var c := Uint(n);
    forall x: nat, rest | c.ok(x)
      ensures c.decode(c.encode(x) + rest) == Some((x, rest))
    {
      LittleEndianInverse(x, n);
      assert (c.encode(x) + rest)[..n] == c.encode(x) && (c.encode(x) + rest)[n..] == rest;
    }
    forall b | c.decode(b).Some?
      ensures Accepts(c, b, c.decode(b).value.0, c.decode(b).value.1)
    {
      FromLittleEndianInverse(b[..n]);
      assert b == b[..n] + b[n..];
    }
  }

  function Fixed(n: nat): Codec<seq<byte>> {
    Codec(
      (x: seq<byte>) => |x| == n,
      (x: seq<byte>) => x,
      (b: seq<byte>) => if |b| < n then None else Some((b[..n], b[n..])))
  }

  lemma FixedLawful(n: nat)
    ensures Lawful(Fixed(n))
  {
    var c := Fixed(n);
    forall x, rest | c.ok(x)
      ensures c.decode(c.encode(x) + rest) == Some((x, rest))
    {
      assert (x + rest)[..n] == x && (x + rest)[n..] == rest;
    }
    forall b | c.decode(b).Some?
      ensures Accepts(c, b, c.decode(b).value.0, c.decode(b).value.1)
    {
      assert b == b[..n] + b[n..];
    }
  }

  // ----- structure -----

  /** Fields in order. */
  function Pair<A, B>(a: Codec<A>, b: Codec<B>): Codec<(A, B)> {
    Codec(
      (x: (A, B)) => a.ok(x.0) && b.ok(x.1),
      (x: (A, B)) => a.encode(x.0) + b.encode(x.1),
      (s: seq<byte>) =>
        match a.decode(s)
        case None => None
        case Some(first) =>
          match b.decode(first.1)
          case None => None
          case Some(second) => Some(((first.0, second.0), second.1)))
  }

  lemma PairLawful<A(!new), B(!new)>(a: Codec<A>, b: Codec<B>)
    requires Lawful(a) && Lawful(b)
    ensures Lawful(Pair(a, b))
  {
    var c := Pair(a, b);
    forall x, rest | c.ok(x)
      ensures c.decode(c.encode(x) + rest) == Some((x, rest))
    {
      assert c.encode(x) + rest == a.encode(x.0) + (b.encode(x.1) + rest);
    }
    forall s | c.decode(s).Some?
      ensures Accepts(c, s, c.decode(s).value.0, c.decode(s).value.1)
    {
      var first := a.decode(s).value;
      var second := b.decode(first.1).value;
      assert Accepts(a, s, first.0, first.1) && Accepts(b, first.1, second.0, second.1);
      assert a.encode(first.0) + (b.encode(second.0) + second.1) == a.encode(first.0) + b.encode(second.0) + second.1;
    }
  }

  /** The same bytes read as another type. */
  function Via<A, B>(a: Codec<A>, to: A -> B, from: B -> A): Codec<B> {
    Codec(
      (y: B) => a.ok(from(y)),
      (y: B) => a.encode(from(y)),
      (s: seq<byte>) => match a.decode(s) case None => None case Some(first) => Some((to(first.0), first.1)))
  }

  lemma ViaLawful<A(!new), B(!new)>(a: Codec<A>, to: A -> B, from: B -> A)
    requires Lawful(a) && (forall x :: from(to(x)) == x) && (forall y :: to(from(y)) == y)
    ensures Lawful(Via(a, to, from))
  {
    var c := Via(a, to, from);
    forall s | c.decode(s).Some?
      ensures Accepts(c, s, c.decode(s).value.0, c.decode(s).value.1)
    {
      assert Accepts(a, s, a.decode(s).value.0, a.decode(s).value.1);
    }
  }

  /** Tag 0 for nothing, tag 1 before a value. */
  function Optional<T>(c: Codec<T>): Codec<Option<T>> {
    Codec(
      (x: Option<T>) => x.Some? ==> c.ok(x.value),
      (x: Option<T>) => if x.None? then [0] else [1] + c.encode(x.value),
      (s: seq<byte>) =>
        if s == [] then None
        else if s[0] == 0 then Some((None, s[1..]))
        else if s[0] == 1 then (match c.decode(s[1..]) case None => None case Some(v) => Some((Some(v.0), v.1)))
        else None)
  }

  lemma OptionalLawful<T(!new)>(c: Codec<T>)
    requires Lawful(c)
    ensures Lawful(Optional(c))
  {
    var o := Optional(c);
    forall x, rest | o.ok(x)
      ensures o.decode(o.encode(x) + rest) == Some((x, rest))
    {
      var s := o.encode(x) + rest;
      if x.None? {
        assert s[1..] == rest;
      } else {
        assert s[1..] == c.encode(x.value) + rest;
      }
    }
    forall s | o.decode(s).Some?
      ensures Accepts(o, s, o.decode(s).value.0, o.decode(s).value.1)
    {
      if s[0] == 0 {
        assert s == [0] + s[1..];
      } else {
        var v := c.decode(s[1..]).value;
        assert Accepts(c, s[1..], v.0, v.1);
        assert s == [1] + c.encode(v.0) + v.1;
      }
    }
  }

  // ----- bounded vectors -----

  predicate AllOk<T>(c: Codec<T>, xs: seq<T>) {
    forall i :: 0 <= i < |xs| ==> c.ok(xs[i])
  }

  function EncodeAll<T>(c: Codec<T>, xs: seq<T>): seq<byte> {
    if xs == [] then [] else c.encode(xs[0]) + EncodeAll(c, xs[1..])
  }

  function DecodeAll<T>(c: Codec<T>, n: nat, b: seq<byte>): Option<(seq<T>, seq<byte>)> {
    if n == 0 then Some(([], b))
    else
      match c.decode(b)
      case None => None
      case Some(first) =>
        match DecodeAll(c, n - 1, first.1)
        case None => None
        case Some(others) => Some(([first.0] + others.0, others.1))
  }

  lemma {:induction false} DecodeAllInverse<T(!new)>(c: Codec<T>, xs: seq<T>, rest: seq<byte>)
    requires Lawful(c) && AllOk(c, xs)
    ensures DecodeAll(c, |xs|, EncodeAll(c, xs) + rest) == Some((xs, rest))
  {
    if xs == [] {
      assert EncodeAll(c, xs) + rest == rest;
    } else {
      DecodeAllInverse(c, xs[1..], rest);
      assert EncodeAll(c, xs) + rest == c.encode(xs[0]) + (EncodeAll(c, xs[1..]) + rest);
      assert [xs[0]] + xs[1..] == xs;
    }
  }

  lemma {:induction false} DecodeAllAccepts<T(!new)>(c: Codec<T>, n: nat, b: seq<byte>)
    requires Lawful(c) && DecodeAll(c, n, b).Some?
    ensures var out := DecodeAll(c, n, b).value;
      |out.0| == n && AllOk(c, out.0) && b == EncodeAll(c, out.0) + out.1
  {
    if n > 0 {
      var first := c.decode(b).value;
      assert Accepts(c, b, first.0, first.1);
      DecodeAllAccepts(c, n - 1, first.1);
      var others := DecodeAll(c, n - 1, first.1).value;
      var out := DecodeAll(c, n, b).value;
      assert out.0[1..] == others.0;
      assert c.encode(first.0) + (EncodeAll(c, others.0) + others.1) ==
        c.encode(first.0) + EncodeAll(c, others.0) + others.1;
    }
  }

  function DecodeVector<T>(count: Codec<nat>, c: Codec<T>, max: nat, b: seq<byte>): Option<(seq<T>, seq<byte>)> {
    match count.decode(b)
    case None => None
    case Some(n) => if n.0 > max then None else DecodeAll(c, n.0, n.1)
  }

  /** A 32-bit count that is refused above `max`, then the elements. */
  function Vector<T>(c: Codec<T>, max: nat): Codec<seq<T>> {
    Codec(
      (xs: seq<T>) => |xs| <= max && Uint(4).ok(|xs|) && AllOk(c, xs),
      (xs: seq<T>) => Uint(4).encode(|xs|) + EncodeAll(c, xs),
      (b: seq<byte>) => DecodeVector(Uint(4), c, max, b))
  }

  lemma VectorInverse<T(!new)>(count: Codec<nat>, c: Codec<T>, max: nat, xs: seq<T>, rest: seq<byte>)
    requires Lawful(count) && Lawful(c) && |xs| <= max && count.ok(|xs|) && AllOk(c, xs)
    ensures DecodeVector(count, c, max, count.encode(|xs|) + EncodeAll(c, xs) + rest) == Some((xs, rest))
  {
    assert count.encode(|xs|) + EncodeAll(c, xs) + rest == count.encode(|xs|) + (EncodeAll(c, xs) + rest);
    DecodeAllInverse(c, xs, rest);
  }

  lemma VectorAccepts<T(!new)>(count: Codec<nat>, c: Codec<T>, max: nat, b: seq<byte>)
    requires Lawful(count) && Lawful(c) && DecodeVector(count, c, max, b).Some?
    ensures var out := DecodeVector(count, c, max, b).value;
      && |out.0| <= max && count.ok(|out.0|) && AllOk(c, out.0)
      && b == count.encode(|out.0|) + EncodeAll(c, out.0) + out.1
  {
    var n := count.decode(b).value;
    assert Accepts(count, b, n.0, n.1);
    DecodeAllAccepts(c, n.0, n.1);
    var out := DecodeAll(c, n.0, n.1).value;
    assert count.encode(n.0) + (EncodeAll(c, out.0) + out.1) == count.encode(n.0) + EncodeAll(c, out.0) + out.1;
  }

  lemma VectorLawful<T(!new)>(c: Codec<T>, max: nat)
    requires Lawful(c)
    ensures Lawful(Vector(c, max))
  {
    var v := Vector(c, max);
    UintLawful(4);
    forall xs, rest | v.ok(xs)
      ensures v.decode(v.encode(xs) + rest) == Some((xs, rest))
    {
      VectorInverse(Uint(4), c, max, xs, rest);
    }
    forall b | v.decode(b).Some?
      ensures Accepts(v, b, v.decode(b).value.0, v.decode(b).value.1)
    {
      VectorAccepts(Uint(4), c, max, b);
    }
  }
}

/** The bounded cache of available branches and the retained valid value. */
module Candidates {
  import opened Types
  import opened SigningJournal
  import opened Session

  // ----- what eviction keeps -----

  lemma ProtectedAtMostFive(r: Rules, s: BftSession)
    ensures |Protected(r, s)| <= 5
  {
    var target := {s.ballot.target};
    UnionBound(target, HashOf(s.valid));
    UnionBound(target + HashOf(s.valid), HashOf(s.lock));
    UnionBound(target + HashOf(s.valid) + HashOf(s.lock), HashOf(HighestOf(r, s.ballot.certificate)));
    UnionBound(target + HashOf(s.valid) + HashOf(s.lock) + HashOf(HighestOf(r, s.ballot.certificate)),
      HashOf(ReportedBy(s.report)));
  }

  lemma UnionBound(a: set<Hash>, b: set<Hash>)
    ensures |a + b| <= |a| + |b|
  {
    assert a + b == a + (b - a) && a !! (b - a);
    assert |a + b| == |a| + |b - a|;
    SubsetCardinality(b - a, b);
  }

  /** With fewer protected hashes than places, eviction reaches the bound and never drops a protected hash;
      what it drops is smaller than every unprotected hash it keeps. */
  lemma {:induction false} TrimExact(candidates: set<Hash>, protected: set<Hash>)
    requires |protected| <= MAX_CANDIDATES
    ensures var kept := Trim(candidates, protected);
      && |kept| <= MAX_CANDIDATES && kept <= candidates && candidates * protected <= kept
      && (|candidates| <= MAX_CANDIDATES ==> kept == candidates)
      && (|candidates| > MAX_CANDIDATES ==> |kept| == MAX_CANDIDATES)
      && forall h: Hash, k: Hash :: h in candidates - kept && k in kept - protected ==> h < k
    decreases |candidates|
  {
    var free := candidates - protected;
    if |candidates| > MAX_CANDIDATES {
      if free == {} {
        assert forall h: Hash :: h in candidates ==> h in free || h in protected;
        SubsetCardinality(candidates, protected);
      } else {
        var least := MinOf(free);
        TrimExact(candidates - {least}, protected);
        var kept := Trim(candidates, protected);
        forall h: Hash, k: Hash | h in candidates - kept && k in kept - protected
          ensures h < k
        {
          assert k in free;
          assert h == least || h in candidates - {least} - kept;
        }
      }
    }
  }

  /** `remember_bft_valid_value`: the retained valid value only rises in rank, and is always a known candidate. */
  lemma RememberValidKeeps(r: Rules, s: BftSession, qc: QuorumCert)
    requires |s.candidates| <= MAX_CANDIDATES
    requires s.valid.Some? ==> s.valid.value.hash in s.candidates
    ensures var next := RememberValid(r, s, qc);
      && next.valid.Some? && !RankBelow(next.valid.value, qc)
      && (next.valid == Some(qc) || next.valid == s.valid)
      && (s.valid.Some? ==> !RankBelow(next.valid.value, s.valid.value))
      && |next.candidates| <= MAX_CANDIDATES && next.valid.value.hash in next.candidates
      && (forall h: Hash :: h in s.candidates && h in Protected(r, next) ==> h in next.candidates)
      && next == s.(valid := next.valid, candidates := next.candidates)
  {
    if s.valid.None? || RankBelow(s.valid.value, qc) {
      var pinned := s.(valid := Some(qc));
      ProtectedAtMostFive(r, pinned);
      TrimExact(s.candidates + {qc.hash}, Protected(r, pinned));
    }
  }

  lemma RememberCandidateKeeps(r: Rules, s: BftSession, hash: Hash)
    requires s.valid.Some? ==> s.valid.value.hash in s.candidates
    ensures var next := RememberCandidate(r, s, hash);
      && |next.candidates| <= MAX_CANDIDATES
      && (s.valid.Some? ==> s.valid.value.hash in next.candidates)
      && (forall h: Hash :: h in s.candidates && h in Protected(r, next) ==> h in next.candidates)
      && (hash in Protected(r, s) ==> hash in next.candidates)
      && next == s.(candidates := next.candidates)
  {
    ProtectedAtMostFive(r, s);
    TrimExact(s.candidates + {hash}, Protected(r, s));
  }

  // ----- the loop -----

  /** The first key in order that nothing protects. */
  method FirstUnprotected(candidates: set<Hash>, protected: set<Hash>) returns (evict: Option<Hash>)
    ensures evict.None? ==> candidates <= protected
    ensures evict.Some? ==> candidates - protected != {} && evict.value == MinOf(candidates - protected)
  {
    var free := candidates - protected;
    if free == {} {
      assert forall h: Hash :: h in candidates ==> h in free || h in protected;
      return None;
    }
    var least: Hash :| least in free;
    var rest := free - {least};
    while rest != {}
      invariant rest <= free && least in free
      invariant forall h: Hash :: h in free ==> h in rest || least <= h
      decreases |rest|
    {
      var h: Hash :| h in rest;
      if h < least {
        least := h;
      }
      rest := rest - {h};
    }
    return Some(least);
  }

  /** `remember_bft_candidate`: insert, then evict while above the bound; the loop never gives up above it. */
  method RememberBftCandidate(r: Rules, s: BftSession, hash: Hash) returns (next: BftSession)
    ensures next == RememberCandidate(r, s, hash)
    ensures |next.candidates| <= MAX_CANDIDATES
  {
    var candidates := s.candidates + {hash};
    ghost var all := candidates;
    var protected := Protected(r, s);
    ProtectedAtMostFive(r, s);
    while |candidates| > MAX_CANDIDATES
      invariant Trim(candidates, protected) == Trim(all, protected)
      decreases |candidates|
    {
      var evict := FirstUnprotected(candidates, protected);
      if evict.None? {
        SubsetCardinality(candidates, protected);
        assert false;
      }
      candidates := candidates - {evict.value};
    }
    TrimExact(candidates, protected);
    return s.(candidates := candidates);
  }
}

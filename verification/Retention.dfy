/** The retention watermark: how far proven, finalized history may be deleted. */
module Retention {
  import opened Types

  const HISTORY_RETENTION_CHUNKS: nat := 8

  datatype Policy = Archive | Pruned | Reporter

  /** The counters kept on disk; `size` is the number of blocks of a chunk. */
  datatype Store = Store(
    size: nat, policy: Policy, finalized: nat, covered: nat, bootstrapFloor: nat, pruned: nat, firstHeight: nat)

  /** `authentic` is the verdict of the checks that do not concern the counters: for published history the chain, the
      trusted domain and both canonical boundaries; for a bootstrap also its receipts, head height, locks, leases. */
  datatype Op =
    | FinalizeChunk
    | PublishHistory(start: nat, end: nat, authentic: bool)
    | InstallBootstrap(count: nat, authentic: bool)
    | Prune
    | Select(policy: Policy)

  function SaturatingSub(a: nat, b: nat): nat {
    if a < b then 0 else a - b
  }

  function Min(a: nat, b: nat): nat {
    if a < b then a else b
  }

  function Max(a: nat, b: nat): nat {
    if a < b then b else a
  }

  function Initial(size: nat): Store {
    Store(size, Pruned, 0, 0, 0, 0, 1)
  }

  /** `validate_history_coverage`: the bounds checked on every start. */
  predicate CoverageValid(s: Store) {
    && s.pruned <= s.covered
    && s.pruned <= Max(SaturatingSub(s.finalized, HISTORY_RETENTION_CHUNKS), s.bootstrapFloor)
    && s.bootstrapFloor <= s.pruned && s.bootstrapFloor <= s.covered && s.bootstrapFloor <= s.finalized
    && s.covered <= s.finalized
  }

  /** The watermark `prune_history_covered` computes. */
  function Floor(s: Store): nat {
    Max(Min(s.covered, SaturatingSub(s.finalized, HISTORY_RETENTION_CHUNKS)), s.bootstrapFloor)
  }

  /** Each operation, with the errors of 64-bit arithmetic and of the checks; `Regression` is the "regressed" error. */
  function Apply(s: Store, op: Op): Result<Store> {
    match op
    case FinalizeChunk =>
      if (s.finalized + 1) * s.size > MAX_U64 || s.finalized + 1 > MAX_U64 then Err(Corrupt)
      else Ok(s.(finalized := s.finalized + 1))
    case PublishHistory(start, end, authentic) =>
      if !authentic || end <= start || end > s.finalized then Err(WrongTarget)
      else Ok(if start == 0 && end > s.covered then s.(covered := end) else s)
    case InstallBootstrap(count, authentic) =>
      if s.policy == Archive || count == 0 || count < s.finalized || !authentic then Err(WrongTarget)
      else if count > MAX_U64 || count * s.size + 1 > MAX_U64 then Err(Corrupt)
      else Ok(Store(s.size, s.policy, count, count, count, count, count * s.size + 1))
    case Prune =>
      if s.policy == Archive || s.covered == 0 then Ok(s)
      else if Floor(s) < s.pruned then Err(Regression)
      else if Floor(s) * s.size + 1 > MAX_U64 then Err(Corrupt)
      else Ok(s.(pruned := Floor(s), firstHeight := Floor(s) * s.size + 1))
    case Select(policy) =>
      if policy == Archive && s.policy != Archive && s.pruned != 0 then Err(Corrupt) else Ok(s.(policy := policy))
  }

  /** Heights of finalized chunks fit in 64 bits, and the first retained block is the one after the watermark. */
  predicate HeightsFit(s: Store) {
    && s.size > 0 && s.finalized * s.size <= MAX_U64
    && s.bootstrapFloor * s.size + 1 <= MAX_U64
    && s.firstHeight == s.pruned * s.size + 1
  }

  predicate Inv(s: Store) {
    CoverageValid(s) && HeightsFit(s)
  }

  // ----- one operation -----

  /** The computed watermark is never below the recorded one. */
  lemma FloorNeverRegresses(s: Store)
    requires CoverageValid(s)
    ensures s.pruned <= Floor(s) <= s.covered
    ensures Floor(s) <= Max(SaturatingSub(s.finalized, HISTORY_RETENTION_CHUNKS), s.bootstrapFloor)
    ensures s.bootstrapFloor <= Floor(s)
  {
  }

  lemma FloorHeightFits(s: Store)
    requires Inv(s)
    ensures Floor(s) * s.size + 1 <= MAX_U64
  {
    if Floor(s) != s.bootstrapFloor {
      MulMonotone(Floor(s) + 1, s.finalized, s.size);
      assert (Floor(s) + 1) * s.size == Floor(s) * s.size + s.size;
    }
  }

  /** Every operation keeps the bounds and moves no counter back; pruning in particular never fails. */
  lemma ApplyKeepsInv(s: Store, op: Op)
    requires Inv(s)
    ensures op.Prune? ==> Apply(s, op).Ok?
    ensures Apply(s, op).Ok? ==>
      var t := Apply(s, op).value;
      && Inv(t) && s.pruned <= t.pruned && s.firstHeight <= t.firstHeight
      && s.finalized <= t.finalized && s.covered <= t.covered && s.bootstrapFloor <= t.bootstrapFloor
         && s.size == t.size
  {
    FloorNeverRegresses(s);
    FloorHeightFits(s);
    if Apply(s, op).Ok? {
      MulMonotone(s.pruned, Apply(s, op).value.pruned, s.size);
    }
  }

  // ----- whole runs -----

  /** A failed operation writes nothing. */
  function After(s: Store, op: Op): Store {
    var outcome := Apply(s, op);
    if outcome.Ok? then outcome.value else s
  }

  function RunOps(s: Store, ops: seq<Op>): Store
    decreases |ops|
  {
    if ops == [] then s else RunOps(After(s, ops[0]), ops[1..])
  }

  lemma {:induction false} RunKeepsInv(s: Store, ops: seq<Op>)
    requires Inv(s)
    ensures var t := RunOps(s, ops);
      Inv(t) && s.pruned <= t.pruned && s.firstHeight <= t.firstHeight && s.finalized <= t.finalized
        && s.covered <= t.covered
    decreases |ops|
  {
    if ops != [] {
      ApplyKeepsInv(s, ops[0]);
      RunKeepsInv(After(s, ops[0]), ops[1..]);
    }
  }

  lemma {:induction false} RunAppends(s: Store, a: seq<Op>, b: seq<Op>)
    ensures RunOps(s, a + b) == RunOps(RunOps(s, a), b)
    decreases |a|
  {
    if a == [] {
      assert a + b == b;
    } else {
      assert (a + b)[0] == a[0] && (a + b)[1..] == a[1..] + b;
      RunAppends(After(s, a[0]), a[1..], b);
    }
  }

  /** Retention is monotone and restart-safe: after any operations from a fresh chain the bounds pass validation, the
      watermark does not fall under any further operations, and pruning at that point reports no regression. */
  lemma RetentionIsMonotone(size: nat, a: seq<Op>, b: seq<Op>)
    requires 0 < size <= MAX_U64
    ensures CoverageValid(RunOps(Initial(size), a))
    ensures RunOps(Initial(size), a).pruned <= RunOps(Initial(size), a + b).pruned
    ensures Apply(RunOps(Initial(size), a), Prune).Ok?
  {
    RunKeepsInv(Initial(size), a);
    RunAppends(Initial(size), a, b);
    RunKeepsInv(RunOps(Initial(size), a), b);
    ApplyKeepsInv(RunOps(Initial(size), a), Prune);
  }

  // ----- the engine -----

  class RetentionEngine {
    const size: nat
    var policy: Policy
    var finalized: nat
    var covered: nat
    var bootstrapFloor: nat
    var pruned: nat
    var firstHeight: nat

    ghost function State(): Store
      reads this
    {
      Store(size, policy, finalized, covered, bootstrapFloor, pruned, firstHeight)
    }

    ghost predicate Valid()
      reads this
    {
      Inv(State())
    }

    constructor (chunkSize: nat)
      requires 0 < chunkSize <= MAX_U64
      ensures Valid() && State() == Initial(chunkSize)
    {
      size, policy := chunkSize, Pruned;
      finalized, covered, bootstrapFloor, pruned, firstHeight := 0, 0, 0, 0, 1;
    }

    /** `prune_history_covered`: the "regressed" exit is never taken. */
    method PruneHistoryCovered() returns (outcome: Result<nat>)
      requires Valid()
      modifies this
      ensures Valid() && Ok(State()) == Apply(old(State()), Prune)
      ensures outcome == Ok(pruned) && old(pruned) <= pruned <= covered
      ensures policy != Archive && covered > 0 ==> pruned == Floor(old(State()))
    {
      ApplyKeepsInv(State(), Prune);
      if policy == Archive || covered == 0 {
        return Ok(pruned);
      }
      var floor := Max(Min(covered, SaturatingSub(finalized, HISTORY_RETENTION_CHUNKS)), bootstrapFloor);
      if floor < pruned {
        return Err(Regression);
      }
      if floor * size + 1 > MAX_U64 {
        return Err(Corrupt);
      }
      pruned := floor;
      firstHeight := floor * size + 1;
      return Ok(pruned);
    }

    /** `commit_verified_history`: only a longer prefix from genesis extends the coverage. */
    method CommitVerifiedHistory(start: nat, end: nat, authentic: bool) returns (outcome: Result<nat>)
      requires Valid()
      modifies this
      ensures Valid() && State() == After(old(State()), PublishHistory(start, end, authentic))
      ensures outcome.Ok? <==> Apply(old(State()), PublishHistory(start, end, authentic)).Ok?
      ensures old(covered) <= covered <= finalized
    {
      ApplyKeepsInv(State(), PublishHistory(start, end, authentic));
      if !authentic || end <= start || end > finalized {
        return Err(WrongTarget);
      }
      if start == 0 && end > covered {
        covered := end;
      }
      return Ok(covered);
    }

    /** `install_bootstrap`: every counter moves to the installed boundary together. */
    method InstallAt(count: nat, authentic: bool) returns (outcome: Result<nat>)
      requires Valid()
      modifies this
      ensures Valid() && State() == After(old(State()), InstallBootstrap(count, authentic))
      ensures outcome.Ok? <==> Apply(old(State()), InstallBootstrap(count, authentic)).Ok?
      ensures old(pruned) <= pruned
    {
      ApplyKeepsInv(State(), InstallBootstrap(count, authentic));
      if policy == Archive || count == 0 || count < finalized || !authentic {
        return Err(WrongTarget);
      }
      if count > MAX_U64 || count * size + 1 > MAX_U64 {
        return Err(Corrupt);
      }
      finalized, covered, bootstrapFloor, pruned := count, count, count, count;
      firstHeight := count * size + 1;
      return Ok(count);
    }
  }
}

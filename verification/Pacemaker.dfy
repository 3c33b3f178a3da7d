/** Phase deadlines and the bounded collection of signed round reports. */
module Pacemaker {
  import opened Types
  import opened Stake
  import opened Certificates

  datatype RoundStep = Propose | Prevoting | Precommitting | AwaitRound

  datatype TimeoutAction = PrevoteNil | PrecommitNil | RoundChange(round: nat)

  /** The durable pacemaker; `reports` maps a future round to one report per signer. */
  datatype Clock = Clock(
    chunk: nat,
    round: nat,
    step: RoundStep,
    deadline: nat,
    base: nat,
    backoff: nat,
    reports: map<nat, map<nat, Report>>)

  function AtLeastOne(n: nat): nat {
    if n == 0 then 1 else n
  }

  function SaturatingAdd(a: nat, b: nat): nat {
    if a + b > MAX_U64 then MAX_U64 else a + b
  }

  function SaturatingMul(a: nat, b: nat): nat {
    if a * b > MAX_U64 then MAX_U64 else a * b
  }

  // ----- phases -----

  function ResetDeadline(p: Clock, now: nat): Clock {
    p.(deadline := SaturatingAdd(now, SaturatingAdd(p.base, SaturatingMul(p.round, p.backoff))))
  }

  function NewClock(chunk: nat, round: nat, now: nat, base: nat, backoff: nat): Clock {
    ResetDeadline(Clock(chunk, round, Propose, now, AtLeastOne(base), AtLeastOne(backoff), map[]), now)
  }

  function EnterPrevote(p: Clock, now: nat): Clock {
    if p.step == Propose then ResetDeadline(p.(step := Prevoting), now) else p
  }

  function EnterPrecommit(p: Clock, now: nat): Clock {
    if p.step == Propose || p.step == Prevoting then ResetDeadline(p.(step := Precommitting), now) else p
  }

  function EnterAwaitRound(p: Clock, now: nat): Clock {
    if p.step != AwaitRound then ResetDeadline(p.(step := AwaitRound), now) else p
  }

  /** `on_timeout`: the phase action, once the deadline has passed; none when the round space is exhausted. */
  function TimeoutDue(p: Clock, now: nat): Option<TimeoutAction> {
    if now < p.deadline then None
    else match p.step
      case Propose => Some(PrevoteNil)
      case Prevoting => Some(PrecommitNil)
      case _ => if p.round < MAX_ROUND then Some(RoundChange(p.round + 1)) else None
  }

  function AfterTimeout(p: Clock, now: nat): Clock {
    match TimeoutDue(p, now)
    case None => p
    case Some(action) =>
      var step := match action
        case PrevoteNil => Prevoting
        case PrecommitNil => Precommitting
        case RoundChange(_) => AwaitRound;
      ResetDeadline(p.(step := step), now)
  }

  function AdvanceRound(p: Clock, round: nat, now: nat): Clock
    requires round > p.round
  {
    ResetDeadline(p.(round := round, step := Propose, reports := map r | r in p.reports && r > round :: p.reports[r]),
      now)
  }

  // ----- report collection -----

  lemma MaxExists(s: set<nat>)
    requires s != {}
    ensures exists m :: m in s && forall x :: x in s ==> x <= m
  {
    var x :| x in s;
    var rest := s - {x};
    if rest == {} {
      assert s == {x};
    } else {
      MaxExists(rest);
      var m :| m in rest && forall y :: y in rest ==> y <= m;
      assert forall y :: y in s ==> y in rest || y == x;
      if x > m {
        assert x in s && forall y :: y in s ==> y <= x;
      } else {
        assert m in s && forall y :: y in s ==> y <= m;
      }
    }
  }

  function MaxOf(s: set<nat>): nat
    requires s != {}
    ensures MaxOf(s) in s && forall x :: x in s ==> x <= MaxOf(s)
  {
    MaxExists(s);
    var m :| m in s && forall x :: x in s ==> x <= m;
    m
  }

  /** Only the two nearest future rounds are kept. */
  function Evict(reports: map<nat, map<nat, Report>>): map<nat, map<nat, Report>>
    decreases |reports|
  {
    if |reports| <= 2 then reports else Evict(reports - {MaxOf(reports.Keys)})
  }

  /** Reports of the signers below `n`, in index order. */
  function InOrder(reports: map<nat, Report>, n: nat): seq<Report> {
    if n == 0 then [] else InOrder(reports, n - 1) + (if n - 1 in reports then [reports[n - 1]] else [])
  }

  function RoundReports(p: Clock, round: nat): map<nat, Report> {
    if round in p.reports then p.reports[round] else map[]
  }

  function Inserted(p: Clock, report: Report): map<nat, map<nat, Report>> {
    p.reports[report.round := RoundReports(p, report.round)[report.index := report]]
  }

  /** The certificate formed by the retained reports of `round`, if they carry a quorum. */
  function FormedCertificate(c: Committee, p: Clock, round: nat): Option<Certificate> {
    if round !in p.reports then None
    else if !QuorumReached(Weight(c.validators, p.reports[round].Keys), Total(c.validators), c.prevote) then None
    else Some(Certificate(p.chunk, round, InOrder(p.reports[round], |c.validators|)))
  }

  predicate Acceptable(c: Committee, p: Clock, report: Report) {
    && report.chunk == p.chunk && report.round > p.round && ReportOk(c, report)
    && (report.index in RoundReports(p, report.round) ==> RoundReports(p, report.round)[report.index] == report)
  }

  /** `accept_round_change`: the clock after collecting an acceptable report. */
  function Collected(p: Clock, report: Report): Clock {
    p.(reports := Evict(Inserted(p, report)))
  }

  /** `validate_saved_reports` */
  predicate SavedReportsOk(c: Committee, p: Clock) {
    && |p.reports| <= 2
    && forall r :: r in p.reports ==> r > p.round && |p.reports[r]| <= |c.validators| && RoundOk(c, p, r, p.reports[r])
  }

  predicate RoundOk(c: Committee, p: Clock, round: nat, reports: map<nat, Report>) {
    forall i :: i in reports ==>
      reports[i].chunk == p.chunk && reports[i].round == round && reports[i].index == i && ReportOk(c, reports[i])
  }

  // ----- what collecting keeps -----

  /** Eviction keeps the smallest round, changes no kept round and leaves at most two. */
  lemma {:induction false} EvictKeepsNearest(reports: map<nat, map<nat, Report>>, near: nat)
    requires near in reports && forall r :: r in reports ==> near <= r
    ensures var kept := Evict(reports);
      near in kept && |kept| <= 2 && kept.Keys <= reports.Keys && forall r :: r in kept ==> kept[r] == reports[r]
    decreases |reports|
  {
    if |reports| > 2 {
      var last := MaxOf(reports.Keys);
      assert |reports.Keys - {near}| == |reports.Keys| - 1;
      var other :| other in reports.Keys - {near};
      EvictKeepsNearest(reports - {last}, near);
    }
  }

  lemma NearestOf(reports: map<nat, map<nat, Report>>)
    requires |reports| > 0
    ensures exists near :: near in reports && forall r :: r in reports ==> near <= r
  {
    MinExists(reports.Keys);
  }

  lemma MinExists(s: set<nat>)
    requires s != {}
    ensures exists m :: m in s && forall x :: x in s ==> m <= x
  {
    var x :| x in s;
    var rest := s - {x};
    if rest == {} {
      assert s == {x};
    } else {
      MinExists(rest);
      var m :| m in rest && forall y :: y in rest ==> m <= y;
      assert forall y :: y in s ==> y in rest || y == x;
      if x < m {
        assert x in s && forall y :: y in s ==> x <= y;
      } else {
        assert m in s && forall y :: y in s ==> m <= y;
      }
    }
  }

  lemma {:induction false} KeysBelow(s: set<nat>, n: nat)
    requires forall i :: i in s ==> i < n
    ensures |s| <= n
  {
    if n == 0 {
      assert s == {};
    } else {
      KeysBelow(s - {n - 1}, n - 1);
    }
  }

  lemma InsertKeepsRoundsOk(c: Committee, p: Clock, report: Report)
    requires SavedReportsOk(c, p) && Acceptable(c, p, report)
    ensures forall r :: r in Inserted(p, report) ==>
      r > p.round && |Inserted(p, report)[r]| <= |c.validators| && RoundOk(c, p, r, Inserted(p, report)[r])
  {
    var updated := RoundReports(p, report.round)[report.index := report];
    assert RoundOk(c, p, report.round, updated);
    KeysBelow(updated.Keys, |c.validators|);
  }

  /** The state always passes the checks made when it is restored. */
  lemma CollectKeepsSavedReportsOk(c: Committee, p: Clock, report: Report)
    requires SavedReportsOk(c, p) && Acceptable(c, p, report)
    ensures SavedReportsOk(c, Collected(p, report))
  {
    var all := Inserted(p, report);
    assert report.round in all;
    NearestOf(all);
    var near :| near in all && forall r :: r in all ==> near <= r;
    EvictKeepsNearest(all, near);
    InsertKeepsRoundsOk(c, p, report);
    var kept := Collected(p, report);
    forall r | r in kept.reports
      ensures r > p.round && |kept.reports[r]| <= |c.validators| && RoundOk(c, kept, r, kept.reports[r])
    {
      assert kept.reports[r] == all[r];
      assert RoundOk(c, p, r, all[r]);
    }
  }

  /** While the round stays `r`, no report, of whatever round, removes one for `r + 1`. */
  lemma CollectKeepsNextRound(c: Committee, p: Clock, report: Report, index: nat)
    requires SavedReportsOk(c, p) && Acceptable(c, p, report)
    requires index in RoundReports(p, p.round + 1)
    ensures index in RoundReports(Collected(p, report), p.round + 1)
    ensures RoundReports(Collected(p, report), p.round + 1)[index] == RoundReports(p, p.round + 1)[index]
  {
    EvictKeepsNearest(Inserted(p, report), p.round + 1);
  }

  lemma CollectAddsNextRound(c: Committee, p: Clock, report: Report)
    requires SavedReportsOk(c, p) && Acceptable(c, p, report) && report.round == p.round + 1
    ensures RoundReports(Collected(p, report), report.round) == RoundReports(p, report.round)[report.index := report]
  {
    EvictKeepsNearest(Inserted(p, report), p.round + 1);
  }

  lemma {:induction false} InOrderExact(reports: map<nat, Report>, n: nat)
    requires forall i :: i in reports ==> reports[i].index == i
    ensures forall k :: 0 <= k < |InOrder(reports, n)| ==>
      InOrder(reports, n)[k].index < n && InOrder(reports, n)[k].index in reports
      && reports[InOrder(reports, n)[k].index] == InOrder(reports, n)[k]
    ensures DistinctReporters(InOrder(reports, n))
    ensures forall i: nat :: i in Reporters(InOrder(reports, n)) <==> i in reports && i < n
  {
    if n > 0 {
      InOrderExact(reports, n - 1);
      var prior, all := InOrder(reports, n - 1), InOrder(reports, n);
      if n - 1 in reports {
        assert all[|prior|].index == n - 1;
        forall i | i in Reporters(prior)
          ensures i in Reporters(all)
        {
          var k :| 0 <= k < |prior| && prior[k].index == i;
          assert all[k].index == i;
        }
        forall i | i in Reporters(all)
          ensures i in Reporters(prior) || i == n - 1
        {
          var k :| 0 <= k < |all| && all[k].index == i;
          if k < |prior| {
            assert prior[k].index == i;
          }
        }
      } else {
        assert all == prior;
      }
    }
  }

  /** Any certificate the collection forms is accepted by round-certificate verification and names all its reporters. */
  lemma FormedCertificateVerifies(c: Committee, p: Clock, round: nat)
    requires FractionValid(c.prevote) && SavedReportsOk(c, p) && FormedCertificate(c, p, round).Some?
    ensures CertificateOk(c, FormedCertificate(c, p, round).value)
    ensures Reporters(FormedCertificate(c, p, round).value.reports) == p.reports[round].Keys
  {
    InOrderExact(p.reports[round], |c.validators|);
    assert Reporters(FormedCertificate(c, p, round).value.reports) == p.reports[round].Keys;
  }

  /** The call that completes a quorum of distinct reporters for the next round returns an accepted certificate. */
  lemma QuorumOfReportsCertifies(c: Committee, p: Clock, report: Report)
    requires FractionValid(c.prevote) && SavedReportsOk(c, p) && Acceptable(c, p, report) && report.round == p.round + 1
    requires QuorumReached(
      Weight(c.validators, RoundReports(p, report.round).Keys + {report.index}), Total(c.validators), c.prevote)
    ensures var cert := FormedCertificate(c, Collected(p, report), report.round);
      cert.Some? && CertificateOk(c, cert.value) && cert.value.round == p.round + 1 && cert.value.chunk == p.chunk
      && Reporters(cert.value.reports) == RoundReports(p, report.round).Keys + {report.index}
  {
    CollectKeepsSavedReportsOk(c, p, report);
    CollectAddsNextRound(c, p, report);
    NextRoundRetained(p, report);
    FormedCertificateVerifies(c, Collected(p, report), report.round);
  }

  lemma NextRoundRetained(p: Clock, report: Report)
    requires report.round == p.round + 1 && forall r :: r in p.reports ==> r > p.round
    ensures report.round in Collected(p, report).reports
    ensures Collected(p, report).reports[report.round].Keys == RoundReports(p, report.round).Keys + {report.index}
  {
    EvictKeepsNearest(Inserted(p, report), p.round + 1);
  }

  // ----- interleavings of reports -----

  function Offer(c: Committee, p: Clock, report: Report): Clock {
    if Acceptable(c, p, report) then Collected(p, report) else p
  }

  predicate Holds(p: Clock, report: Report) {
    report.index in RoundReports(p, report.round) && RoundReports(p, report.round)[report.index] == report
  }

  lemma OfferKeepsOk(c: Committee, p: Clock, offered: Report)
    requires SavedReportsOk(c, p)
    ensures SavedReportsOk(c, Offer(c, p, offered))
    ensures Offer(c, p, offered).(reports := p.reports) == p
  {
    if Acceptable(c, p, offered) {
      CollectKeepsSavedReportsOk(c, p, offered);
    }
  }

  /** Whatever is offered, a report held for the next round stays held. */
  lemma OfferKeepsHeld(c: Committee, p: Clock, offered: Report, held: Report)
    requires SavedReportsOk(c, p) && held.round == p.round + 1 && Holds(p, held)
    ensures Holds(Offer(c, p, offered), held)
  {
    if Acceptable(c, p, offered) {
      CollectKeepsNextRound(c, p, offered, held.index);
    }
  }

  lemma OfferHolds(c: Committee, p: Clock, offered: Report)
    requires SavedReportsOk(c, p) && offered.round == p.round + 1 && Acceptable(c, p, offered)
    ensures Holds(Offer(c, p, offered), offered)
  {
    CollectAddsNextRound(c, p, offered);
  }

  /** `clocks` are the successive states as `reports` are offered one by one. */
  predicate CollectRun(c: Committee, clocks: seq<Clock>, reports: seq<Report>) {
    && |clocks| == |reports| + 1
    && forall i :: 0 <= i < |reports| ==> OfferedAt(c, clocks, reports, i)
  }

  predicate OfferedAt(c: Committee, clocks: seq<Clock>, reports: seq<Report>, i: nat)
    requires i < |reports| == |clocks| - 1
  {
    clocks[i + 1] == Offer(c, clocks[i], reports[i])
  }

  lemma RunSteps(c: Committee, clocks: seq<Clock>, reports: seq<Report>)
    requires CollectRun(c, clocks, reports)
    ensures forall i {:trigger reports[i]} :: 0 <= i < |reports| ==> clocks[i + 1] == Offer(c, clocks[i], reports[i])
  {
    forall i | 0 <= i < |reports|
      ensures clocks[i + 1] == Offer(c, clocks[i], reports[i])
    {
      assert OfferedAt(c, clocks, reports, i);
    }
  }

  /** The collected state passes the checks of a restart at every moment, and only its reports change. */
  lemma CollectRunKeepsOk(c: Committee, clocks: seq<Clock>, reports: seq<Report>, n: nat)
    requires CollectRun(c, clocks, reports) && n < |clocks| && SavedReportsOk(c, clocks[0])
    ensures SavedReportsOk(c, clocks[n])
    ensures clocks[n].(reports := clocks[0].reports) == clocks[0]
  {
    var first := clocks[0];
    var ok := (p: Clock) => SavedReportsOk(c, p) && p.(reports := first.reports) == first;
    var step := (p: Clock, m: Report, q: Clock) => q == Offer(c, p, m);
    forall p, m, q | ok(p) && step(p, m, q)
      ensures ok(q)
    {
      OfferKeepsOk(c, p, m);
    }
    RunSteps(c, clocks, reports);
    AlongRun(ok, step, clocks, reports, 0, n);
  }

  lemma HeldStaysHeld(c: Committee, clocks: seq<Clock>, reports: seq<Report>, m: nat, n: nat, held: Report)
    requires CollectRun(c, clocks, reports) && m <= n < |clocks| && SavedReportsOk(c, clocks[m])
    requires Holds(clocks[m], held) && held.round == clocks[m].round + 1
    ensures Holds(clocks[n], held)
  {
    var ok := (p: Clock) => SavedReportsOk(c, p) && Holds(p, held) && held.round == p.round + 1;
    var step := (p: Clock, m: Report, q: Clock) => q == Offer(c, p, m);
    forall p, m, q | ok(p) && step(p, m, q)
      ensures ok(q)
    {
      OfferKeepsOk(c, p, m);
      OfferKeepsHeld(c, p, m, held);
    }
    RunSteps(c, clocks, reports);
    AlongRun(ok, step, clocks, reports, m, n);
  }

  /** However reports of all rounds interleave, each report for the next round that was accepted, at whatever moment,
      is still held. */
  lemma NextRoundReportsSurvive(c: Committee, clocks: seq<Clock>, reports: seq<Report>, k: nat, n: nat)
    requires CollectRun(c, clocks, reports) && SavedReportsOk(c, clocks[0]) && k < n < |clocks|
    requires Acceptable(c, clocks[k], reports[k]) && reports[k].round == clocks[0].round + 1
    ensures Holds(clocks[n], reports[k])
  {
    CollectRunKeepsOk(c, clocks, reports, k);
    assert OfferedAt(c, clocks, reports, k);
    OfferKeepsOk(c, clocks[k], reports[k]);
    OfferHolds(c, clocks[k], reports[k]);
    HeldStaysHeld(c, clocks, reports, k + 1, n, reports[k]);
  }

  // ----- interleavings of phase calls -----

  datatype Call = CallPrevote(now: nat) | CallPrecommit(now: nat) | CallAwaitRound(now: nat) | CallTimeout(now: nat)

  function Apply(p: Clock, call: Call): Clock {
    match call
    case CallPrevote(now) => EnterPrevote(p, now)
    case CallPrecommit(now) => EnterPrecommit(p, now)
    case CallAwaitRound(now) => EnterAwaitRound(p, now)
    case CallTimeout(now) => AfterTimeout(p, now)
  }

  function ActionOf(p: Clock, call: Call): Option<TimeoutAction> {
    if call.CallTimeout? then TimeoutDue(p, call.now) else None
  }

  function PhaseRun(p: Clock, calls: seq<Call>): Clock {
    if calls == [] then p else Apply(PhaseRun(p, calls[..|calls| - 1]), calls[|calls| - 1])
  }

  /** How often `action` fires in a run. */
  function Fired(p: Clock, calls: seq<Call>, action: TimeoutAction): nat {
    if calls == [] then 0
    else
      var n := |calls| - 1;
      Fired(p, calls[..n], action) + (if ActionOf(PhaseRun(p, calls[..n]), calls[n]) == Some(action) then 1 else 0)
  }

  function Order(step: RoundStep): nat {
    match step case Propose => 0 case Prevoting => 1 case Precommitting => 2 case AwaitRound => 3
  }

  /** Within a round the phase never moves back, and each nil action fires at most once and only while leaving its
      phase. */
  lemma {:induction false} PhasesOnlyAdvance(p: Clock, calls: seq<Call>)
    ensures PhaseRun(p, calls).round == p.round && Order(PhaseRun(p, calls).step) >= Order(p.step)
    ensures Fired(p, calls, PrevoteNil) <= (if p.step == Propose && PhaseRun(p, calls).step != Propose then 1 else 0)
    ensures Fired(p, calls, PrecommitNil) <=
      (if Order(p.step) <= 1 && Order(PhaseRun(p, calls).step) >= 2 then 1 else 0)
  {
    if calls != [] {
      PhasesOnlyAdvance(p, calls[..|calls| - 1]);
    }
  }

  /** An entry call that does not leave its phase keeps the deadline; a timeout acts only at or after it, and a round
      change moves up. */
  lemma RepeatedEntryKeepsDeadline(p: Clock, call: Call)
    ensures !call.CallTimeout? && Apply(p, call).step == p.step ==> Apply(p, call) == p
    ensures call.CallTimeout? && Apply(p, call) != p ==> call.now >= p.deadline
    ensures ActionOf(p, call).Some? && ActionOf(p, call).value.RoundChange? ==>
      ActionOf(p, call).value.round == p.round + 1 <= MAX_ROUND
  {
  }

  // ----- the pacemaker object -----

  predicate EntryOk(c: Committee, p: Clock, round: nat, index: nat, report: Report) {
    report.chunk == p.chunk && report.round == round && report.index == index && ReportOk(c, report)
  }

  /** The inner loop of `validate_saved_reports`, with the list of already checked certificates. */
  method ValidateRound(c: Committee, p: Clock, round: nat, reports: map<nat, Report>, verified: seq<QuorumCert>)
    returns (r: Result<seq<QuorumCert>>)
    requires FractionValid(c.prevote) && forall q :: q in verified ==> Certifies(c, q)
    ensures r.Ok? <==> RoundOk(c, p, round, reports)
    ensures r.Ok? ==> forall q :: q in r.value ==> Certifies(c, q)
  {
    var left := reports.Keys;
    r := Ok(verified);
    while left != {}
      invariant left <= reports.Keys && r.Ok? && forall q :: q in r.value ==> Certifies(c, q)
      invariant forall i: nat :: i in reports && i !in left ==> EntryOk(c, p, round, i, reports[i])
      decreases |left|
    {
      var i: nat :| i in left;
      if reports[i].chunk != p.chunk || reports[i].round != round || reports[i].index != i {
        return Err(WrongTarget);
      }
      var checked := VerifyRoundChange(c, reports[i], r.value);
      if checked.Err? {
        return checked;
      }
      r := checked;
      left := left - {i};
    }
    assert forall i: nat :: i in reports ==> EntryOk(c, p, round, i, reports[i]);
  }

  /** `validate_saved_reports` accepts exactly the states the collection keeps. */
  method ValidateSavedReports(c: Committee, p: Clock) returns (ok: bool)
    requires FractionValid(c.prevote)
    ensures ok <==> SavedReportsOk(c, p)
  {
    if |p.reports| > 2 {
      return false;
    }
    var left := p.reports.Keys;
    var verified: seq<QuorumCert> := [];
    while left != {}
      invariant left <= p.reports.Keys && forall q :: q in verified ==> Certifies(c, q)
      invariant forall n: nat :: n in p.reports && n !in left ==>
        n > p.round && |p.reports[n]| <= |c.validators| && RoundOk(c, p, n, p.reports[n])
      decreases |left|
    {
      var n: nat :| n in left;
      if n <= p.round || |p.reports[n]| > |c.validators| {
        return false;
      }
      var checked := ValidateRound(c, p, n, p.reports[n], verified);
      if checked.Err? {
        return false;
      }
      verified := checked.value;
      left := left - {n};
    }
    return true;
  }

  class RoundPacemaker {
    const chunk: nat
    const base: nat
    const backoff: nat
    var round: nat
    var step: RoundStep
    var deadline: nat
    var reports: map<nat, map<nat, Report>>

    ghost function State(): Clock
      reads this
    {
      Clock(chunk, round, step, deadline, base, backoff, reports)
    }

    constructor (chunk: nat, round: nat, now: nat, base: nat, backoff: nat)
      ensures State() == NewClock(chunk, round, now, base, backoff)
    {
      this.chunk := chunk;
      this.round := round;
      this.base := AtLeastOne(base);
      this.backoff := AtLeastOne(backoff);
      step := Propose;
      deadline := SaturatingAdd(now, SaturatingAdd(AtLeastOne(base), SaturatingMul(round, AtLeastOne(backoff))));
      reports := map[];
    }

    method SetDeadline(now: nat)
      modifies this`deadline
      ensures State() == ResetDeadline(old(State()), now)
    {
      deadline := SaturatingAdd(now, SaturatingAdd(base, SaturatingMul(round, backoff)));
    }

    method Prevote(now: nat)
      modifies this`step, this`deadline
      ensures State() == EnterPrevote(old(State()), now)
    {
      if step == Propose {
        step := Prevoting;
        SetDeadline(now);
      }
    }

    method Precommit(now: nat)
      modifies this`step, this`deadline
      ensures State() == EnterPrecommit(old(State()), now)
    {
      if step == Propose || step == Prevoting {
        step := Precommitting;
        SetDeadline(now);
      }
    }

    method Await(now: nat)
      modifies this`step, this`deadline
      ensures State() == EnterAwaitRound(old(State()), now)
    {
      if step != AwaitRound {
        step := AwaitRound;
        SetDeadline(now);
      }
    }

    method OnTimeout(now: nat) returns (action: Option<TimeoutAction>)
      modifies this`step, this`deadline
      ensures action == TimeoutDue(old(State()), now) && State() == AfterTimeout(old(State()), now)
    {
      if now < deadline {
        return None;
      }
      match step {
        case Propose =>
          step := Prevoting;
          action := Some(PrevoteNil);
        case Prevoting =>
          step := Precommitting;
          action := Some(PrecommitNil);
        case Precommitting =>
          if round >= MAX_ROUND {
            return None;
          }
          step := AwaitRound;
          action := Some(RoundChange(round + 1));
        case AwaitRound =>
          if round >= MAX_ROUND {
            return None;
          }
          action := Some(RoundChange(round + 1));
      }
      SetDeadline(now);
    }

    method Advance(to: nat, now: nat) returns (ok: bool)
      modifies this`round, this`step, this`deadline, this`reports
      ensures ok <==> to > old(round)
      ensures State() == if ok then AdvanceRound(old(State()), to, now) else old(State())
    {
      if to <= round {
        return false;
      }
      round := to;
      step := Propose;
      reports := map r | r in reports && r > to :: reports[r];
      SetDeadline(now);
      ok := true;
    }

    /** Collect one report: at most two future rounds stay, the farthest goes first. */
    method AcceptRoundChange(c: Committee, report: Report) returns (r: Result<Option<Certificate>>)
      requires FractionValid(c.prevote) && Total(c.validators) <= MAX_U64
      requires SavedReportsOk(c, State())
      modifies this`reports
      ensures SavedReportsOk(c, State())
      ensures r.Ok? <==> Acceptable(c, old(State()), report)
      ensures State() == if r.Ok? then Collected(old(State()), report) else old(State())
      ensures r.Ok? ==> r.value == FormedCertificate(c, State(), report.round)
      ensures r != Err(StakeOverflow)
    {
      if report.chunk != chunk || report.round <= round {
        return Err(WrongTarget);
      }
      var checked := VerifyRoundChange(c, report, []);
      if checked.Err? {
        return Err(checked.violation);
      }
      var known := if report.round in reports then reports[report.round] else map[];
      if report.index in known {
        if known[report.index] != report {
          return Err(WrongTarget);
        }
      }
      CollectKeepsSavedReportsOk(c, State(), report);
      Store(report);
      var cert := Form(c, report.round);
      r := Ok(cert);
    }

    method Store(report: Report)
      modifies this`reports
      ensures State() == Collected(old(State()), report)
    {
      var known := if report.round in reports then reports[report.round] else map[];
      reports := reports[report.round := known[report.index := report]];
      while |reports| > 2
        invariant Evict(reports) == Evict(Inserted(old(State()), report))
        decreases |reports|
      {
        reports := reports - {MaxOf(reports.Keys)};
      }
    }

    method Form(c: Committee, reported: nat) returns (cert: Option<Certificate>)
      requires SavedReportsOk(c, State()) && Total(c.validators) <= MAX_U64
      ensures cert == FormedCertificate(c, State(), reported)
    {
      if reported !in reports {
        return None;
      }
      var known := reports[reported];
      assert RoundOk(c, State(), reported, known);
      var stake := SumStake(c, known);
      if !QuorumReached(stake, Total(c.validators), c.prevote) {
        return None;
      }
      cert := Some(Certificate(chunk, reported, InOrder(known, |c.validators|)));
    }

    /** The fold over reporters never indexes outside the set and never overflows. */
    method SumStake(c: Committee, known: map<nat, Report>) returns (stake: nat)
      requires forall i :: i in known ==> Active(c.validators, i)
      requires Total(c.validators) <= MAX_U64
      ensures stake == Weight(c.validators, known.Keys) <= MAX_U64
    {
      stake := 0;
      var pending, done := known.Keys, {};
      WeightEmpty(c.validators, |c.validators|);
      while pending != {}
        invariant pending !! done && pending + done == known.Keys
        invariant stake == Weight(c.validators, done)
        decreases pending
      {
        var i :| i in pending;
        WeightAdd(c.validators, done, i, |c.validators|);
        stake := stake + c.validators[i].stake;
        pending, done := pending - {i}, done + {i};
      }
      assert done == known.Keys;
      WeightBelowTotal(c.validators, done, |c.validators|);
    }
  }
}

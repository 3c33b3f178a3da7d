/** What the driver itself makes is never refused by its own checks: a validator's report is always collected, and a
    leader's proposal is refused only where its target cannot move or proofs are missing. */
module Progress {
  import opened Types
  import opened Stake
  import opened SigningJournal
  import opened Certificates
  import opened Pacemaker
  import opened Session
  import opened JournalGrowth
  import opened SessionInvariant
  import opened SessionSteps
  import opened NodeSteps
  import opened Agreement
  import opened Context
  import opened Evidence
  import opened Network
  import opened LockIn
  import Driver

  // ----- the own report -----

  lemma OwnReportShape(r: Rules, s: BftSession, j: ChunkJournal)
    requires RulesOk(r) && Good(r, s, j)
    ensures var m := Driver.OwnReport(r, s, j);
      m.chunk == r.chunk && m.round == s.ballot.round + 1 && m.index == r.self && r.reportOk(m)
  {
    OwnReportFits(r, s, j);
  }

  /** A collected report of the validator itself is the one its journal reserves. */
  lemma CollectedIsReserved(
    x: Setting, faulty: set<nat>, log: seq<Entry>, u: nat, s: BftSession, j: ChunkJournal, prior: Report)
    requires u !in faulty && JournalMatches(ConfigOf(x, faulty), log, u, j)
    requires MessagesLinked(RulesOf(x, u), s.ballot.round, s.clock.step, s.report, j)
    requires j.mark.Some? ==> j.mark.value.round <= s.ballot.round
    requires prior.index == u && prior.round == s.ballot.round + 1
    requires ReportBacked(EvidenceOf(ConfigOf(x, faulty), log), prior)
    ensures Driver.OwnReport(RulesOf(x, u), s, j) == prior
  {
    var i :| 0 <= i < |log| && log[i] == ReportEntry(prior);
    assert Covers(j, log[i].what);
  }

  /** An own report with the right target is acceptable unless the clock holds another report of the same signer. */
  lemma ReportAcceptable(c: Committee, p: Clock, m: Report)
    requires SavedReportsOk(c, p) && m.chunk == p.chunk && m.round > p.round && ReportOk(c, m)
    requires m.index in RoundReports(p, m.round) ==> RoundReports(p, m.round)[m.index] == m
    ensures Acceptable(c, p, m)
  {
  }

  lemma CollectedPrior(x: Setting, faulty: set<nat>, log: seq<Entry>, u: nat, s: BftSession, j: ChunkJournal)
    requires u !in faulty && JournalMatches(ConfigOf(x, faulty), log, u, j) && Good(RulesOf(x, u), s, j)
    requires ClockBacked(EvidenceOf(ConfigOf(x, faulty), log), s.clock)
    ensures var held := RoundReports(s.clock, s.ballot.round + 1);
      u in held ==> held[u] == Driver.OwnReport(RulesOf(x, u), s, j)
  {
    var round := s.ballot.round + 1;
    if round in s.clock.reports && u in s.clock.reports[round] {
      assert RoundOk(x.committee, s.clock, round, s.clock.reports[round]);
      CollectedIsReserved(x, faulty, log, u, s, j, s.clock.reports[round][u]);
    }
  }

  /** The local report of a round change is always collected. */
  lemma OwnReportIsCollected(
    x: Setting, faulty: set<nat>, log: seq<Entry>, u: nat, s: BftSession, j: ChunkJournal, now: nat)
    requires u !in faulty && RulesOk(RulesOf(x, u)) && Good(RulesOf(x, u), s, j)
    requires JournalMatches(ConfigOf(x, faulty), log, u, j)
    requires ClockBacked(EvidenceOf(ConfigOf(x, faulty), log), s.clock)
    ensures var report := Driver.OwnReport(RulesOf(x, u), s, j);
      RulesOf(x, u).accepts(Driver.Closed(s, report, now).clock, report)
  {
    OwnReportShape(RulesOf(x, u), s, j);
    CollectedPrior(x, faulty, log, u, s, j);
    ReportAcceptable(x.committee, s.clock, Driver.OwnReport(RulesOf(x, u), s, j));
  }

  // ----- the own proposal -----

  lemma PlanIsOwn(r: Rules, s: BftSession, j: ChunkJournal)
    requires Good(r, s, j) && Driver.ToPropose(r, s, j).Some?
    ensures OwnProposal(r, s.ballot.round, Driver.ToPropose(r, s, j).value.1)
  {
  }

  lemma PlanIsBacked(r: Rules, e: Evidence, s: BftSession, j: ChunkJournal)
    requires SessionBacked(e, s) && JournalBacked(e, r.self, j) && Driver.ToPropose(r, s, j).Some?
    ensures ProposalBacked(e, Driver.ToPropose(r, s, j).value.1)
  {
  }

  /** Under the fault bound what a leader proposes passes `set_proposal`, so it is refused exactly when the target
      cannot move or proofs are missing. */
  lemma LeadFailsExactly(
    x: Setting, faulty: set<nat>, log: seq<Entry>, u: nat, s: BftSession, j: ChunkJournal, now: nat)
    requires ConfigOk(ConfigOf(x, faulty)) && LogOk(ConfigOf(x, faulty), log) && RulesOk(RulesOf(x, u))
    requires Good(RulesOf(x, u), s, j)
    requires SessionBacked(EvidenceOf(ConfigOf(x, faulty), log), s)
    requires JournalBacked(EvidenceOf(ConfigOf(x, faulty), log), u, j)
    ensures var r := RulesOf(x, u);
      var plan := Driver.ToPropose(r, s, j);
      Driver.LeadSucceeds(r, s, j, now) <==>
        (plan.Some? ==> !Driver.LeadBlocked(r, s, j)
                        && !Driver.ProofsMissing(r, Driver.AcceptedTarget(r, plan.value.0, plan.value.1, now)))
  {
    var r := RulesOf(x, u);
    var plan := Driver.ToPropose(r, s, j);
    if plan.Some? {
      PlanIsOwn(r, s, j);
      PlanIsBacked(r, EvidenceOf(ConfigOf(x, faulty), log), s, j);
      OwnProposalIsAccepted(x, faulty, log, u, s.ballot.round, plan.value.1);
    }
  }

  /** At every moment of every run of the network: leading fails exactly when the target cannot move or proofs are
      missing. */
  lemma LeadingFailsExactly(
    x: Setting, faulty: set<nat>, worlds: seq<World>, events: seq<Event>, n: nat, u: nat, now: nat)
    requires ConfigOk(ConfigOf(x, faulty)) && IsNetworkRun(x, faulty, worlds, events)
    requires n < |worlds| && u in worlds[n].nodes
    ensures var r, s, j := RulesOf(x, u), worlds[n].nodes[u].work, worlds[n].nodes[u].journal;
      var plan := Driver.ToPropose(r, s, j);
      Driver.LeadSucceeds(r, s, j, now) <==>
        (plan.Some? ==> !Driver.LeadBlocked(r, s, j)
                        && !Driver.ProofsMissing(r, Driver.AcceptedTarget(r, plan.value.0, plan.value.1, now)))
  {
    var node := worlds[n].nodes[u];
    NetworkRunKeepsInv(x, faulty, worlds, events, n);
    assert NodeOk(x, faulty, worlds[n].log, u, node);
    RulesHold(x, u);
    LeadFailsExactly(x, faulty, worlds[n].log, u, node.work, node.journal, now);
  }

  /** The own report of a round change is collected at every moment of every run of the network. */
  lemma ReportIsAlwaysCollected(
    x: Setting, faulty: set<nat>, worlds: seq<World>, events: seq<Event>, n: nat, u: nat, now: nat)
    requires IsNetworkRun(x, faulty, worlds, events) && n < |worlds| && u in worlds[n].nodes
    ensures var r, s, j := RulesOf(x, u), worlds[n].nodes[u].work, worlds[n].nodes[u].journal;
      var report := Driver.OwnReport(r, s, j);
      r.accepts(Driver.Closed(s, report, now).clock, report)
  {
    var node := worlds[n].nodes[u];
    NetworkRunKeepsInv(x, faulty, worlds, events, n);
    assert NodeOk(x, faulty, worlds[n].log, u, node);
    RulesHold(x, u);
    OwnReportIsCollected(x, faulty, worlds[n].log, u, node.work, node.journal, now);
  }
}

/** The checks of one validator, from its committee: they satisfy everything the session invariant asks of them. */
module Context {
  import opened Types
  import opened Stake
  import opened SigningJournal
  import opened Leader
  import opened Certificates
  import opened Pacemaker
  import opened Session
  import opened SessionInvariant
  import opened Agreement

  /** `digest` fixes the leader rotation; `stored` are the proof envelopes on disk. */
  datatype Setting = Setting(committee: Committee, chunk: nat, digest: nat, stored: Hash -> Option<seq<Hash>>)

  function RulesOf(x: Setting, self: nat): Rules {
    var c := x.committee;
    Rules(
      self, x.chunk,
      (d: VoteData, s: set<nat>) => ClaimsVerify(c, d, s),
      (n: nat, phase: Phase, s: set<nat>) => NilClaimsVerify(c, x.chunk, n, phase, s),
      c.decodes,
      (s: set<nat>) => QuorumReached(Weight(c.validators, s), Total(c.validators), c.prevote),
      (s: set<nat>) => QuorumReached(Weight(c.validators, s), Total(c.validators), c.precommit),
      VerifierOf(c),
      (m: Report) => ReportOk(c, m),
      (cert: Certificate) => CertificateOk(c, cert),
      (cert: Certificate) => HighestQuorum(cert.reports),
      (h: Hash, n: nat, p: Proposal) => ProposalOk(c, LeaderOf(c.validators, x.digest, n), x.chunk, h, n, p),
      (n: nat) => LeaderOf(c.validators, x.digest, n) == Some(self),
      x.stored,
      (p: Clock) => SavedReportsOk(c, p),
      (p: Clock, m: Report) => Acceptable(c, p, m),
      (p: Clock, m: Report) => Collected(p, m),
      (p: Clock, n: nat) => FormedCertificate(c, p, n))
  }

  /** Signing is correct: the validator's own proposals, reports and votes verify, and its own signature decodes. */
  ghost predicate OwnSignaturesVerify(c: Committee, self: nat) {
    && (forall p: Proposal :: p.index == self ==> c.proposalVerdict(p))
    && (forall m: Report :: m.index == self ==> c.reportVerdict(m))
    && (forall data: VoteData :: c.claimVerdict(data, self))
    && (forall chunk, round, phase :: c.nilVerdict(chunk, round, phase, self))
    && c.decodes({self})
  }

  /** Aggregation is correct: an aggregate of verified prevote claims verifies when it decodes. */
  ghost predicate AggregatesVerify(c: Committee) {
    forall qc: QuorumCert :: ClaimsVerify(c, CertifiedVote(qc), qc.signers) && c.decodes(qc.signers) ==>
      c.quorumVerdict(qc)
  }

  /** The signatures of a prevote quorum do not cancel. */
  ghost predicate QuorumsDecode(c: Committee) {
    forall signers: set<nat> :: HasQuorum(c.validators, signers, c.prevote) ==> c.decodes(signers)
  }

  /** Keys that cancel are all chosen by faulty validators: an aggregate with an honest signer decodes. */
  ghost predicate HonestDecode(c: Committee, faulty: set<nat>) {
    forall signers: set<nat>, i: nat :: i in signers && i !in faulty && AllActive(c.validators, signers) ==>
      c.decodes(signers)
  }

  /** Under the fault bound every prevote quorum has an honest signer, so it decodes. */
  lemma HonestQuorumsDecode(c: Committee, faulty: set<nat>)
    requires FractionValid(c.prevote) && FaultBound(c, faulty) && HonestDecode(c, faulty)
    ensures QuorumsDecode(c)
  {
    forall signers: set<nat> | HasQuorum(c.validators, signers, c.prevote)
      ensures c.decodes(signers)
    {
      var _ := QuorumsMeet(c.validators, signers, c.prevote, signers, c.prevote, faulty);
    }
  }

  ghost predicate SettingOk(x: Setting, self: nat) {
    && FractionValid(x.committee.prevote) && FractionValid(x.committee.precommit)
    && Active(x.committee.validators, self)
    && OwnSignaturesVerify(x.committee, self) && AggregatesVerify(x.committee) && QuorumsDecode(x.committee)
  }

  // ----- quorums -----

  lemma ReachedMonotone(a: nat, b: nat, total: nat, f: Fraction)
    requires a <= b && QuorumReached(a, total, f)
    ensures QuorumReached(b, total, f)
  {
  }

  lemma QuorumsGrowHere(x: Setting, self: nat)
    ensures QuorumsGrow(RulesOf(x, self))
  {
    var c, r := x.committee, RulesOf(x, self);
    forall a, b | a <= b
      ensures r.prevoteQuorum(a) ==> r.prevoteQuorum(b)
      ensures r.precommitQuorum(a) ==> r.precommitQuorum(b)
    {
      WeightMonotone(c.validators, a, b, |c.validators|);
      if r.prevoteQuorum(a) {
        ReachedMonotone(Weight(c.validators, a), Weight(c.validators, b), Total(c.validators), c.prevote);
      }
      if r.precommitQuorum(a) {
        ReachedMonotone(Weight(c.validators, a), Weight(c.validators, b), Total(c.validators), c.precommit);
      }
    }
  }

  lemma ActiveHasStake(vs: seq<Validator>, i: nat)
    requires Active(vs, i)
    ensures Total(vs) > 0
  {
    WeightBelowTotal(vs, {i}, |vs|);
    WeightEmpty(vs, |vs|);
    WeightAdd(vs, {}, i, |vs|);
    assert {} + {i} == {i};
  }

  lemma NothingIsNoQuorum(x: Setting, self: nat)
    requires SettingOk(x, self)
    ensures !RulesOf(x, self).prevoteQuorum({})
  {
    var vs := x.committee.validators;
    ActiveHasStake(vs, self);
    WeightEmpty(vs, |vs|);
    PositiveProduct(Total(vs), x.committee.prevote.num);
  }

  lemma PositiveProduct(a: nat, b: nat)
    requires a > 0 && b > 0
    ensures a * b > 0
  {
  }

  lemma ClaimsAreOk(x: Setting, self: nat)
    requires SettingOk(x, self)
    ensures ClaimsOk(RulesOf(x, self))
  {
  }

  lemma QuorumsVerify(x: Setting, self: nat, qc: QuorumCert)
    requires SettingOk(x, self)
    ensures QuorumVerifies(RulesOf(x, self), qc)
  {
    if qc.signers == {} {
      NothingIsNoQuorum(x, self);
    }
  }

  // ----- proposals and certificates -----

  lemma ProposalsHaveShape(x: Setting, self: nat, h: Hash, n: nat, p: Proposal)
    requires RulesOf(x, self).proposalOk(h, n, p)
    ensures ProposalShape(RulesOf(x, self), h, n, p)
  {
  }

  lemma CertificatesFit(x: Setting, self: nat, cert: Certificate)
    ensures CertificateFits(RulesOf(x, self), cert)
  {
    HighestQuorumIsMaximal(cert.reports);
  }

  lemma OwnProposalsAccepted(x: Setting, self: nat, p: Proposal)
    requires SettingOk(x, self)
    ensures OwnProposalAccepted(RulesOf(x, self), p)
  {
  }

  lemma OwnReportsAccepted(x: Setting, self: nat, m: Report)
    requires SettingOk(x, self)
    ensures OwnReportAccepted(RulesOf(x, self), m)
  {
  }

  // ----- the clock -----

  lemma SameReportsOk(c: Committee, p: Clock, q: Clock)
    requires SameReports(p, q) && SavedReportsOk(c, p)
    ensures SavedReportsOk(c, q)
  {
    forall n | n in q.reports
      ensures RoundOk(c, q, n, q.reports[n])
    {
      assert RoundOk(c, p, n, p.reports[n]);
    }
  }

  lemma FormedFits(c: Committee, p: Clock, n: nat)
    requires FractionValid(c.prevote) && SavedReportsOk(c, p) && FormedCertificate(c, p, n).Some?
    ensures var cert := FormedCertificate(c, p, n).value;
      cert.chunk == p.chunk && cert.round == n && n > p.round && CertificateOk(c, cert)
  {
    FormedCertificateVerifies(c, p, n);
  }

  lemma AdvanceKeepsReports(c: Committee, p: Clock, n: nat, now: nat)
    requires SavedReportsOk(c, p) && n > p.round
    ensures SavedReportsOk(c, AdvanceRound(p, n, now))
  {
    var q := AdvanceRound(p, n, now);
    SubsetCardinality(q.reports.Keys, p.reports.Keys);
    forall k | k in q.reports
      ensures RoundOk(c, q, k, q.reports[k])
    {
      assert RoundOk(c, p, k, p.reports[k]);
    }
  }

  lemma ClockRulesHold(x: Setting, self: nat)
    requires SettingOk(x, self)
    ensures ClockRulesOk(RulesOf(x, self))
  {
    var c, r := x.committee, RulesOf(x, self);
    assert forall p: Clock :: p.reports == map[] ==> r.clockOk(p);
    forall p, q | SameReports(p, q) && r.clockOk(p)
      ensures r.clockOk(q)
    {
      SameReportsOk(c, p, q);
    }
    forall p, m | r.clockOk(p) && r.accepts(p, m)
      ensures r.clockOk(r.collected(p, m)) && r.collected(p, m) == p.(reports := r.collected(p, m).reports)
    {
      CollectKeepsSavedReportsOk(c, p, m);
    }
    forall p: Clock, n: nat | r.clockOk(p) && r.formed(p, n).Some?
      ensures var cert := r.formed(p, n).value;
        cert.chunk == p.chunk && cert.round == n && n > p.round && r.certOk(cert)
    {
      FormedFits(c, p, n);
    }
    forall p: Clock, n: nat, now: nat | r.clockOk(p) && n > p.round
      ensures r.clockOk(AdvanceRound(p, n, now))
    {
      AdvanceKeepsReports(c, p, n, now);
    }
  }

  lemma RulesHold(x: Setting, self: nat)
    requires SettingOk(x, self)
    ensures RulesOk(RulesOf(x, self))
  {
    var r := RulesOf(x, self);
    QuorumsGrowHere(x, self);
    NothingIsNoQuorum(x, self);
    ClaimsAreOk(x, self);
    forall qc
      ensures QuorumVerifies(r, qc)
    {
      QuorumsVerify(x, self, qc);
    }
    ClockRulesHold(x, self);
    forall h, n, p | r.proposalOk(h, n, p)
      ensures ProposalShape(r, h, n, p)
    {
      ProposalsHaveShape(x, self, h, n, p);
    }
    forall c
      ensures CertificateFits(r, c)
    {
      CertificatesFit(x, self, c);
    }
    forall p
      ensures OwnProposalAccepted(r, p)
    {
      OwnProposalsAccepted(x, self, p);
    }
    forall m
      ensures OwnReportAccepted(r, m)
    {
      OwnReportsAccepted(x, self, m);
    }
  }
}

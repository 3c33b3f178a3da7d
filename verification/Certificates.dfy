/** Verification of signed round reports, round-change certificates and leader proposals. */
module Certificates {
  import opened Types
  import opened Stake

  // ----- what is accepted -----

  /** One report checked on its own: target, active signer, signature and carried certificate. */
  predicate ReportOk(c: Committee, report: Report) {
    && report.round != 0
    && Active(c.validators, report.index)
    && c.reportVerdict(report)
    && (report.highest.Some? ==>
          && report.highest.value.chunk == report.chunk
          && report.highest.value.round < report.round
          && Certifies(c, report.highest.value))
  }

  function Reporters(reports: seq<Report>): set<nat> {
    set k | 0 <= k < |reports| :: reports[k].index
  }

  predicate DistinctReporters(reports: seq<Report>) {
    forall a, b :: 0 <= a < b < |reports| ==> reports[a].index != reports[b].index
  }

  /** Each report is acceptable by itself and has the certificate's target, reporters are distinct and carry quorum
      stake. */
  predicate CertificateOk(c: Committee, cert: Certificate) {
    && FractionValid(c.prevote)
    && DistinctReporters(cert.reports)
    && (forall k :: 0 <= k < |cert.reports| ==>
          cert.reports[k].chunk == cert.chunk && cert.reports[k].round == cert.round && ReportOk(c, cert.reports[k]))
    && QuorumReached(Weight(c.validators, Reporters(cert.reports)), Total(c.validators), c.prevote)
  }

  /** `RoundChangeCertificate::highest_quorum`: the last of the highest-ranked carried certificates. */
  function HighestQuorum(reports: seq<Report>): Option<QuorumCert> {
    if reports == [] then None
    else
      var last, rest := reports[|reports| - 1].highest, HighestQuorum(reports[..|reports| - 1]);
      if last.None? || (rest.Some? && RankBelow(last.value, rest.value)) then rest else last
  }

  /** The carried certificate of a proposal is not below what its round entry reported. */
  predicate CoversHighest(valid: Option<QuorumCert>, highest: Option<QuorumCert>) {
    highest.Some? ==>
      && valid.Some?
      && valid.value.round >= highest.value.round
      && (valid.value.round == highest.value.round ==> valid.value.hash == highest.value.hash)
  }

  /** `set_proposal`: the checks on a leader proposal for `hash` at `round`. */
  predicate ProposalOk(c: Committee, leader: Option<nat>, chunk: nat, hash: Hash, round: nat, p: Proposal) {
    && p.chunk == chunk && p.hash == hash && p.round == round && leader == Some(p.index)
    && Active(c.validators, p.index)
    && c.proposalVerdict(p)
    && (if round == 0 then p.certificate.None?
        else
          && p.certificate.Some?
          && p.certificate.value.chunk == chunk && p.certificate.value.round == round
          && CertificateOk(c, p.certificate.value)
          && CoversHighest(p.valid, HighestQuorum(p.certificate.value.reports)))
    && (p.valid.Some? ==>
          p.valid.value.chunk == chunk && p.valid.value.hash == hash && p.valid.value.round < round
            && Certifies(c, p.valid.value))
  }

  // ----- the highest carried certificate -----

  lemma {:induction false} HighestQuorumIsMaximal(reports: seq<Report>)
    ensures var highest := HighestQuorum(reports);
      && (forall k :: 0 <= k < |reports| && reports[k].highest.Some? ==>
            highest.Some? && !RankBelow(highest.value, reports[k].highest.value))
      && (highest.Some? ==> exists k :: 0 <= k < |reports| && reports[k].highest == highest)
  {
    if reports != [] {
      var n := |reports| - 1;
      var rest := HighestQuorum(reports[..n]);
      HighestQuorumIsMaximal(reports[..n]);
      forall k | 0 <= k < n && reports[k].highest.Some?
        ensures rest.Some? && !RankBelow(rest.value, reports[k].highest.value)
      {
        assert reports[..n][k] == reports[k];
      }
      if rest.Some? {
        var k :| 0 <= k < n && reports[..n][k].highest == rest;
        assert reports[k].highest == rest;
      }
    }
  }

  // ----- verification with a shared list of checked certificates -----

  /** `verify_round_change_native`: a carried certificate that is in `verified` is not checked again; a newly checked
      one is appended. */
  method VerifyRoundChange(c: Committee, report: Report, verified: seq<QuorumCert>) returns (r: Result<seq<QuorumCert>>)
    requires FractionValid(c.prevote)
    requires forall q :: q in verified ==> Certifies(c, q)
    ensures r.Ok? <==> ReportOk(c, report)
    ensures r.Ok? ==> forall q :: q in r.value ==> Certifies(c, q)
    ensures r != Err(StakeOverflow)
  {
    if report.round == 0 {
      return Err(WrongTarget);
    }
    if !Active(c.validators, report.index) {
      return Err(InvalidBits);
    }
    if !c.reportVerdict(report) {
      return Err(InvalidSignature);
    }
    r := Ok(verified);
    if report.highest.Some? {
      var quorum := report.highest.value;
      if quorum.chunk != report.chunk || quorum.round >= report.round {
        return Err(WrongTarget);
      }
      if quorum !in verified {
        if !Certifies(c, quorum) {
          return Err(InvalidQuorum);
        }
        r := Ok(verified + [quorum]);
      }
    }
  }

  /** `verify_round_certificate_native`: one pass that shares checked certificates accepts exactly the
      certificates whose reports are each acceptable alone; the stake sum never overflows. */
  method VerifyRoundCertificate(c: Committee, total: nat, cert: Certificate) returns (r: Result<nat>)
    requires total == Total(c.validators) <= MAX_U64
    ensures r.Ok? <==> CertificateOk(c, cert)
    ensures r.Ok? ==> r.value == Weight(c.validators, Reporters(cert.reports))
    ensures r != Err(StakeOverflow)
  {
    if !FractionValid(c.prevote) {
      return Err(InvalidQuorum);
    }
    var seen: set<nat> := {};
    var verified: seq<QuorumCert> := [];
    var stake := 0;
    WeightEmpty(c.validators, |c.validators|);
    for k := 0 to |cert.reports|
      invariant PrefixOk(c, cert, k)
      invariant seen == Reporters(cert.reports[..k])
      invariant forall q :: q in verified ==> Certifies(c, q)
      invariant stake == Weight(c.validators, seen)
    {
      var report := cert.reports[k];
      if report.chunk != cert.chunk || report.round != cert.round {
        return Err(WrongTarget);
      }
      if report.index in seen {
        DuplicateReporter(cert.reports, k);
        return Err(WrongTarget);
      }
      var checked := VerifyRoundChange(c, report, verified);
      if checked.Err? {
        return Err(checked.violation);
      }
      verified := checked.value;
      AcceptedPrefix(c, cert, k);
      seen := seen + {report.index};
      if stake + c.validators[report.index].stake > MAX_U64 {
        return Err(StakeOverflow);
      }
      stake := stake + c.validators[report.index].stake;
    }
    assert cert.reports[..|cert.reports|] == cert.reports;
    if !QuorumReached(stake, total, c.prevote) {
      return Err(InvalidQuorum);
    }
    r := Ok(stake);
  }

  predicate PrefixOk(c: Committee, cert: Certificate, n: nat)
    requires n <= |cert.reports|
  {
    && DistinctReporters(cert.reports[..n])
    && forall k :: 0 <= k < n ==>
         cert.reports[k].chunk == cert.chunk && cert.reports[k].round == cert.round && ReportOk(c, cert.reports[k])
  }

  lemma DuplicateReporter(reports: seq<Report>, k: nat)
    requires k < |reports| && reports[k].index in Reporters(reports[..k])
    ensures !DistinctReporters(reports)
  {
    var a :| 0 <= a < k && reports[..k][a].index == reports[k].index;
    assert reports[a].index == reports[k].index;
  }

  /** A further acceptable report of a new signer extends the accepted prefix by exactly its stake. */
  lemma AcceptedPrefix(c: Committee, cert: Certificate, k: nat)
    requires k < |cert.reports| && PrefixOk(c, cert, k)
    requires cert.reports[k].index !in Reporters(cert.reports[..k])
    requires cert.reports[k].chunk == cert.chunk && cert.reports[k].round == cert.round && ReportOk(c, cert.reports[k])
    ensures PrefixOk(c, cert, k + 1)
    ensures var i := cert.reports[k].index;
      && Reporters(cert.reports[..k + 1]) == Reporters(cert.reports[..k]) + {i}
      && Weight(c.validators, Reporters(cert.reports[..k + 1])) ==
         Weight(c.validators, Reporters(cert.reports[..k])) + c.validators[i].stake <= Total(c.validators)
  {
    ReportersSnoc(cert.reports, k);
    WeightAdd(c.validators, Reporters(cert.reports[..k]), cert.reports[k].index, |c.validators|);
    WeightBelowTotal(c.validators, Reporters(cert.reports[..k + 1]), |c.validators|);
  }

  lemma ReportersSnoc(reports: seq<Report>, k: nat)
    requires k < |reports| && DistinctReporters(reports[..k]) && reports[k].index !in Reporters(reports[..k])
    ensures Reporters(reports[..k + 1]) == Reporters(reports[..k]) + {reports[k].index}
    ensures DistinctReporters(reports[..k + 1])
  {
    var p, q := reports[..k], reports[..k + 1];
    forall a | 0 <= a < k
      ensures q[a] == p[a] && p[a].index in Reporters(p)
    {
    }
    forall i | i in Reporters(p)
      ensures i in Reporters(q)
    {
      var a :| 0 <= a < k && p[a].index == i;
      assert q[a].index == i;
    }
    assert q[k].index in Reporters(q);
  }

  /** `highest_quorum`: one pass that keeps the later of equally ranked certificates. */
  method FindHighestQuorum(reports: seq<Report>) returns (best: Option<QuorumCert>)
    ensures best == HighestQuorum(reports)
    ensures forall k :: 0 <= k < |reports| && reports[k].highest.Some? ==>
      best.Some? && !RankBelow(best.value, reports[k].highest.value)
  {
    best := None;
    for k := 0 to |reports|
      invariant best == HighestQuorum(reports[..k])
    {
      var carried := reports[k].highest;
      assert reports[..k + 1][..k] == reports[..k];
      if carried.Some? && (best.None? || !RankBelow(carried.value, best.value)) {
        best := carried;
      }
    }
    assert reports[..|reports|] == reports;
    HighestQuorumIsMaximal(reports);
  }

  /** `set_proposal`: accepts exactly the authentic leader proposal of the round, and only one per round. */
  method SetProposal(
    c: Committee, total: nat, leader: Option<nat>, chunk: nat, hash: Hash, round: nat, known: Option<Proposal>,
      p: Proposal)
    returns (r: Result<Proposal>)
    requires total == Total(c.validators) <= MAX_U64 && FractionValid(c.prevote)
    ensures r.Ok? <==> ProposalOk(c, leader, chunk, hash, round, p) && (known.Some? ==> known.value == p)
    ensures r.Ok? ==> r.value == p
  {
    if p.chunk != chunk || p.hash != hash || p.round != round || leader != Some(p.index) {
      return Err(WrongTarget);
    }
    if !Active(c.validators, p.index) {
      return Err(InvalidBits);
    }
    if !c.proposalVerdict(p) {
      return Err(InvalidSignature);
    }
    if (round == 0) != p.certificate.None? {
      return Err(WrongTarget);
    }
    if p.certificate.Some? {
      var cert := p.certificate.value;
      if cert.chunk != chunk || cert.round != round {
        return Err(WrongTarget);
      }
      var verified := VerifyRoundCertificate(c, total, cert);
      if verified.Err? {
        return Err(verified.violation);
      }
      var highest := FindHighestQuorum(cert.reports);
      if !CoversHighest(p.valid, highest) {
        return Err(WrongTarget);
      }
    }
    if p.valid.Some? {
      var quorum := p.valid.value;
      if quorum.chunk != chunk || quorum.hash != hash || quorum.round >= round {
        return Err(WrongTarget);
      }
      if !Certifies(c, quorum) {
        return Err(InvalidQuorum);
      }
    }
    if known.Some? && known.value != p {
      return Err(WrongTarget);
    }
    return Ok(p);
  }
}

/** What the network of drivers guarantees over whole runs: agreement, and that a locked-in value is the only one
    a leader can still propose. */
module LockIn {
  import opened Types
  import opened Stake
  import opened SigningJournal
  import opened Leader
  import opened Certificates
  import opened Session
  import opened SessionInvariant
  import opened Recovery
  import opened NodeSteps
  import opened Agreement
  import opened Context
  import opened Evidence
  import opened Network

  // ----- the locked-in value -----

  /** Some report of the certificate is by an honest precommitter, so the highest reported value is of round `r` or
      later. */
  lemma CertificateReaches(cfg: Config, log: seq<Entry>, cert: Certificate, precommitters: set<nat>, r: nat, v: Hash)
    requires ConfigOk(cfg) && ReportsCover(log)
    requires HasQuorum(cfg.committee.validators, precommitters, cfg.committee.precommit)
    requires AllVoted(cfg, log, precommitters, r, v, Precommit)
    requires CertificateOk(cfg.committee, cert) && CertBacked(EvidenceOf(cfg, log), Some(cert)) && cert.round > r
    ensures HighestQuorum(cert.reports).Some? && HighestQuorum(cert.reports).value.round >= r
  {
    var vs := cfg.committee.validators;
    var h := QuorumsMeet(vs, precommitters, cfg.committee.precommit, Reporters(cert.reports), cfg.committee.prevote,
      cfg.faulty);
    var k :| 0 <= k < |cert.reports| && cert.reports[k].index == h;
    var report := cert.reports[k];
    assert ReportBacked(EvidenceOf(cfg, log), report);
    assert Voted(log, h, r, v, Precommit);
    var j :| 0 <= j < |log| && IsVote(log[j], h, r, v, Precommit);
    var i :| 0 <= i < |log| && log[i] == ReportEntry(report);
    assert ReportCovers(log[i].what.message, r);
    HighestQuorumIsMaximal(cert.reports);
  }

  /** Once `v` has a precommit quorum at `r`, an accepted proposal of any later round proposes `v`. */
  lemma OnlyLockedProposals(
    cfg: Config, log: seq<Entry>, precommitters: set<nat>, r: nat, v: Hash, leader: Option<nat>, hash: Hash, round: nat,
      p: Proposal)
    requires ConfigOk(cfg) && LogOk(cfg, log) && ReportsCover(log)
    requires HasQuorum(cfg.committee.validators, precommitters, cfg.committee.precommit)
    requires AllVoted(cfg, log, precommitters, r, v, Precommit)
    requires ProposalOk(cfg.committee, leader, cfg.chunk, hash, round, p) && ProposalBacked(EvidenceOf(cfg, log), p)
    requires round > r
    ensures hash == v
  {
    CertificateReaches(cfg, log, p.certificate.value, precommitters, r, v);
    GenuineIsFormed(cfg, log, p.valid.value);
    assert log[..|log|] == log;
    PrecommitQuorumExcludes(cfg, log, |log|, precommitters, r, v, p.valid.value.round, hash);
  }

  predicate PrecommitQuorum(cfg: Config, log: seq<Entry>, signers: set<nat>, r: nat, v: Hash) {
    HasQuorum(cfg.committee.validators, signers, cfg.committee.precommit)
      && AllVoted(cfg, log, signers, r, v, Precommit)
  }

  /** Lock-in over whole runs: if `v` gathers a precommit quorum at round `r` at any time, then every proposal any
      honest validator has accepted, at any time, for a round after `r` proposes `v`. */
  lemma LockIn(
    x: Setting, faulty: set<nat>, worlds: seq<World>, events: seq<Event>,
    m: nat, precommitters: set<nat>, r: nat, v: Hash, n: nat, u: nat)
    requires ConfigOk(ConfigOf(x, faulty)) && IsNetworkRun(x, faulty, worlds, events) && m < |worlds| && n < |worlds|
    requires PrecommitQuorum(ConfigOf(x, faulty), worlds[m].log, precommitters, r, v)
    requires u in worlds[n].nodes && worlds[n].nodes[u].work.ballot.proposal.Some?
      && worlds[n].nodes[u].work.ballot.round > r
    ensures worlds[n].nodes[u].work.ballot.proposal.value.hash == v
    ensures worlds[n].nodes[u].work.ballot.target == v
  {
    var cfg, k := ConfigOf(x, faulty), |worlds| - 1;
    NetworkRunKeepsInv(x, faulty, worlds, events, k);
    NetworkRunKeepsInv(x, faulty, worlds, events, n);
    NetworkLogsGrow(x, faulty, worlds, events, m, k);
    NetworkLogsGrow(x, faulty, worlds, events, n, k);
    AllVotedGrows(cfg, worlds[m].log, worlds[k].log, precommitters, r, v, Precommit);
    AcceptedIsLocked(x, faulty, worlds[n], u, worlds[k].log, precommitters, r, v);
  }

  lemma AcceptedIsLocked(
    x: Setting, faulty: set<nat>, w: World, u: nat, log: seq<Entry>, precommitters: set<nat>, r: nat, v: Hash)
    requires ConfigOk(ConfigOf(x, faulty)) && NodesOk(x, faulty, w) && w.log <= log
    requires LogOk(ConfigOf(x, faulty), log) && ReportsCover(log)
    requires PrecommitQuorum(ConfigOf(x, faulty), log, precommitters, r, v)
    requires u in w.nodes && w.nodes[u].work.ballot.proposal.Some? && w.nodes[u].work.ballot.round > r
    ensures w.nodes[u].work.ballot.proposal.value.hash == v && w.nodes[u].work.ballot.target == v
  {
    var cfg, b := ConfigOf(x, faulty), w.nodes[u].work.ballot;
    assert NodeOk(x, faulty, w.log, u, w.nodes[u]);
    EvidenceGrows(cfg, w.log, log);
    SessionBackedGrows(EvidenceOf(cfg, w.log), EvidenceOf(cfg, log), w.nodes[u].work);
    OnlyLockedProposals(
      cfg, log, precommitters, r, v, LeaderOf(x.committee.validators, x.digest, b.round), b.target, b.round,
        b.proposal.value);
  }

  // ----- agreement of the drivers -----

  function CertificateOf(b: Ballot): FinalityCert {
    FinalityCert(b.round, b.target, b.prevotes, b.precommits)
  }

  lemma CompleteBallotFinalizes(x: Setting, faulty: set<nat>, log: seq<Entry>, u: nat, b: Ballot)
    requires VotesAccepted(RulesOf(x, u), b) && Complete(RulesOf(x, u), b)
    requires BallotBacked(EvidenceOf(ConfigOf(x, faulty), log), b)
    ensures Finalizes(ConfigOf(x, faulty), log, CertificateOf(b))
  {
    CountedAreActive(x, u, b);
  }

  lemma CompleteFinalizes(x: Setting, faulty: set<nat>, w: World, u: nat)
    requires NodesOk(x, faulty, w) && u in w.nodes && Complete(RulesOf(x, u), w.nodes[u].work.ballot)
    ensures Finalizes(ConfigOf(x, faulty), w.log, CertificateOf(w.nodes[u].work.ballot))
  {
    assert NodeOk(x, faulty, w.log, u, w.nodes[u]);
    CompleteBallotFinalizes(x, faulty, w.log, u, w.nodes[u].work.ballot);
  }

  /** Agreement of the drivers: any two validators that ever hold a finality certificate hold it for the same chunk. */
  lemma DriversAgree(
    x: Setting, faulty: set<nat>, worlds: seq<World>, events: seq<Event>, m: nat, u: nat, n: nat, v: nat)
    requires ConfigOk(ConfigOf(x, faulty)) && IsNetworkRun(x, faulty, worlds, events) && m < |worlds| && n < |worlds|
    requires u in worlds[m].nodes && Complete(RulesOf(x, u), worlds[m].nodes[u].work.ballot)
    requires v in worlds[n].nodes && Complete(RulesOf(x, v), worlds[n].nodes[v].work.ballot)
    ensures worlds[m].nodes[u].work.ballot.target == worlds[n].nodes[v].work.ballot.target
  {
    var cfg, k := ConfigOf(x, faulty), |worlds| - 1;
    NetworkRunKeepsInv(x, faulty, worlds, events, k);
    NetworkRunKeepsInv(x, faulty, worlds, events, m);
    NetworkRunKeepsInv(x, faulty, worlds, events, n);
    CompleteFinalizes(x, faulty, worlds[m], u);
    CompleteFinalizes(x, faulty, worlds[n], v);
    NetworkLogsGrow(x, faulty, worlds, events, m, k);
    NetworkLogsGrow(x, faulty, worlds, events, n, k);
    OneCertificate(cfg, worlds[k].log, worlds[m].log, CertificateOf(worlds[m].nodes[u].work.ballot),
                   worlds[n].log, CertificateOf(worlds[n].nodes[v].work.ballot));
  }

  // ----- crash recovery -----

  /** After a crash at any point of any run, the saved session is restored exactly if and only if each of its nonempty
      aggregates decodes; recovery then re-signs exactly the reserved votes of its round without changing the journal,
      and no refusal is reachable. */
  lemma CrashRecovers(x: Setting, faulty: set<nat>, worlds: seq<World>, events: seq<Event>, n: nat, u: nat)
    requires IsNetworkRun(x, faulty, worlds, events) && n < |worlds| && u in worlds[n].nodes
    ensures var r, saved, j := RulesOf(x, u), worlds[n].nodes[u].saved, worlds[n].nodes[u].journal;
      var restored := AdvancePeer(r, saved.(peer := BelowPrevote));
      && Restore(r, saved, j) == (if AggregatesDecode(r, saved.ballot) then Ok(restored) else Err(Corrupt))
      && Recover(r, restored, j).Ok? && RecoveryExact(r, restored, j, Recover(r, restored, j).value)
  {
    var r, node := RulesOf(x, u), worlds[n].nodes[u];
    NetworkRunKeepsInv(x, faulty, worlds, events, n);
    assert NodeOk(x, faulty, worlds[n].log, u, node);
    RulesHold(x, u);
    RestoreIsExact(r, node.saved, node.journal);
    RecoverIsExact(r, AdvancePeer(r, node.saved.(peer := BelowPrevote)), node.journal);
  }

  /** The aggregate is absent or has an honest signer. */
  predicate HonestlySigned(faulty: set<nat>, signers: set<nat>) {
    signers != {} ==> exists i :: i in signers && i !in faulty
  }

  predicate HonestAggregates(faulty: set<nat>, b: Ballot) {
    && HonestlySigned(faulty, b.prevotes) && HonestlySigned(faulty, b.precommits)
    && HonestlySigned(faulty, b.nilPrevotes) && HonestlySigned(faulty, b.nilPrecommits)
  }

  /** When only faulty keys can cancel, a saved session whose aggregates each have an honest signer always restarts. */
  lemma HonestAggregatesRestart(x: Setting, faulty: set<nat>, worlds: seq<World>, events: seq<Event>, n: nat, u: nat)
    requires HonestDecode(x.committee, faulty)
    requires IsNetworkRun(x, faulty, worlds, events) && n < |worlds| && u in worlds[n].nodes
    requires HonestAggregates(faulty, worlds[n].nodes[u].saved.ballot)
    ensures AggregatesDecode(RulesOf(x, u), worlds[n].nodes[u].saved.ballot)
    ensures Restore(RulesOf(x, u), worlds[n].nodes[u].saved, worlds[n].nodes[u].journal).Ok?
  {
    NetworkRunKeepsInv(x, faulty, worlds, events, n);
    SavedVotesAccepted(x, faulty, worlds[n], u);
    HonestAggregatesDecode(x, faulty, u, worlds[n].nodes[u].saved.ballot);
    CrashRecovers(x, faulty, worlds, events, n, u);
  }

  lemma SavedVotesAccepted(x: Setting, faulty: set<nat>, w: World, u: nat)
    requires NodesOk(x, faulty, w) && u in w.nodes
    ensures VotesAccepted(RulesOf(x, u), w.nodes[u].saved.ballot)
  {
    assert NodeOk(x, faulty, w.log, u, w.nodes[u]);
  }

  lemma HonestAggregatesDecode(x: Setting, faulty: set<nat>, u: nat, b: Ballot)
    requires HonestDecode(x.committee, faulty) && VotesAccepted(RulesOf(x, u), b) && HonestAggregates(faulty, b)
    ensures AggregatesDecode(RulesOf(x, u), b)
  {
    CountedAreActive(x, u, b);
  }

  lemma CountedAreActive(x: Setting, u: nat, b: Ballot)
    requires VotesAccepted(RulesOf(x, u), b)
    ensures AllActive(x.committee.validators, b.prevotes) && AllActive(x.committee.validators, b.precommits)
    ensures AllActive(x.committee.validators, b.nilPrevotes) && AllActive(x.committee.validators, b.nilPrecommits)
  {
  }

  // ----- reserved proposals -----

  lemma GenuineHaveNoRival(cfg: Config, log: seq<Entry>, a: QuorumCert, b: QuorumCert)
    requires ConfigOk(cfg) && LogOk(cfg, log)
    requires Certifies(cfg.committee, a) && Certifies(cfg.committee, b) && Genuine(cfg, log, a) && Genuine(cfg, log, b)
    ensures NoRival(Some(a), Some(b))
  {
    if a.round == b.round {
      GenuineIsFormed(cfg, log, a);
      GenuineIsFormed(cfg, log, b);
      OnePrevoteQuorumPerRound(cfg, log, log, log, a.round, a.hash, b.hash);
    }
  }

  /** A leader proposal that was reserved before a crash is accepted again by the restarted session. */
  lemma ReservedProposalIsAccepted(x: Setting, faulty: set<nat>, w: World, u: nat)
    requires ConfigOk(ConfigOf(x, faulty)) && NetworkInv(x, faulty, w) && u in w.nodes
    requires MessageSlot(ProposalKind, w.nodes[u].work.ballot.round) in w.nodes[u].journal.messages
    ensures var message := w.nodes[u].journal.messages[MessageSlot(ProposalKind, w.nodes[u].work.ballot.round)];
      message.ProposalMessage?
      && RulesOf(x, u).proposalOk(message.proposal.hash, w.nodes[u].work.ballot.round, message.proposal)
  {
    var cfg, r, n := ConfigOf(x, faulty), RulesOf(x, u), w.nodes[u];
    assert NodeOk(x, faulty, w.log, u, n);
    var p := n.journal.messages[MessageSlot(ProposalKind, n.work.ballot.round)].proposal;
    RulesHold(x, u);
    OwnProposalIsAccepted(x, faulty, w.log, u, n.work.ballot.round, p);
  }

  lemma OwnProposalIsAccepted(x: Setting, faulty: set<nat>, log: seq<Entry>, u: nat, round: nat, p: Proposal)
    requires ConfigOk(ConfigOf(x, faulty)) && LogOk(ConfigOf(x, faulty), log) && RulesOk(RulesOf(x, u))
    requires OwnProposal(RulesOf(x, u), round, p) && ProposalBacked(EvidenceOf(ConfigOf(x, faulty), log), p)
    ensures RulesOf(x, u).proposalOk(p.hash, round, p)
  {
    var cfg, r := ConfigOf(x, faulty), RulesOf(x, u);
    var required := HighestOf(r, p.certificate);
    if required.Some? {
      assert CertificateFits(r, p.certificate.value);
      HighestIsBacked(EvidenceOf(cfg, log), p.certificate.value);
      GenuineHaveNoRival(cfg, log, p.valid.value, required.value);
    }
    assert OwnProposalAccepted(r, p);
  }
}

/** Everything a session holds is backed by what honest validators really signed. */
module Evidence {
  import opened Types
  import opened SigningJournal
  import opened Pacemaker
  import opened Session
  import opened Candidates
  import opened JournalGrowth
  import opened SessionInvariant
  import opened SessionSteps
  import opened SigningSteps
  import opened Recovery
  import opened NodeSteps

  /** `cast`: each honest member of the set cast this vote; `filed`: an honest reporter signed this report. */
  datatype Evidence = Evidence(cast: (set<nat>, nat, Hash, Phase) -> bool, filed: Report -> bool)

  ghost predicate EvidenceOk(e: Evidence) {
    && (forall round, hash, phase :: e.cast({}, round, hash, phase))
    && (forall a, b, round, hash, phase :: e.cast(a, round, hash, phase) && e.cast(b, round, hash, phase) ==>
          e.cast(a + b, round, hash, phase))
  }

  /** Evidence only accumulates. */
  ghost predicate Grows(e: Evidence, f: Evidence) {
    && (forall a, round, hash, phase :: e.cast(a, round, hash, phase) ==> f.cast(a, round, hash, phase))
    && (forall m :: e.filed(m) ==> f.filed(m))
  }

  predicate Backed(e: Evidence, qc: Option<QuorumCert>) {
    qc.Some? ==> e.cast(qc.value.signers, qc.value.round, qc.value.hash, Prevote)
  }

  predicate ReportBacked(e: Evidence, m: Report) {
    e.filed(m) && Backed(e, m.highest)
  }

  predicate CertBacked(e: Evidence, cert: Option<Certificate>) {
    cert.Some? ==> forall k :: 0 <= k < |cert.value.reports| ==> ReportBacked(e, cert.value.reports[k])
  }

  predicate ClockBacked(e: Evidence, p: Clock) {
    forall n :: n in p.reports ==> forall i :: i in p.reports[n] ==> ReportBacked(e, p.reports[n][i])
  }

  predicate ProposalBacked(e: Evidence, p: Proposal) {
    Backed(e, p.valid) && CertBacked(e, p.certificate)
  }

  predicate BallotBacked(e: Evidence, b: Ballot) {
    && e.cast(b.prevotes, b.round, b.target, Prevote)
    && e.cast(b.precommits, b.round, b.target, Precommit)
    && Backed(e, b.justification)
    && CertBacked(e, b.certificate)
    && (b.proposal.Some? ==> ProposalBacked(e, b.proposal.value))
  }

  predicate SessionBacked(e: Evidence, s: BftSession) {
    && BallotBacked(e, s.ballot)
    && Backed(e, s.lock) && Backed(e, s.valid)
    && ClockBacked(e, s.clock)
  }

  /** The journal's own votes were signed, and its lock and reserved proposal carry only genuine certificates. */
  predicate JournalBacked(e: Evidence, self: nat, j: ChunkJournal) {
    && (forall s :: s in j.intents ==>
          var data := j.intents[s].data; e.cast({self}, data.round, data.hash, data.phase))
    && Backed(e, LockOf(j))
    && (forall s :: s in j.messages && j.messages[s].ProposalMessage? ==> ProposalBacked(e, j.messages[s].proposal))
  }

  predicate NodeBacked(e: Evidence, self: nat, n: Node) {
    SessionBacked(e, n.work) && SessionBacked(e, n.mem) && SessionBacked(e, n.saved)
      && JournalBacked(e, self, n.journal)
  }

  // ----- growth -----

  lemma BackedGrows(e: Evidence, f: Evidence, self: nat, n: Node)
    requires Grows(e, f) && NodeBacked(e, self, n)
    ensures NodeBacked(f, self, n)
  {
    SessionBackedGrows(e, f, n.work);
    SessionBackedGrows(e, f, n.mem);
    SessionBackedGrows(e, f, n.saved);
    JournalBackedGrows(e, f, self, n.journal);
  }

  lemma SessionBackedGrows(e: Evidence, f: Evidence, s: BftSession)
    requires Grows(e, f) && SessionBacked(e, s)
    ensures SessionBacked(f, s)
  {
    CertBackedGrows(e, f, s.ballot.certificate);
    if s.ballot.proposal.Some? {
      CertBackedGrows(e, f, s.ballot.proposal.value.certificate);
    }
    forall n | n in s.clock.reports
      ensures forall i :: i in s.clock.reports[n] ==> ReportBacked(f, s.clock.reports[n][i])
    {
      forall i | i in s.clock.reports[n]
        ensures ReportBacked(f, s.clock.reports[n][i])
      {
        assert ReportBacked(e, s.clock.reports[n][i]);
      }
    }
  }

  lemma CertBackedGrows(e: Evidence, f: Evidence, cert: Option<Certificate>)
    requires Grows(e, f) && CertBacked(e, cert)
    ensures CertBacked(f, cert)
  {
    if cert.Some? {
      forall k | 0 <= k < |cert.value.reports|
        ensures ReportBacked(f, cert.value.reports[k])
      {
        assert ReportBacked(e, cert.value.reports[k]);
      }
    }
  }

  // ----- steps that do not sign -----

  /** The checks hand out only what they were given. */
  ghost predicate RulesBacked(r: Rules, e: Evidence) {
    && (forall cert :: CertBacked(e, Some(cert)) ==> Backed(e, r.highest(cert)))
    && (forall p, m :: r.accepts(p, m) && ClockBacked(e, p) && ReportBacked(e, m) ==> ClockBacked(e, r.collected(p, m)))
  }

  /** The foreign artifacts of a step are genuine. */
  predicate LabelBacked(e: Evidence, b: Ballot, l: Label) {
    match l
    case CountVotes(phase, signers) => e.cast(signers, b.round, b.target, phase)
    case KeepValid(qc) => Backed(e, Some(qc))
    case TakeProposal(p, _) => ProposalBacked(e, p)
    case CollectReport(m) => ReportBacked(e, m)
    case EnterCertified(cert, _) => CertBacked(e, Some(cert))
    case _ => true
  }

  lemma RememberKeepsBacked(r: Rules, e: Evidence, s: BftSession, qc: Option<QuorumCert>)
    requires SessionBacked(e, s) && Backed(e, qc)
    ensures SessionBacked(e, RememberOptional(r, s, qc))
    ensures RememberOptional(r, s, qc).ballot == s.ballot && RememberOptional(r, s, qc).clock == s.clock
  {
  }

  lemma AcceptKeepsBacked(r: Rules, e: Evidence, s: BftSession, p: Proposal, now: nat)
    requires SessionBacked(e, s) && ProposalBacked(e, p)
    ensures SessionBacked(e, AcceptProposal(r, s, p, now))
  {
    RememberKeepsBacked(r, e, s, p.valid);
  }

  lemma EnterKeepsBacked(r: Rules, e: Evidence, s: BftSession, cert: Certificate, now: nat)
    requires EvidenceOk(e) && RulesBacked(r, e) && SessionBacked(e, s) && CertBacked(e, Some(cert))
      && cert.round > s.clock.round
    ensures SessionBacked(e, EnterRound(r, s, cert, now))
  {
    RememberKeepsBacked(r, e, s, KnownHighest(r, s, cert));
  }

  lemma RecoverKeepsBacked(r: Rules, e: Evidence, s: BftSession, j: ChunkJournal, out: Outcome)
    requires EvidenceOk(e) && SessionBacked(e, s) && JournalBacked(e, r.self, j)
    requires RecoveryExact(r, s, j, out)
    ensures SessionBacked(e, out.session)
  {
    var b, to := s.ballot, out.session.ballot;
    assert e.cast(OwnVoter(r, to, Prevote), b.round, b.target, Prevote) by {
      assert Prevote in to.localVotes ==> j.intents[Slot(b.round, Prevote)] == PrevoteIntent(r, to);
    }
    assert e.cast(OwnVoter(r, to, Precommit), b.round, b.target, Precommit) by {
      assert Precommit in to.localVotes ==> PrecommitFits(r, to, j.intents[Slot(b.round, Precommit)]);
    }
  }

  lemma CountKeepsBacked(e: Evidence, s: BftSession, phase: Phase, signers: set<nat>)
    requires EvidenceOk(e) && SessionBacked(e, s) && e.cast(signers, s.ballot.round, s.ballot.target, phase)
    ensures SessionBacked(e, s.(ballot := AddVotes(s.ballot, phase, signers)))
  {
  }

  lemma RetargetKeepsBacked(r: Rules, e: Evidence, s: BftSession, hash: Hash)
    requires EvidenceOk(e) && SessionBacked(e, s)
    ensures SessionBacked(e, ResetTarget(r, s, hash))
  {
  }

  lemma PhaseKeepsBacked(e: Evidence, s: BftSession, clock: Clock)
    requires SessionBacked(e, s) && SameReports(s.clock, clock)
    ensures SessionBacked(e, s.(clock := clock))
  {
  }

  lemma CrashKeepsBacked(r: Rules, e: Evidence, n: Node)
    requires RulesOk(r) && NodeInv(r, n) && SessionBacked(e, n.saved) && Restore(r, n.saved, n.journal).Ok?
    ensures SessionBacked(e, Restore(r, n.saved, n.journal).value)
  {
    RestoreIsExact(r, n.saved, n.journal);
  }

  /** The working session after a step that does not sign. */
  lemma WorkKeepsBacked(r: Rules, e: Evidence, n: Node, l: Label, t: Node)
    requires EvidenceOk(e) && RulesBacked(r, e) && SessionBacked(e, n.work) && SessionBacked(e, n.mem)
    requires UpdateStep(r, n, l, t) && LabelBacked(e, n.work.ballot, l) && !l.RecoverSigning? && !l.Crash?
    ensures SessionBacked(e, t.work)
  {
    var s := n.work;
    match l
    case CountVotes(phase, signers) => CountKeepsBacked(e, s, phase, signers);
    case KeepValid(qc) => RememberKeepsBacked(r, e, s, Some(qc));
    case Retarget(hash) => RetargetKeepsBacked(r, e, s, hash);
    case TakeProposal(p, now) => AcceptKeepsBacked(r, e, s, p, now);
    case MovePhase(clock) => PhaseKeepsBacked(e, s, clock);
    case EnterCertified(cert, now) => EnterKeepsBacked(r, e, s, cert, now);
    case _ =>
  }

  lemma UpdateKeepsBacked(r: Rules, e: Evidence, n: Node, l: Label, t: Node)
    requires RulesOk(r) && NodeInv(r, n) && EvidenceOk(e) && RulesBacked(r, e) && NodeBacked(e, r.self, n)
    requires UpdateStep(r, n, l, t) && LabelBacked(e, n.work.ballot, l)
    ensures NodeBacked(e, r.self, t)
  {
    if l.RecoverSigning? {
      RecoverIsExact(r, n.work, n.journal);
      RecoverKeepsBacked(r, e, n.work, n.journal, Recover(r, n.work, n.journal).value);
    } else if l.Crash? {
      CrashKeepsBacked(r, e, n);
    } else {
      WorkKeepsBacked(r, e, n, l, t);
    }
  }

  // ----- steps that sign -----

  /** The vote of a signing step is in the evidence after it. */
  predicate OwnVoteCast(f: Evidence, self: nat, b: Ballot, l: Label) {
    && (l.SignPrevote? ==> f.cast({self}, b.round, b.target, Prevote))
    && (l.SignPrecommit? ==> f.cast({self}, b.round, b.target, Precommit))
  }

  lemma JournalBackedGrows(e: Evidence, f: Evidence, self: nat, j: ChunkJournal)
    requires Grows(e, f) && JournalBacked(e, self, j)
    ensures JournalBacked(f, self, j)
  {
    forall s | s in j.messages && j.messages[s].ProposalMessage?
      ensures ProposalBacked(f, j.messages[s].proposal)
    {
      CertBackedGrows(e, f, j.messages[s].proposal.certificate);
    }
  }

  lemma VoteKeepsJournalBacked(f: Evidence, self: nat, j: ChunkJournal, next: ChunkJournal, intent: VoteIntent)
    requires JournalBacked(f, self, j) && VoteAdded(j, next, intent)
    requires f.cast({self}, intent.data.round, intent.data.hash, intent.data.phase)
    requires intent.data.phase == Precommit ==> Backed(f, intent.unlock)
    ensures JournalBacked(f, self, next)
  {
  }

  lemma NilKeepsJournalBacked(f: Evidence, self: nat, j: ChunkJournal, next: ChunkJournal, nil: NilIntent)
    requires JournalBacked(f, self, j) && NilAdded(j, next, nil)
    ensures JournalBacked(f, self, next)
  {
  }

  lemma MessageKeepsJournalBacked(
    f: Evidence, self: nat, j: ChunkJournal, next: ChunkJournal, kind: MessageKind, round: nat, message: Message)
    requires JournalBacked(f, self, j) && MessageAdded(j, next, kind, round, message)
    requires message.ProposalMessage? ==> ProposalBacked(f, message.proposal)
    ensures JournalBacked(f, self, next)
  {
  }

  lemma SigningKeepsJournalBacked(r: Rules, f: Evidence, n: Node, l: Label, t: Node)
    requires NodeInv(r, n) && SignStep(r, n, l, t)
    requires SessionBacked(f, n.work) && JournalBacked(f, r.self, n.journal) && OwnVoteCast(f, r.self, n.work.ballot, l)
    ensures JournalBacked(f, r.self, t.journal)
  {
    var j, b, next := n.journal, n.work.ballot, t.journal;
    match l
    case SignPrevote =>
      SignVoteGrows(r, j, PrevoteIntent(r, b));
      VoteKeepsJournalBacked(f, r.self, j, next, PrevoteIntent(r, b));
    case SignPrecommit =>
      SignVoteGrows(r, j, PrecommitIntent(r, b));
      VoteKeepsJournalBacked(f, r.self, j, next, PrecommitIntent(r, b));
    case SignNilVote(phase) =>
      SignNilGrows(r, j, NilIntent(b.round, phase, r.self));
      NilKeepsJournalBacked(f, r.self, j, next, NilIntent(b.round, phase, r.self));
    case SignProposal(p) =>
      ReserveGrows(r, j, ProposalKind, b.round, ProposalMessage(p));
      MessageKeepsJournalBacked(f, r.self, j, next, ProposalKind, b.round, ProposalMessage(p));
    case SignReport =>
      var report := ReportIntent(r, n.work);
      ReserveGrows(r, j, ReportKind, b.round + 1, ReportMessage(report));
      MessageKeepsJournalBacked(f, r.self, j, next, ReportKind, b.round + 1, ReportMessage(report));
  }

  lemma RecordKeepsBacked(r: Rules, f: Evidence, s: BftSession, l: Label)
    requires EvidenceOk(f) && SessionBacked(f, s) && OwnVoteCast(f, r.self, s.ballot, l)
    ensures SessionBacked(f, AfterSigning(r, s, l))
  {
  }

  lemma SignKeepsBacked(r: Rules, e: Evidence, f: Evidence, n: Node, l: Label, t: Node)
    requires NodeInv(r, n) && SignStep(r, n, l, t) && NodeBacked(e, r.self, n)
    requires EvidenceOk(f) && Grows(e, f) && OwnVoteCast(f, r.self, n.work.ballot, l)
    ensures NodeBacked(f, r.self, t)
  {
    BackedGrows(e, f, r.self, n);
    SigningKeepsJournalBacked(r, f, n, l, t);
    RecordKeepsBacked(r, f, n.work, l);
  }
}

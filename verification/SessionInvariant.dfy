/** What every reachable session satisfies, alone and against the signing journal. */
module SessionInvariant {
  import opened Types
  import opened SigningJournal
  import opened Certificates
  import opened Pacemaker
  import opened Session
  import opened Candidates
  import opened JournalGrowth

  // ----- what the checks guarantee -----

  predicate QuorumFits(r: Rules, qc: Option<QuorumCert>, round: nat) {
    qc.Some? ==> qc.value.chunk == r.chunk && qc.value.round < round && r.certifies(qc.value)
  }

  predicate ProposalShape(r: Rules, hash: Hash, round: nat, p: Proposal) {
    && p.hash == hash && p.round == round
    && QuorumFits(r, p.valid, round)
    && (p.valid.Some? ==> p.valid.value.hash == hash)
    && (round > 0 <==> p.certificate.Some?)
    && (p.certificate.Some? ==>
          p.certificate.value.chunk == r.chunk && p.certificate.value.round == round && r.certOk(p.certificate.value))
  }

  /** `start_bft_leader_proposal`: the known valid value is not below the certificate's highest. */
  predicate Outranks(r: Rules, valid: Option<QuorumCert>, cert: Option<Certificate>) {
    var required := HighestOf(r, cert);
    required.Some? ==> valid.Some? && !RankBelow(valid.value, required.value)
  }

  /** Two certificates of one round name one value. */
  predicate NoRival(a: Option<QuorumCert>, b: Option<QuorumCert>) {
    a.Some? && b.Some? && a.value.round == b.value.round ==> a.value.hash == b.value.hash
  }

  /** What the local leader signs in `round`. */
  predicate OwnProposal(r: Rules, round: nat, p: Proposal) {
    && p.index == r.self && p.chunk == r.chunk && r.leads(round)
    && ProposalShape(r, p.hash, round, p) && Outranks(r, p.valid, p.certificate)
  }

  /** What the local leader signs is accepted by the checks of its own session. */
  predicate OwnProposalAccepted(r: Rules, p: Proposal) {
    p.index == r.self && p.chunk == r.chunk && r.leads(p.round)
    && ProposalShape(r, p.hash, p.round, p) && CoversHighest(p.valid, HighestOf(r, p.certificate)) ==>
      r.proposalOk(p.hash, p.round, p)
  }

  predicate OwnReportAccepted(r: Rules, report: Report) {
    report.index == r.self && report.chunk == r.chunk && report.round > 0
      && QuorumFits(r, report.highest, report.round) ==>
      r.reportOk(report)
  }

  /** A quorum of verified prevote claims verifies as a certificate. */
  predicate QuorumVerifies(r: Rules, qc: QuorumCert) {
    qc.chunk == r.chunk && r.prevoteQuorum(qc.signers)
      && r.claims(VoteData(r.chunk, qc.round, qc.hash, Prevote), qc.signers) ==>
      r.certifies(qc)
  }

  /** Every accumulated signer's claim was verified, and a prevote quorum of them is a certificate. */
  predicate VotesAccepted(r: Rules, b: Ballot) {
    && r.claims(VoteTarget(r, b, Prevote), b.prevotes) && r.claims(VoteTarget(r, b, Precommit), b.precommits)
    && r.nilClaims(b.round, Prevote, b.nilPrevotes) && r.nilClaims(b.round, Precommit, b.nilPrecommits)
    && (r.prevoteQuorum(b.prevotes) ==> r.certifies(CurrentQuorum(r, b)))
  }

  /** Verified claims stay verified in a union, and the local validator's own votes verify. */
  ghost predicate ClaimsOk(r: Rules) {
    && (forall d :: r.claims(d, {}))
    && (forall d, a, b :: r.claims(d, a) && r.claims(d, b) ==> r.claims(d, a + b))
    && (forall n, p :: r.nilClaims(n, p, {}))
    && (forall n, p, a, b :: r.nilClaims(n, p, a) && r.nilClaims(n, p, b) ==> r.nilClaims(n, p, a + b))
    && OwnVotesVerify(r)
  }

  ghost predicate OwnVotesVerify(r: Rules) {
    && (forall d: VoteData :: d.chunk == r.chunk ==> VoteVerifies(r, d, {r.self}))
    && (forall n, p :: NilVerifies(r, n, p, {r.self}))
  }

  predicate SameReports(p: Clock, q: Clock) {
    p.chunk == q.chunk && p.round == q.round && p.reports == q.reports
  }

  predicate CertificateFits(r: Rules, cert: Certificate) {
    r.certOk(cert) && cert.chunk == r.chunk ==> QuorumFits(r, r.highest(cert), cert.round)
  }

  ghost predicate QuorumsGrow(r: Rules) {
    && (forall a, b :: a <= b && r.prevoteQuorum(a) ==> r.prevoteQuorum(b))
    && (forall a, b :: a <= b && r.precommitQuorum(a) ==> r.precommitQuorum(b))
  }

  ghost predicate RulesOk(r: Rules) {
    && (forall h, n, p :: r.proposalOk(h, n, p) ==> ProposalShape(r, h, n, p))
    && (forall c :: CertificateFits(r, c))
    && !r.prevoteQuorum({})
    && QuorumsGrow(r)
    && ClaimsOk(r)
    && (forall qc :: QuorumVerifies(r, qc))
    && (forall p :: OwnProposalAccepted(r, p))
    && (forall m :: OwnReportAccepted(r, m))
    && ClockRulesOk(r)
  }

  ghost predicate ClockRulesOk(r: Rules) {
    && (forall p: Clock :: p.reports == map[] ==> r.clockOk(p))
    && (forall p, q :: SameReports(p, q) && r.clockOk(p) ==> r.clockOk(q))
    && (forall p, m :: r.clockOk(p) && r.accepts(p, m) ==>
          r.clockOk(r.collected(p, m)) && r.collected(p, m) == p.(reports := r.collected(p, m).reports))
    && (forall p: Clock, n: nat :: r.clockOk(p) && r.formed(p, n).Some? ==>
          var cert := r.formed(p, n).value; cert.chunk == p.chunk && cert.round == n && n > p.round && r.certOk(cert))
    && (forall p: Clock, n: nat, now: nat :: r.clockOk(p) && n > p.round ==> r.clockOk(AdvanceRound(p, n, now)))
  }

  // ----- the session alone -----

  predicate BallotOk(r: Rules, b: Ballot) {
    && b.proofs == ProofsOf(r, b.target)
    && RoundEntered(r, b.round, b.certificate)
    && ProposalKept(r, b)
    && VotesAccepted(r, b)
  }

  predicate RoundEntered(r: Rules, round: nat, cert: Option<Certificate>) {
    && (round > 0 <==> cert.Some?)
    && (cert.Some? ==> cert.value.chunk == r.chunk && cert.value.round == round && r.certOk(cert.value))
  }

  predicate ProposalKept(r: Rules, b: Ballot) {
    if b.proposal.Some? then
      && r.proposalOk(b.target, b.round, b.proposal.value)
      && b.justification == b.proposal.value.valid && b.certificate == b.proposal.value.certificate
    else b.justification.None?
  }

  predicate ValidKept(r: Rules, valid: Option<QuorumCert>, candidates: set<Hash>, round: nat) {
    && |candidates| <= MAX_CANDIDATES
    && (valid.Some? ==> valid.value.hash in candidates && KnownBy(r, valid.value, round))
  }

  predicate KnownBy(r: Rules, qc: QuorumCert, round: nat) {
    qc.chunk == r.chunk && qc.round <= round && r.certifies(qc)
  }

  predicate ClockKept(r: Rules, clock: Clock, round: nat) {
    clock.chunk == r.chunk && clock.round == round && r.clockOk(clock)
  }

  predicate SessionOk(r: Rules, s: BftSession) {
    && BallotOk(r, s.ballot)
    && ClockKept(r, s.clock, s.ballot.round)
    && ValidKept(r, s.valid, s.candidates, s.ballot.round)
    && (s.lock.Some? ==> KnownBy(r, s.lock.value, s.ballot.round))
    && (s.peer == PrecommitObserved ==> Complete(r, s.ballot))
  }

  // ----- the session against the journal -----

  /** The recorded local votes are reservations of the round and are counted. */
  predicate LocalRecorded(r: Rules, b: Ballot, j: ChunkJournal) {
    && (forall phase :: phase in b.localVotes ==>
          Slot(b.round, phase) in j.intents && j.intents[Slot(b.round, phase)] == b.localVotes[phase])
    && (forall phase :: phase in b.localNils ==>
          Slot(b.round, phase) in j.nils && j.nils[Slot(b.round, phase)] == b.localNils[phase])
    && b.local == FromFlags(Signed(b, Prevote), Signed(b, Precommit))
    && (Prevote in b.localVotes ==> r.self in b.prevotes)
    && (Precommit in b.localVotes ==> r.self in b.precommits)
    && (Prevote in b.localNils ==> r.self in b.nilPrevotes)
    && (Precommit in b.localNils ==> r.self in b.nilPrecommits)
  }

  predicate Taken(j: ChunkJournal, slot: Slot) {
    slot in j.intents || slot in j.nils
  }

  /** The reservations of the round fit the voting state, so that they can always be recovered into it. */
  predicate ReservedFits(r: Rules, b: Ballot, j: ChunkJournal) {
    && (j.mark.Some? ==> j.mark.value.round <= b.round)
    && (Slot(b.round, Prevote) in j.intents ==>
          b.proposal.Some? && j.intents[Slot(b.round, Prevote)] == PrevoteIntent(r, b))
    && (Slot(b.round, Precommit) in j.intents ==> PrecommitFits(r, b, j.intents[Slot(b.round, Precommit)]))
    && (forall phase :: Slot(b.round, phase) in j.nils ==>
          j.nils[Slot(b.round, phase)] == NilIntent(b.round, phase, r.self))
    && (forall phase :: Slot(b.round, phase) in j.intents ==>
          UnlockAllowed(r.certifies, j.intents[Slot(b.round, phase)], LockOf(j)))
    && (Signed(b, Precommit) && Taken(j, Slot(b.round, Prevote)) ==> Signed(b, Prevote))
  }

  /** A reserved precommit carries the session's receipts, and its lock is covered by the retained prevotes. */
  predicate PrecommitFits(r: Rules, b: Ballot, intent: VoteIntent) {
    && b.proposal.Some?
    && intent.data == VoteTarget(r, b, Precommit) && intent.index == r.self && intent.proofs == b.proofs
    && intent.unlock.Some? && intent.unlock.value.signers <= b.prevotes && r.prevoteQuorum(b.prevotes)
  }

  /** The journal's lock is at or above the session's, and the valid value at or above the journal's. */
  predicate LockLinked(lock: Option<QuorumCert>, valid: Option<QuorumCert>, locked: Option<QuorumCert>) {
    && (lock.Some? ==> locked.Some? && (lock == locked || lock.value.round < locked.value.round))
    && (locked.Some? ==> valid.Some? && valid.value.round >= locked.value.round)
  }

  /** Reserved round messages: a report only once the phase is closed, a proposal only for an entered round. */
  predicate MessagesLinked(r: Rules, round: nat, step: RoundStep, report: Option<Report>, j: ChunkJournal) {
    var reportSlot, proposalSlot := MessageSlot(ReportKind, round + 1), MessageSlot(ProposalKind, round);
    && (report.Some? ==> reportSlot in j.messages && j.messages[reportSlot] == ReportMessage(report.value))
    && (ReportKind in j.messageMarks ==>
          j.messageMarks[ReportKind] <= round + 1 && (j.messageMarks[ReportKind] == round + 1 ==> step == AwaitRound))
    && (reportSlot in j.messages ==>
          && j.messages[reportSlot].ReportMessage?
          && var reserved := j.messages[reportSlot].report;
          reserved.chunk == r.chunk && reserved.round == round + 1 && reserved.index == r.self && r.reportOk(reserved))
    && (ProposalKind in j.messageMarks ==> j.messageMarks[ProposalKind] <= round)
    && (proposalSlot in j.messages ==>
          && j.messages[proposalSlot].ProposalMessage?
          && OwnProposal(r, round, j.messages[proposalSlot].proposal))
  }

  predicate Linked(r: Rules, s: BftSession, j: ChunkJournal) {
    && LocalRecorded(r, s.ballot, j) && ReservedFits(r, s.ballot, j)
    && LockLinked(s.lock, s.valid, LockOf(j))
    && MessagesLinked(r, s.ballot.round, s.clock.step, s.report, j)
  }

  /** The session invariant, over a well-formed journal. */
  predicate Good(r: Rules, s: BftSession, j: ChunkJournal) {
    SessionOk(r, s) && Linked(r, s, j) && WellFormed(r.certifies, r.chunk, j)
  }

  /** Every reservation of the session's round, and the journal's lock, are in the session. */
  predicate Synced(s: BftSession, j: ChunkJournal) {
    && (Taken(j, Slot(s.ballot.round, Prevote)) ==> Signed(s.ballot, Prevote))
    && (Taken(j, Slot(s.ballot.round, Precommit)) ==> Signed(s.ballot, Precommit))
    && s.lock == LockOf(j)
  }
}

/** Each update of a session keeps the session invariant. */
module SessionSteps {
  import opened Types
  import opened SigningJournal
  import opened Pacemaker
  import opened Session
  import opened Candidates
  import opened JournalGrowth
  import opened SessionInvariant

  // ----- accumulating -----

  /** `to` differs from `from` only in more accumulated signers. */
  predicate MoreSigners(from: Ballot, to: Ballot) {
    && from.prevotes <= to.prevotes && from.precommits <= to.precommits
    && from.nilPrevotes <= to.nilPrevotes && from.nilPrecommits <= to.nilPrecommits
    && to == from.(prevotes := to.prevotes, precommits := to.precommits,
                   nilPrevotes := to.nilPrevotes, nilPrecommits := to.nilPrecommits)
  }

  lemma MoreSignersLinked(r: Rules, from: Ballot, to: Ballot, j: ChunkJournal)
    requires QuorumsGrow(r) && MoreSigners(from, to) && LocalRecorded(r, from, j) && ReservedFits(r, from, j)
    ensures LocalRecorded(r, to, j) && ReservedFits(r, to, j) && (Complete(r, from) ==> Complete(r, to))
  {
    assert PrevoteIntent(r, to) == PrevoteIntent(r, from);
  }

  /** A verified vote joins the verified claims; that the union of two decodable aggregates decodes is not claimed. */
  lemma AddedVotesAccepted(r: Rules, b: Ballot, phase: Phase, signers: set<nat>)
    requires RulesOk(r) && VotesAccepted(r, b) && r.claims(VoteTarget(r, b, phase), signers)
    ensures VotesAccepted(r, AddVotes(b, phase, signers))
  {
    assert QuorumVerifies(r, CurrentQuorum(r, AddVotes(b, phase, signers)));
  }

  lemma AddVotesKeeps(r: Rules, s: BftSession, j: ChunkJournal, phase: Phase, signers: set<nat>)
    requires RulesOk(r) && Good(r, s, j) && VoteVerifies(r, VoteTarget(r, s.ballot, phase), signers)
    ensures Good(r, s.(ballot := AddVotes(s.ballot, phase, signers)), j)
  {
    AddedVotesAccepted(r, s.ballot, phase, signers);
    MoreSignersLinked(r, s.ballot, AddVotes(s.ballot, phase, signers), j);
  }

  lemma AddNilsKeeps(r: Rules, s: BftSession, j: ChunkJournal, phase: Phase, signers: set<nat>)
    requires RulesOk(r) && Good(r, s, j) && NilVerifies(r, s.ballot.round, phase, signers)
    ensures Good(r, s.(ballot := AddNils(s.ballot, phase, signers)), j)
  {
    MoreSignersLinked(r, s.ballot, AddNils(s.ballot, phase, signers), j);
  }

  lemma AdvancePeerKeeps(r: Rules, s: BftSession, j: ChunkJournal)
    requires Good(r, s, j)
    ensures Good(r, AdvancePeer(r, s), j)
  {
  }

  // ----- candidates and the valid value -----

  lemma RememberCandidateOk(r: Rules, s: BftSession, j: ChunkJournal, hash: Hash)
    requires Good(r, s, j)
    ensures Good(r, RememberCandidate(r, s, hash), j)
  {
    RememberCandidateKeeps(r, s, hash);
  }

  lemma RememberValidOk(r: Rules, s: BftSession, j: ChunkJournal, qc: QuorumCert)
    requires Good(r, s, j) && KnownBy(r, qc, s.ballot.round)
    ensures Good(r, RememberValid(r, s, qc), j)
  {
    RememberValidKeeps(r, s, qc);
  }

  // ----- targets, proposals, phases, rounds -----

  lemma ResetTargetKeeps(r: Rules, s: BftSession, j: ChunkJournal, hash: Hash)
    requires RulesOk(r) && Good(r, s, j)
    requires s.ballot.proposal.None? && s.ballot.localVotes == map[]
    ensures Good(r, ResetTarget(r, s, hash), j)
  {
  }

  /** Enter a phase without changing round or reports. */
  predicate PhaseMoves(from: Clock, to: Clock) {
    SameReports(from, to) && (from.step == AwaitRound ==> to.step == AwaitRound)
  }

  lemma PhaseKeeps(r: Rules, s: BftSession, j: ChunkJournal, clock: Clock)
    requires ClockRulesOk(r) && Good(r, s, j) && PhaseMoves(s.clock, clock)
    ensures Good(r, s.(clock := clock), j)
  {
  }

  lemma InstallProposalKeeps(r: Rules, s: BftSession, j: ChunkJournal, p: Proposal)
    requires RulesOk(r) && Good(r, s, j)
    requires s.ballot.proposal.None? && r.proposalOk(s.ballot.target, s.ballot.round, p)
    ensures Good(r, s.(ballot := WithProposal(s.ballot, p)), j)
  {
    assert ProposalShape(r, s.ballot.target, s.ballot.round, p);
    assert BallotOk(r, WithProposal(s.ballot, p));
  }

  lemma RememberProposalOk(r: Rules, s: BftSession, j: ChunkJournal, p: Proposal)
    requires Good(r, s, j) && (p.valid.Some? ==> KnownBy(r, p.valid.value, s.ballot.round))
    ensures var next := RememberProposal(r, s, p);
      Good(r, next, j) && next.ballot == s.ballot && next.clock == s.clock
  {
    if p.valid.Some? {
      RememberValidOk(r, s, j, p.valid.value);
    }
    RememberCandidateOk(r, RememberOptional(r, s, p.valid), j, p.hash);
  }

  lemma AcceptProposalKeeps(r: Rules, s: BftSession, j: ChunkJournal, p: Proposal, now: nat)
    requires RulesOk(r) && Good(r, s, j)
    requires s.ballot.proposal.None? && r.proposalOk(s.ballot.target, s.ballot.round, p)
    ensures Good(r, AcceptProposal(r, s, p, now), j)
  {
    RememberProposalOk(r, s, j, p);
    var remembered := RememberProposal(r, s, p);
    InstallProposalKeeps(r, remembered, j, p);
    PhaseKeeps(r, remembered.(ballot := WithProposal(s.ballot, p)), j, EnterPrevote(s.clock, now));
  }

  lemma CollectKeeps(r: Rules, s: BftSession, j: ChunkJournal, report: Report)
    requires ClockRulesOk(r) && Good(r, s, j) && r.accepts(s.clock, report)
    ensures Good(r, s.(clock := r.collected(s.clock, report)), j)
  {
  }

  /** A round beyond the journal's holds no reservation. */
  lemma NewRoundIsFree(verifies: Verifier, chunk: nat, j: ChunkJournal, round: nat, phase: Phase)
    requires WellFormed(verifies, chunk, j) && (j.mark.Some? ==> j.mark.value.round < round)
    ensures !Taken(j, Slot(round, phase))
  {
  }

  lemma FreshBallotLinked(r: Rules, b: Ballot, j: ChunkJournal)
    requires WellFormed(r.certifies, r.chunk, j) && (j.mark.Some? ==> j.mark.value.round < b.round)
    requires b == FreshBallot(b.round, b.target, b.proofs, b.certificate)
    ensures LocalRecorded(r, b, j) && ReservedFits(r, b, j)
  {
    NewRoundIsFree(r.certifies, r.chunk, j, b.round, Prevote);
    NewRoundIsFree(r.certifies, r.chunk, j, b.round, Precommit);
    forall phase
      ensures !Taken(j, Slot(b.round, phase))
    {
      NewRoundIsFree(r.certifies, r.chunk, j, b.round, phase);
    }
  }

  lemma NewRoundMessages(r: Rules, s: BftSession, j: ChunkJournal, round: nat)
    requires Good(r, s, j) && round > s.ballot.round
    ensures MessagesLinked(r, round, Propose, None, j)
  {
  }

  lemma KnownHighestOk(r: Rules, s: BftSession, j: ChunkJournal, cert: Certificate)
    requires RulesOk(r) && Good(r, s, j)
    requires cert.round > s.ballot.round && cert.chunk == r.chunk && r.certOk(cert)
    ensures var next := RememberOptional(r, s, KnownHighest(r, s, cert));
      ValidKept(r, next.valid, next.candidates, cert.round) && LockLinked(next.lock, next.valid, LockOf(j))
        && next.lock == s.lock
  {
    assert CertificateFits(r, cert);
    if KnownHighest(r, s, cert).Some? {
      RememberValidKeeps(r, s, KnownHighest(r, s, cert).value);
    }
  }

  lemma EnterRoundKeeps(r: Rules, s: BftSession, j: ChunkJournal, cert: Certificate, now: nat)
    requires RulesOk(r) && Good(r, s, j)
    requires cert.round > s.ballot.round && cert.chunk == r.chunk && r.certOk(cert)
    ensures Good(r, EnterRound(r, s, cert, now), j)
  {
    KnownHighestOk(r, s, j, cert);
    NewRoundMessages(r, s, j, cert.round);
    FreshBallotLinked(r, EnterRound(r, s, cert, now).ballot, j);
  }

  lemma OpenedIsGood(r: Rules, target: Hash, cert: Option<Certificate>, now: nat, base: nat, backoff: nat)
    requires RulesOk(r)
    requires cert.Some? ==> cert.value.round > 0 && cert.value.chunk == r.chunk && r.certOk(cert.value)
    ensures Good(r, OpenedSession(r, target, cert, now, base, backoff), EMPTY)
  {
    FreshBallotLinked(r, OpenedSession(r, target, cert, now, base, backoff).ballot, EMPTY);
  }
}

/** Each reservation keeps the session invariant, for the session that signs and for its stored copies. */
module SigningSteps {
  import opened Types
  import opened SigningJournal
  import opened Pacemaker
  import opened Session
  import opened JournalGrowth
  import opened SessionInvariant
  import opened SessionSteps

  /** The two voting states agree on everything a prevote commits to. */
  predicate Anchored(a: Ballot, b: Ballot) {
    a.round == b.round && a.target == b.target && a.proposal == b.proposal && a.justification == b.justification
  }

  predicate RoundFree(j: ChunkJournal, round: nat) {
    !Taken(j, Slot(round, Prevote)) && !Taken(j, Slot(round, Precommit))
  }

  // ----- the journal grows under a session -----

  lemma PrevoteReserved(r: Rules, t: BftSession, j: ChunkJournal, next: ChunkJournal, b: Ballot)
    requires Good(r, t, j) && WellFormed(r.certifies, r.chunk, next) && VoteAdded(j, next, PrevoteIntent(r, b))
    requires Anchored(t.ballot, b) && b.proposal.Some? && RoundFree(j, b.round)
    requires UnlockAllowed(r.certifies, PrevoteIntent(r, b), LockOf(j))
    ensures Good(r, t, next)
  {
    var slot := Slot(b.round, Prevote);
    assert SlotOf(PrevoteIntent(r, b).data) == slot;
    assert PrevoteIntent(r, t.ballot) == PrevoteIntent(r, b);
    assert Slot(b.round, Precommit) != slot;
    assert LocalRecorded(r, t.ballot, next);
  }

  /** The new lock is above the session's and at most the valid value. */
  lemma PrecommitLockLinked(r: Rules, s: BftSession, j: ChunkJournal, locked: QuorumCert)
    requires Good(r, s, j) && !Taken(j, Slot(s.ballot.round, Precommit)) && locked.round == s.ballot.round
    requires s.valid.Some? && s.valid.value.round >= s.ballot.round
    ensures LockLinked(s.lock, s.valid, Some(locked))
  {
  }

  lemma PrecommitFitsBallot(r: Rules, b: Ballot, j: ChunkJournal, next: ChunkJournal)
    requires LocalRecorded(r, b, j) && ReservedFits(r, b, j) && VoteAdded(j, next, PrecommitIntent(r, b))
    requires b.proposal.Some? && r.prevoteQuorum(b.prevotes) && r.certifies(CurrentQuorum(r, b))
      && !Taken(j, Slot(b.round, Precommit))
    ensures LocalRecorded(r, b, next) && ReservedFits(r, b, next)
  {
    var slot := Slot(b.round, Precommit);
    assert SlotOf(PrecommitIntent(r, b).data) == slot;
    assert Slot(b.round, Prevote) != slot;
    assert LocalRecorded(r, b, next);
    forall phase | Slot(b.round, phase) in next.intents
      ensures UnlockAllowed(r.certifies, next.intents[Slot(b.round, phase)], LockOf(next))
    {
      match phase
      case Prevote =>
      case Precommit =>
    }
  }

  lemma PrecommitReserved(r: Rules, s: BftSession, j: ChunkJournal, next: ChunkJournal)
    requires Good(r, s, j) && WellFormed(r.certifies, r.chunk, next) && VoteAdded(j, next, PrecommitIntent(r, s.ballot))
    requires s.ballot.proposal.Some? && r.prevoteQuorum(s.ballot.prevotes) && !Taken(j, Slot(s.ballot.round, Precommit))
    requires s.valid.Some? && s.valid.value.round >= s.ballot.round
    ensures Good(r, s, next)
  {
    PrecommitFitsBallot(r, s.ballot, j, next);
    PrecommitLockLinked(r, s, j, CurrentQuorum(r, s.ballot));
  }

  lemma NilReserved(r: Rules, s: BftSession, j: ChunkJournal, next: ChunkJournal, phase: Phase)
    requires Good(r, s, j) && WellFormed(r.certifies, r.chunk, next)
    requires NilAdded(j, next, NilIntent(s.ballot.round, phase, r.self)) && !Taken(j, Slot(s.ballot.round, phase))
    requires phase == Prevote ==> RoundFree(j, s.ballot.round)
    ensures Good(r, s, next)
  {
    assert LocalRecorded(r, s.ballot, next);
  }

  /** A journal that differs only in its messages holds the same votes. */
  lemma VotesUntouched(r: Rules, b: Ballot, j: ChunkJournal, next: ChunkJournal)
    requires LocalRecorded(r, b, j) && ReservedFits(r, b, j)
    requires next.mark == j.mark && next.intents == j.intents && next.nils == j.nils
    ensures LocalRecorded(r, b, next) && ReservedFits(r, b, next) && LockOf(next) == LockOf(j)
  {
  }

  lemma ProposalLinked(r: Rules, s: BftSession, j: ChunkJournal, next: ChunkJournal, p: Proposal)
    requires MessagesLinked(r, s.ballot.round, s.clock.step, s.report, j)
    requires MessageAdded(j, next, ProposalKind, s.ballot.round, ProposalMessage(p))
    requires OwnProposal(r, s.ballot.round, p)
    ensures MessagesLinked(r, s.ballot.round, s.clock.step, s.report, next)
  {
  }

  lemma ReportLinked(r: Rules, s: BftSession, j: ChunkJournal, next: ChunkJournal, report: Report)
    requires MessagesLinked(r, s.ballot.round, s.clock.step, s.report, j)
    requires MessageAdded(j, next, ReportKind, s.ballot.round + 1, ReportMessage(report))
    requires s.clock.step == AwaitRound && MessageSlot(ReportKind, s.ballot.round + 1) !in j.messages
    requires report.chunk == r.chunk && report.round == s.ballot.round + 1 && report.index == r.self
      && r.reportOk(report)
    ensures MessagesLinked(r, s.ballot.round, s.clock.step, s.report, next)
  {
  }

  lemma ProposalReserved(r: Rules, s: BftSession, j: ChunkJournal, next: ChunkJournal, p: Proposal)
    requires Good(r, s, j) && WellFormed(r.certifies, r.chunk, next)
    requires MessageAdded(j, next, ProposalKind, s.ballot.round, ProposalMessage(p))
    requires OwnProposal(r, s.ballot.round, p)
    ensures Good(r, s, next)
  {
    VotesUntouched(r, s.ballot, j, next);
    ProposalLinked(r, s, j, next, p);
  }

  lemma ReportReserved(r: Rules, s: BftSession, j: ChunkJournal, next: ChunkJournal, report: Report)
    requires Good(r, s, j) && WellFormed(r.certifies, r.chunk, next)
    requires MessageAdded(j, next, ReportKind, s.ballot.round + 1, ReportMessage(report))
    requires s.clock.step == AwaitRound && MessageSlot(ReportKind, s.ballot.round + 1) !in j.messages
    requires report.chunk == r.chunk && report.round == s.ballot.round + 1 && report.index == r.self
      && r.reportOk(report)
    ensures Good(r, s, next)
  {
    VotesUntouched(r, s.ballot, j, next);
    ReportLinked(r, s, j, next, report);
  }

  // ----- recording what was reserved -----

  /** `to` has at least the signers of `from` and other local votes, and is otherwise equal. */
  predicate VotesGrow(from: Ballot, to: Ballot) {
    && from.prevotes <= to.prevotes && from.precommits <= to.precommits
    && to == from.(prevotes := to.prevotes, precommits := to.precommits, nilPrevotes := to.nilPrevotes,
                   nilPrecommits := to.nilPrecommits, local := to.local,
                   localVotes := to.localVotes, localNils := to.localNils)
  }

  lemma RecordKeeps(r: Rules, s: BftSession, j: ChunkJournal, to: Ballot)
    requires QuorumsGrow(r) && Good(r, s, j) && VotesGrow(s.ballot, to)
    requires LocalRecorded(r, to, j) && VotesAccepted(r, to)
    requires Signed(to, Precommit) && Taken(j, Slot(to.round, Prevote)) ==> Signed(to, Prevote)
    ensures Good(r, s.(ballot := to), j)
  {
    assert PrevoteIntent(r, to) == PrevoteIntent(r, s.ballot);
  }

  lemma PrevoteRecorded(r: Rules, b: Ballot, j: ChunkJournal)
    requires LocalRecorded(r, b, j) && ReservedFits(r, b, j) && b.local == Idle && Slot(b.round, Prevote) in j.intents
    ensures LocalRecorded(r, RecordPrevote(r, b), j)
  {
  }

  lemma PrecommitRecorded(r: Rules, b: Ballot, j: ChunkJournal)
    requires LocalRecorded(r, b, j) && b.local != Precommitted && Slot(b.round, Precommit) in j.intents
    requires j.intents[Slot(b.round, Precommit)] == PrecommitIntent(r, b)
    ensures LocalRecorded(r, RecordPrecommit(r, b), j)
  {
  }

  lemma NilRecorded(r: Rules, b: Ballot, j: ChunkJournal, phase: Phase)
    requires LocalRecorded(r, b, j) && ReservedFits(r, b, j) && Slot(b.round, phase) in j.nils
    requires if phase == Prevote then b.local == Idle else b.local != Precommitted
    ensures LocalRecorded(r, RecordNil(r, b, phase), j)
  {
  }

  lemma OwnVoteAccepted(r: Rules, b: Ballot)
    requires RulesOk(r) && VotesAccepted(r, b)
    ensures VotesAccepted(r, RecordPrevote(r, b)) && VotesAccepted(r, RecordPrecommit(r, b))
    ensures VotesAccepted(r, RecordNil(r, b, Prevote)) && VotesAccepted(r, RecordNil(r, b, Precommit))
  {
    assert VoteVerifies(r, VoteTarget(r, b, Prevote), {r.self});
    assert VoteVerifies(r, VoteTarget(r, b, Precommit), {r.self});
    assert NilVerifies(r, b.round, Prevote, {r.self}) && NilVerifies(r, b.round, Precommit, {r.self});
    AddedVotesAccepted(r, b, Prevote, {r.self});
    AddedVotesAccepted(r, b, Precommit, {r.self});
  }

  lemma RecordPrevoteKeeps(r: Rules, s: BftSession, j: ChunkJournal)
    requires RulesOk(r) && Good(r, s, j) && s.ballot.local == Idle
    requires Slot(s.ballot.round, Prevote) in j.intents
    ensures Good(r, s.(ballot := RecordPrevote(r, s.ballot)), j)
  {
    OwnVoteAccepted(r, s.ballot);
    PrevoteRecorded(r, s.ballot, j);
    RecordKeeps(r, s, j, RecordPrevote(r, s.ballot));
  }

  lemma RecordPrecommitKeeps(r: Rules, s: BftSession, j: ChunkJournal)
    requires RulesOk(r) && Good(r, s, j) && s.ballot.local != Precommitted
    requires Slot(s.ballot.round, Precommit) in j.intents
    requires j.intents[Slot(s.ballot.round, Precommit)] == PrecommitIntent(r, s.ballot)
    requires Taken(j, Slot(s.ballot.round, Prevote)) ==> Signed(s.ballot, Prevote)
    ensures Good(r, s.(ballot := RecordPrecommit(r, s.ballot)), j)
  {
    OwnVoteAccepted(r, s.ballot);
    PrecommitRecorded(r, s.ballot, j);
    RecordKeeps(r, s, j, RecordPrecommit(r, s.ballot));
  }

  lemma RecordNilKeeps(r: Rules, s: BftSession, j: ChunkJournal, phase: Phase)
    requires RulesOk(r) && Good(r, s, j) && Slot(s.ballot.round, phase) in j.nils
    requires if phase == Prevote then s.ballot.local == Idle else s.ballot.local != Precommitted
    requires Taken(j, Slot(s.ballot.round, Prevote)) && phase == Precommit ==> Signed(s.ballot, Prevote)
    ensures Good(r, s.(ballot := RecordNil(r, s.ballot, phase)), j)
  {
    OwnVoteAccepted(r, s.ballot);
    NilRecorded(r, s.ballot, j, phase);
    RecordKeeps(r, s, j, RecordNil(r, s.ballot, phase));
  }

  /** Adopting the journal's lock. */
  lemma AdoptLockKeeps(r: Rules, s: BftSession, j: ChunkJournal)
    requires Good(r, s, j)
    ensures Good(r, s.(lock := LockOf(j)), j)
  {
  }
}

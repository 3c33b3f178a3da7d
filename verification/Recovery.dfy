/** Restart: every saved session is restored, and every reservation the crash interrupted is recovered. */
module Recovery {
  import opened Types
  import opened SigningJournal
  import opened Session
  import opened JournalGrowth
  import opened SessionInvariant
  import opened SessionSteps
  import opened SigningSteps

  // ----- restoring the saved session -----

  /** Every counted claim was verified, so adding an aggregate again can fail only because it does not decode. */
  lemma ReaddedIsDecodable(r: Rules, b: Ballot)
    requires VotesAccepted(r, b)
    ensures NilsReadded(r, b) <==> NilsDecode(r, b)
    ensures NilsReadded(r, b) && VotesReadded(r, b) <==> AggregatesDecode(r, b)
  {
  }

  lemma LocalVotesAreReserved(r: Rules, s: BftSession, j: ChunkJournal)
    requires OwnVotesVerify(r) && Good(r, s, j)
    ensures forall phase :: phase in s.ballot.localNils ==> NilIsReserved(r, s.ballot, j, phase)
    ensures forall phase :: phase in s.ballot.localVotes ==> VoteIsReserved(r, s.ballot, j, phase)
  {
    var b := s.ballot;
    forall phase | phase in b.localVotes
      ensures VoteIsReserved(r, b, j, phase)
    {
      match phase
      case Prevote =>
      case Precommit =>
    }
  }

  lemma ContextIsOk(r: Rules, s: BftSession, j: ChunkJournal)
    requires RulesOk(r) && Good(r, s, j) && |s.ballot.localVotes| + |s.ballot.localNils| <= 2
    ensures ContextOk(r, s, j) <==> AggregatesDecode(r, s.ballot)
  {
    var b := s.ballot;
    ReaddedIsDecodable(r, b);
    if b.proposal.Some? {
      assert ProposalShape(r, b.target, b.round, b.proposal.value);
    }
  }

  lemma AtMostTwoVotes(b: Ballot)
    requires b.localVotes.Keys !! b.localNils.Keys
    ensures |b.localVotes| + |b.localNils| <= 2
  {
    var phases := {Prevote, Precommit};
    forall p: Phase
      ensures p in phases
    {
      match p
      case Prevote =>
      case Precommit =>
    }
    assert |b.localVotes.Keys + b.localNils.Keys| == |b.localVotes.Keys| + |b.localNils.Keys|;
    SubsetCardinality(b.localVotes.Keys + b.localNils.Keys, phases);
    assert phases == {Prevote} + {Precommit};
  }

  lemma SessionIsRestorable(r: Rules, s: BftSession, j: ChunkJournal)
    requires RulesOk(r) && Good(r, s, j)
    ensures Restorable(r, s, j) <==> AggregatesDecode(r, s.ballot)
  {
    LocalVotesAreReserved(r, s, j);
    AtMostTwoVotes(s.ballot);
    ContextIsOk(r, s, j);
  }

  /** Restart accepts the saved session if and only if each of its nonempty aggregates decodes, and then rebuilds it
      exactly: only the peer progress is derived anew. */
  lemma RestoreIsExact(r: Rules, s: BftSession, j: ChunkJournal)
    requires RulesOk(r) && Good(r, s, j)
    ensures var restored := AdvancePeer(r, s.(peer := BelowPrevote));
      && Restore(r, s, j) == (if AggregatesDecode(r, s.ballot) then Ok(restored) else Err(Corrupt))
      && Good(r, restored, j)
  {
    SessionIsRestorable(r, s, j);
    RebuiltIsSame(r, s.ballot, j);
    assert Good(r, s.(peer := BelowPrevote), j);
    AdvancePeerKeeps(r, s.(peer := BelowPrevote), j);
  }

  lemma RebuiltIsSame(r: Rules, b: Ballot, j: ChunkJournal)
    requires LocalRecorded(r, b, j)
    ensures Rebuilt(r, b) == b
  {
    assert b.prevotes + OwnVoter(r, b, Prevote) == b.prevotes;
    assert b.precommits + OwnVoter(r, b, Precommit) == b.precommits;
    assert b.nilPrevotes + OwnNil(r, b, Prevote) == b.nilPrevotes;
    assert b.nilPrecommits + OwnNil(r, b, Precommit) == b.nilPrecommits;
  }

  // ----- recovering the reservations -----

  lemma ResignChangesNothing(r: Rules, s: BftSession, j: ChunkJournal)
    requires Good(r, s, j) && j.mark.Some? && j.mark.value.round == s.ballot.round
    ensures ResignAll(r, j, j.mark.value) == Ok(j)
  {
    var w := j.mark.value;
    if w.prevote.Some? {
      SignVoteAgain(r.certifies, r.chunk, j, Prevote);
    }
    if w.precommit.Some? {
      SignVoteAgain(r.certifies, r.chunk, j, Precommit);
    }
    if Slot(w.round, Prevote) in j.nils {
      SignNilAgain(r.certifies, r.chunk, j, Prevote);
    }
    if Slot(w.round, Precommit) in j.nils {
      SignNilAgain(r.certifies, r.chunk, j, Precommit);
    }
  }

  predicate NilRecovered(b: Ballot, j: ChunkJournal, phase: Phase) {
    var slot := Slot(b.round, phase);
    (phase in b.localNils <==> slot in j.nils) && (slot in j.nils ==> b.localNils[phase] == j.nils[slot])
  }

  predicate ValueRecovered(b: Ballot, j: ChunkJournal, phase: Phase) {
    var slot := Slot(b.round, phase);
    (phase in b.localVotes <==> slot in j.intents) && (slot in j.intents ==> b.localVotes[phase] == j.intents[slot])
  }

  /** The voting state after recovery: what it was, plus exactly the reservations of its round. */
  predicate Recovered(r: Rules, b: Ballot, to: Ballot, j: ChunkJournal) {
    && VotesGrow(b, to)
    && to.prevotes == b.prevotes + OwnVoter(r, to, Prevote)
       && to.precommits == b.precommits + OwnVoter(r, to, Precommit)
    && to.nilPrevotes == b.nilPrevotes + OwnNil(r, to, Prevote)
       && to.nilPrecommits == b.nilPrecommits + OwnNil(r, to, Precommit)
    && ValueRecovered(to, j, Prevote) && ValueRecovered(to, j, Precommit)
    && NilRecovered(to, j, Prevote) && NilRecovered(to, j, Precommit)
  }

  /** Recovering the nil votes reserved for the round: nothing else changes, and each joins the counted ones. */
  lemma NilsExact(r: Rules, b: Ballot, j: ChunkJournal)
    requires OwnVotesVerify(r)
    requires Prevote in b.localNils ==> Slot(b.round, Prevote) in j.nils
    requires Precommit in b.localNils ==> Slot(b.round, Precommit) in j.nils
    requires OwnNil(r, b, Prevote) <= b.nilPrevotes && OwnNil(r, b, Precommit) <= b.nilPrecommits
    ensures var outcome := RecoverNils(r, b, j);
      && outcome.Ok? && var to := outcome.value;
      && to == b.(nilPrevotes := to.nilPrevotes, nilPrecommits := to.nilPrecommits, localNils := to.localNils)
      && NilRecovered(to, j, Prevote) && NilRecovered(to, j, Precommit)
      && to.nilPrevotes == b.nilPrevotes + OwnNil(r, to, Prevote)
         && to.nilPrecommits == b.nilPrecommits + OwnNil(r, to, Precommit)
  {
  }

  lemma RecoverNilsExact(r: Rules, s: BftSession, j: ChunkJournal)
    requires OwnVotesVerify(r) && Good(r, s, j)
    ensures var b, outcome := s.ballot, RecoverNils(r, s.ballot, j);
      && outcome.Ok? && var to := outcome.value;
      && to == b.(nilPrevotes := to.nilPrevotes, nilPrecommits := to.nilPrecommits, localNils := to.localNils)
      && NilRecovered(to, j, Prevote) && NilRecovered(to, j, Precommit)
      && to.nilPrevotes == b.nilPrevotes + OwnNil(r, to, Prevote)
         && to.nilPrecommits == b.nilPrecommits + OwnNil(r, to, Precommit)
  {
    assert LocalRecorded(r, s.ballot, j);
    NilsExact(r, s.ballot, j);
  }

  lemma RecoverPrevoteExact(r: Rules, s: BftSession, j: ChunkJournal, b: Ballot)
    requires OwnVotesVerify(r) && Good(r, s, j) && j.mark.Some? && j.mark.value.round == b.round
    requires b == s.ballot.(nilPrevotes := b.nilPrevotes, nilPrecommits := b.nilPrecommits, localNils := b.localNils)
    ensures var outcome := RecoverPrevote(r, b, j.mark.value.prevote);
      && outcome.Ok? && var to := outcome.value;
      && to == b.(prevotes := to.prevotes, localVotes := to.localVotes)
      && to.prevotes == b.prevotes + OwnVoter(r, to, Prevote) && ValueRecovered(to, j, Prevote)
      && (Precommit in to.localVotes <==> Precommit in b.localVotes)
      && (Precommit in b.localVotes ==> to.localVotes[Precommit] == b.localVotes[Precommit])
  {
    assert ReservedFits(r, s.ballot, j);
  }

  lemma RecoverPrecommitExact(r: Rules, s: BftSession, j: ChunkJournal, b: Ballot)
    requires QuorumsGrow(r) && OwnVotesVerify(r) && Good(r, s, j) && j.mark.Some? && j.mark.value.round == b.round
    requires b == s.ballot.(prevotes := b.prevotes, nilPrevotes := b.nilPrevotes, nilPrecommits := b.nilPrecommits,
                            localVotes := b.localVotes, localNils := b.localNils)
    requires s.ballot.prevotes <= b.prevotes
    requires (Precommit in b.localVotes <==> Precommit in s.ballot.localVotes)
             && (Precommit in b.localVotes ==> b.localVotes[Precommit] == s.ballot.localVotes[Precommit])
    ensures var outcome := RecoverPrecommit(r, b, j.mark.value.precommit);
      && outcome.Ok? && var to := outcome.value;
      && to == b.(precommits := to.precommits, localVotes := to.localVotes)
      && to.precommits == b.precommits + OwnVoter(r, to, Precommit) && ValueRecovered(to, j, Precommit)
      && (Prevote in to.localVotes <==> Prevote in b.localVotes)
      && (Prevote in b.localVotes ==> to.localVotes[Prevote] == b.localVotes[Prevote])
  {
    assert ReservedFits(r, s.ballot, j);
    assert LocalRecorded(r, s.ballot, j);
  }

  /** Every reserved vote still fits the session: no conflict and no corruption is ever reported. */
  lemma RecoverMessagesExact(r: Rules, s: BftSession, j: ChunkJournal)
    requires QuorumsGrow(r) && OwnVotesVerify(r) && Good(r, s, j)
    requires j.mark.Some? && j.mark.value.round == s.ballot.round
    ensures var outcome := RecoverMessages(r, s.ballot, j, j.mark.value);
      outcome.Ok? && Recovered(r, s.ballot, outcome.value, j)
  {
    RecoverNilsExact(r, s, j);
    var nils := RecoverNils(r, s.ballot, j).value;
    RecoverPrevoteExact(r, s, j, nils);
    RecoverPrecommitExact(r, s, j, RecoverPrevote(r, nils, j.mark.value.prevote).value);
  }

  lemma RecoveredIsRecorded(r: Rules, b: Ballot, to: Ballot, j: ChunkJournal)
    requires Recovered(r, b, to, j)
    ensures LocalRecorded(r, to.(local := FromFlags(Signed(to, Prevote), Signed(to, Precommit))), j)
  {
    EveryPhaseRecorded(to, j);
  }

  lemma EveryPhaseRecorded(b: Ballot, j: ChunkJournal)
    requires ValueRecovered(b, j, Prevote) && ValueRecovered(b, j, Precommit)
    requires NilRecovered(b, j, Prevote) && NilRecovered(b, j, Precommit)
    ensures forall phase :: phase in b.localVotes ==>
      Slot(b.round, phase) in j.intents && j.intents[Slot(b.round, phase)] == b.localVotes[phase]
    ensures forall phase :: phase in b.localNils ==>
      Slot(b.round, phase) in j.nils && j.nils[Slot(b.round, phase)] == b.localNils[phase]
  {
    forall phase | phase in b.localVotes
      ensures ValueRecovered(b, j, phase)
    {
      match phase
      case Prevote =>
      case Precommit =>
    }
    forall phase | phase in b.localNils
      ensures NilRecovered(b, j, phase)
    {
      match phase
      case Prevote =>
      case Precommit =>
    }
  }

  lemma RecoveredAggregate(r: Rules, b: Ballot, to: Ballot, j: ChunkJournal)
    requires RulesOk(r) && BallotOk(r, b) && Recovered(r, b, to, j)
    ensures VotesAccepted(r, to)
  {
    assert VoteVerifies(r, VoteTarget(r, b, Prevote), {r.self})
      && VoteVerifies(r, VoteTarget(r, b, Precommit), {r.self});
    assert NilVerifies(r, b.round, Prevote, {r.self}) && NilVerifies(r, b.round, Precommit, {r.self});
    assert to.precommits == b.precommits || to.precommits == b.precommits + {r.self};
    assert to.prevotes == b.prevotes || to.prevotes == b.prevotes + {r.self};
    assert to.nilPrevotes == b.nilPrevotes || to.nilPrevotes == b.nilPrevotes + {r.self};
    assert to.nilPrecommits == b.nilPrecommits || to.nilPrecommits == b.nilPrecommits + {r.self};
    assert QuorumVerifies(r, CurrentQuorum(r, to));
  }

  /** What a reservation of the journal's round means for the recovered votes. */
  lemma FlagsAreSigned(r: Rules, j: ChunkJournal, b: Ballot)
    requires WellFormed(r.certifies, r.chunk, j) && j.mark.Some? && j.mark.value.round == b.round
    requires ValueRecovered(b, j, Prevote) && ValueRecovered(b, j, Precommit)
    requires NilRecovered(b, j, Prevote) && NilRecovered(b, j, Precommit)
    ensures PhaseReserved(j.mark.value, j, Prevote) == Signed(b, Prevote)
    ensures PhaseReserved(j.mark.value, j, Precommit) == Signed(b, Precommit)
  {
  }

  /** When nothing has to be recovered, the session already holds exactly the journal's reservations. */
  lemma FlagsAgree(r: Rules, s: BftSession, j: ChunkJournal)
    requires Good(r, s, j)
    requires j.mark.Some? && j.mark.value.round == s.ballot.round ==>
      && PhaseReserved(j.mark.value, j, Prevote) == (s.ballot.local != Idle)
      && PhaseReserved(j.mark.value, j, Precommit) == (s.ballot.local == Precommitted)
    ensures Recovered(r, s.ballot, s.ballot, j)
    ensures Synced(s.(lock := LockOf(j)), j)
  {
    if j.mark.None? || j.mark.value.round < s.ballot.round {
      NewRoundIsFree(r.certifies, r.chunk, j, s.ballot.round, Prevote);
      NewRoundIsFree(r.certifies, r.chunk, j, s.ballot.round, Precommit);
    }
  }

  /** The result of recovery when something was interrupted. */
  function FullRecovery(r: Rules, s: BftSession, to: Ballot, j: ChunkJournal): BftSession {
    AdvancePeer(r, s.(ballot := to.(local := FromFlags(Signed(to, Prevote), Signed(to, Precommit))), lock := LockOf(j)))
  }

  lemma FullRecoveryOk(r: Rules, s: BftSession, to: Ballot, j: ChunkJournal)
    requires RulesOk(r) && Good(r, s, j) && Recovered(r, s.ballot, to, j)
    ensures Good(r, FullRecovery(r, s, to, j), j) && Synced(FullRecovery(r, s, to, j), j)
  {
    var final := to.(local := FromFlags(Signed(to, Prevote), Signed(to, Precommit)));
    RecoveredAggregate(r, s.ballot, to, j);
    RecoveredIsRecorded(r, s.ballot, to, j);
    RecordKeeps(r, s, j, final);
    AdoptLockKeeps(r, s.(ballot := final), j);
    AdvancePeerKeeps(r, s.(ballot := final, lock := LockOf(j)), j);
  }

  lemma AdoptedLock(r: Rules, s: BftSession, j: ChunkJournal)
    requires Good(r, s, j)
    ensures j.mark.Some? ==> AdoptLock(s.lock, j.mark.value.locked) == LockOf(j)
    ensures j.mark.None? ==> s.lock == LockOf(j)
    ensures j.mark.Some? && j.mark.value.round == s.ballot.round ==>
      RecoverLock(LockOf(j), j.mark.value.precommit) == LockOf(j)
  {
  }

  ghost predicate RecoveryExact(r: Rules, s: BftSession, j: ChunkJournal, out: Outcome) {
    && out.journal == j
    && Good(r, out.session, j) && Synced(out.session, j)
    && Recovered(r, s.ballot, out.session.ballot, j)
    && out.session == s.(ballot := out.session.ballot, lock := out.session.lock, peer := out.session.peer)
    && (s.peer == PrecommitObserved ==> out.session.peer == PrecommitObserved)
  }

  /** Recovery after any crash or abandoned call succeeds: it re-signs what is reserved without changing the journal
      and leaves the session with exactly the votes reserved for its round. */
  lemma RecoverIsExact(r: Rules, s: BftSession, j: ChunkJournal)
    requires RulesOk(r) && Good(r, s, j)
    ensures Recover(r, s, j).Ok? && RecoveryExact(r, s, j, Recover(r, s, j).value)
  {
    AdoptedLock(r, s, j);
    AdoptLockKeeps(r, s, j);
    if j.mark.None? {
      FlagsAgree(r, s, j);
    } else {
      WellFormedIsAccepted(r.certifies, r.chunk, j);
      RecoverMarked(r, s, j);
    }
  }

  lemma RecoverMarked(r: Rules, s: BftSession, j: ChunkJournal)
    requires RulesOk(r) && Good(r, s, j) && j.mark.Some? && WatermarkAccepted(r.certifies, r.chunk, j)
    requires AdoptLock(s.lock, j.mark.value.locked) == LockOf(j) && Good(r, s.(lock := LockOf(j)), j)
    requires j.mark.value.round == s.ballot.round ==> RecoverLock(LockOf(j), j.mark.value.precommit) == LockOf(j)
    ensures Recover(r, s, j).Ok? && RecoveryExact(r, s, j, Recover(r, s, j).value)
  {
    var w, b := j.mark.value, s.ballot;
    var prevoted, precommitted := PhaseReserved(w, j, Prevote), PhaseReserved(w, j, Precommit);
    if w.round < b.round || (prevoted == (b.local != Idle) && precommitted == (b.local == Precommitted)) {
      FlagsAgree(r, s, j);
    } else {
      RecoverInterrupted(r, s, j);
    }
  }

  lemma FullRecoveryExact(r: Rules, s: BftSession, to: Ballot, j: ChunkJournal)
    requires RulesOk(r) && Good(r, s, j) && Recovered(r, s.ballot, to, j)
    ensures RecoveryExact(r, s, j, Outcome(FullRecovery(r, s, to, j), j, true))
  {
    FullRecoveryOk(r, s, to, j);
    RecoveredOtherLocal(r, s.ballot, to, j, FromFlags(Signed(to, Prevote), Signed(to, Precommit)));
  }

  lemma RecoveredOtherLocal(r: Rules, b: Ballot, to: Ballot, j: ChunkJournal, local: Progress)
    requires Recovered(r, b, to, j)
    ensures Recovered(r, b, to.(local := local), j)
  {
  }

  lemma RecoverInterrupted(r: Rules, s: BftSession, j: ChunkJournal)
    requires RulesOk(r) && Good(r, s, j) && j.mark.Some? && WatermarkAccepted(r.certifies, r.chunk, j)
    requires AdoptLock(s.lock, j.mark.value.locked) == LockOf(j)
    requires j.mark.value.round == s.ballot.round && RecoverLock(LockOf(j), j.mark.value.precommit) == LockOf(j)
    requires !(PhaseReserved(j.mark.value, j, Prevote) == (s.ballot.local != Idle)
               && PhaseReserved(j.mark.value, j, Precommit) == (s.ballot.local == Precommitted))
    ensures Recover(r, s, j).Ok? && RecoveryExact(r, s, j, Recover(r, s, j).value)
  {
    RecoverMessagesExact(r, s, j);
    var to := RecoverMessages(r, s.ballot, j, j.mark.value).value;
    RecoverComputes(r, s, j, to);
    FullRecoveryExact(r, s, to, j);
  }

  lemma RecoverComputes(r: Rules, s: BftSession, j: ChunkJournal, to: Ballot)
    requires Good(r, s, j) && j.mark.Some? && WatermarkAccepted(r.certifies, r.chunk, j)
    requires AdoptLock(s.lock, j.mark.value.locked) == LockOf(j)
    requires j.mark.value.round == s.ballot.round && RecoverLock(LockOf(j), j.mark.value.precommit) == LockOf(j)
    requires !(PhaseReserved(j.mark.value, j, Prevote) == (s.ballot.local != Idle)
               && PhaseReserved(j.mark.value, j, Precommit) == (s.ballot.local == Precommitted))
    requires RecoverMessages(r, s.ballot, j, j.mark.value) == Ok(to) && Recovered(r, s.ballot, to, j)
    ensures Recover(r, s, j) == Ok(Outcome(FullRecovery(r, s, to, j), j, true))
  {
    ResignChangesNothing(r, s, j);
    FlagsAreSigned(r, j, to);
    assert Signed(to, Prevote) || Signed(to, Precommit);
  }

  lemma {:induction false} SamePhases<T>(a: map<Phase, T>, b: map<Phase, T>)
    requires Prevote in a <==> Prevote in b
    requires Precommit in a <==> Precommit in b
    requires Prevote in a ==> a[Prevote] == b[Prevote]
    requires Precommit in a ==> a[Precommit] == b[Precommit]
    ensures a == b
  {
    forall phase: Phase
      ensures phase in a <==> phase in b
      ensures phase in a ==> a[phase] == b[phase]
    {
      match phase
      case Prevote =>
      case Precommit =>
    }
  }

  /** Counting a vote that is already counted changes nothing. */
  lemma RecountIsSame(r: Rules, b: Ballot, to: Ballot, j: ChunkJournal)
    requires LocalRecorded(r, b, j) && Recovered(r, b, to, j)
    requires b.localVotes == to.localVotes && b.localNils == to.localNils && b.local == to.local
    ensures b == to
  {
    assert to.prevotes == b.prevotes && to.precommits == b.precommits;
    assert to.nilPrevotes == b.nilPrevotes && to.nilPrecommits == b.nilPrecommits;
  }

  /** Recovery does not touch the votes of a session that already holds all its reservations. */
  lemma SyncedIsUnchanged(r: Rules, s: BftSession, j: ChunkJournal, out: Outcome)
    requires Good(r, s, j) && Synced(s, j) && RecoveryExact(r, s, j, out)
    ensures out.session.ballot == s.ballot
  {
    var b, to := s.ballot, out.session.ballot;
    PhaseUnchanged(r, s, j, to, Prevote);
    PhaseUnchanged(r, s, j, to, Precommit);
    SamePhases(b.localVotes, to.localVotes);
    SamePhases(b.localNils, to.localNils);
    RecountIsSame(r, b, to, j);
  }

  lemma PhaseUnchanged(r: Rules, s: BftSession, j: ChunkJournal, to: Ballot, phase: Phase)
    requires Good(r, s, j) && Synced(s, j) && to.round == s.ballot.round
    requires ValueRecovered(to, j, phase) && NilRecovered(to, j, phase)
    ensures phase in s.ballot.localVotes <==> phase in to.localVotes
    ensures phase in to.localVotes ==> s.ballot.localVotes[phase] == to.localVotes[phase]
    ensures phase in s.ballot.localNils <==> phase in to.localNils
    ensures phase in to.localNils ==> s.ballot.localNils[phase] == to.localNils[phase]
  {
    match phase
    case Prevote =>
    case Precommit =>
  }
}

/** What one reservation changes in a journal, seen from the round it is made for. */
module JournalGrowth {
  import opened Types
  import opened SigningJournal

  /** Compaction drops only messages of earlier rounds. */
  predicate MessagesKept(j: ChunkJournal, next: ChunkJournal, round: nat) {
    && next.messageMarks == j.messageMarks
    && (forall s :: s in next.messages ==> s in j.messages && next.messages[s] == j.messages[s])
    && (forall s :: s in j.messages && s !in next.messages ==> s.round < round)
  }

  ghost predicate NilsKept(j: ChunkJournal, next: ChunkJournal, round: nat) {
    forall s: Slot :: s.round == round ==>
      (s in next.nils <==> s in j.nils) && (s in next.nils ==> next.nils[s] == j.nils[s])
  }

  /** No intent appears or changes, and none of `round` is dropped. */
  predicate IntentsKept(j: ChunkJournal, next: ChunkJournal, round: nat) {
    && (forall s :: s in next.intents ==> s in j.intents && next.intents[s] == j.intents[s])
    && (forall s :: s in j.intents && s.round == round ==> s in next.intents)
  }

  function LockOf(j: ChunkJournal): Option<QuorumCert> {
    if j.mark.Some? then j.mark.value.locked else None
  }

  ghost predicate VoteAdded(j: ChunkJournal, next: ChunkJournal, intent: VoteIntent) {
    var round, slot := intent.data.round, SlotOf(intent.data);
    && next.mark.Some? && next.mark.value.round == round
    && LockOf(next) == (if intent.data.phase == Precommit then intent.unlock else LockOf(j))
    && slot in next.intents && next.intents[slot] == intent
    && (forall s :: s in next.intents && s != slot ==> s in j.intents && next.intents[s] == j.intents[s])
    && (forall s :: s in j.intents && s.round == round ==> s in next.intents)
    && NilsKept(j, next, round)
    && MessagesKept(j, next, round)
  }

  ghost predicate NilAdded(j: ChunkJournal, next: ChunkJournal, nil: NilIntent) {
    var slot := Slot(nil.round, nil.phase);
    && next.mark.Some? && next.mark.value.round == nil.round
    && LockOf(next) == LockOf(j)
    && slot in next.nils && next.nils[slot] == nil
    && (forall s: Slot :: s.round == nil.round && s != slot ==>
          (s in next.nils <==> s in j.nils) && (s in next.nils ==> next.nils[s] == j.nils[s]))
    && IntentsKept(j, next, nil.round)
    && MessagesKept(j, next, nil.round)
  }

  /** Votes are untouched; at most the kind's previous reservation is released. */
  predicate MessageAdded(j: ChunkJournal, next: ChunkJournal, kind: MessageKind, round: nat, message: Message) {
    var slot := MessageSlot(kind, round);
    && next.mark == j.mark && next.intents == j.intents && next.nils == j.nils
    && next.messageMarks == j.messageMarks[kind := round]
    && slot in next.messages && next.messages[slot] == message
    && (forall s :: s in next.messages && s != slot ==> s in j.messages && next.messages[s] == j.messages[s])
    && (forall s :: s in j.messages && s.kind != kind ==> s in next.messages)
  }

  lemma SignVoteAdds(verifies: Verifier, j: ChunkJournal, intent: VoteIntent)
    requires WellFormed(verifies, intent.data.chunk, j) && SignVote(verifies, j, intent).Ok?
    ensures VoteAdded(j, SignVote(verifies, j, intent).value, intent)
  {
    var prior := LoadMark(j, intent.data.round);
    CompactClearsRound(j, prior.round, intent.data.round, prior.locked);
    InstallAdds(verifies, j, Compact(j, prior.round, intent.data.round, prior.locked), prior, intent);
  }

  lemma InstallAdds(verifies: Verifier, j: ChunkJournal, c: ChunkJournal, prior: Watermark, intent: VoteIntent)
    requires WellFormed(verifies, intent.data.chunk, j)
    requires prior == LoadMark(j, intent.data.round) && prior.round <= intent.data.round
    requires RoundCleared(j, c, prior.round, intent.data.round, prior.locked)
    ensures VoteAdded(j, Install(c, prior.locked, Advanced(prior, intent.data.round), intent), intent)
  {
  }

  lemma SignNilAdds(verifies: Verifier, chunk: nat, j: ChunkJournal, nil: NilIntent)
    requires WellFormed(verifies, chunk, j) && SignNil(verifies, chunk, j, nil).Ok?
    ensures NilAdded(j, SignNil(verifies, chunk, j, nil).value, nil)
  {
    var prior := LoadMark(j, nil.round);
    CompactClearsRound(j, prior.round, nil.round, prior.locked);
  }

  lemma ReserveMessageAdds(verifies: Verifier, chunk: nat, j: ChunkJournal, kind: MessageKind, round: nat,
      message: Message)
    requires WellFormed(verifies, chunk, j) && ReserveMessage(verifies, chunk, j, kind, round, message).Ok?
    ensures MessageAdded(j, ReserveMessage(verifies, chunk, j, kind, round, message).value, kind, round, message)
  {
  }

  // ----- signing again -----

  /** Signing a current reservation again changes nothing. */
  lemma SignVoteAgain(verifies: Verifier, chunk: nat, j: ChunkJournal, phase: Phase)
    requires WellFormed(verifies, chunk, j) && j.mark.Some? && Slot(j.mark.value.round, phase) in j.intents
    requires UnlockAllowed(verifies, j.intents[Slot(j.mark.value.round, phase)], j.mark.value.locked)
    ensures SignVote(verifies, j, j.intents[Slot(j.mark.value.round, phase)]) == Ok(j)
  {
    var w := j.mark.value;
    var slot := Slot(w.round, phase);
    var intent := j.intents[slot];
    assert SlotOf(intent.data) == slot;
    assert j.intents[slot := intent] == j.intents;
  }

  lemma SignNilAgain(verifies: Verifier, chunk: nat, j: ChunkJournal, phase: Phase)
    requires WellFormed(verifies, chunk, j) && j.mark.Some? && Slot(j.mark.value.round, phase) in j.nils
    ensures SignNil(verifies, chunk, j, j.nils[Slot(j.mark.value.round, phase)]) == Ok(j)
  {
    var slot := Slot(j.mark.value.round, phase);
    assert j.nils[slot := j.nils[slot]] == j.nils;
  }
}

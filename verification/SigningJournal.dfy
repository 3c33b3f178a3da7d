/** The durable signing journal: exact reservations written before a signature is made,
    monotonic watermarks, compaction on round advance and pruning below finality.

    The records of one identity and chunk form a `ChunkJournal`; the five maps are the five
    chunk-scoped record families. A batch is atomic: it becomes one new value. */
module SigningJournal {
  import opened Types

  /** Verdict of the quorum check under the active set of the certificate's chunk. */
  type Verifier = QuorumCert -> bool

  datatype VoteIntent = VoteIntent(data: VoteData, index: nat, proofs: seq<Hash>, unlock: Option<QuorumCert>)

  datatype NilIntent = NilIntent(round: nat, phase: Phase, index: nat)

  datatype Watermark = Watermark(
    round: nat,
    prevote: Option<VoteIntent>,
    precommit: Option<VoteIntent>,
    locked: Option<QuorumCert>)

  datatype Slot = Slot(round: nat, phase: Phase)

  datatype MessageSlot = MessageSlot(kind: MessageKind, round: nat)

  datatype ChunkJournal = ChunkJournal(
    mark: Option<Watermark>,
    intents: map<Slot, VoteIntent>,
    nils: map<Slot, NilIntent>,
    messages: map<MessageSlot, Message>,
    messageMarks: map<MessageKind, nat>)

  const EMPTY: ChunkJournal := ChunkJournal(None, map[], map[], map[], map[])

  function SlotOf(data: VoteData): Slot {
    Slot(data.round, data.phase)
  }

  function LockSlot(lock: QuorumCert): Slot {
    Slot(lock.round, Precommit)
  }

  // ----- reading the journal -----

  /** `verify_unlock_using`: a prevote's justification predates its round, a precommit's may be of its round. */
  predicate UnlockBinds(verifies: Verifier, data: VoteData, unlock: QuorumCert) {
    && unlock.chunk == data.chunk
    && unlock.hash == data.hash
    && (if data.phase == Prevote then unlock.round < data.round else unlock.round <= data.round)
    && verifies(unlock)
  }

  /** `validate_vote_unlock` against the retained lock. */
  predicate UnlockAllowed(verifies: Verifier, intent: VoteIntent, locked: Option<QuorumCert>) {
    && (intent.data.phase == Prevote ==> intent.proofs == [])
    && (intent.unlock.Some? ==> UnlockBinds(verifies, intent.data, intent.unlock.value))
    && (locked.Some? && intent.data.hash != locked.value.hash ==>
          intent.unlock.Some? && intent.unlock.value.round > locked.value.round)
    && (intent.data.phase == Precommit ==>
          intent.unlock.Some? && intent.unlock.value.round == intent.data.round)
  }

  predicate IntentRecorded(chunk: nat, j: ChunkJournal, round: nat, phase: Phase, intent: Option<VoteIntent>) {
    intent.Some? ==>
      && intent.value.data.chunk == chunk
      && SlotOf(intent.value.data) == Slot(round, phase)
      && Slot(round, phase) in j.intents
      && j.intents[Slot(round, phase)] == intent.value
  }

  /** `validate_vote_watermark`: the checks made each time a watermark is read. */
  predicate WatermarkAccepted(verifies: Verifier, chunk: nat, j: ChunkJournal) {
    j.mark.Some? ==>
      var w := j.mark.value;
      && IntentRecorded(chunk, j, w.round, Prevote, w.prevote)
      && IntentRecorded(chunk, j, w.round, Precommit, w.precommit)
      && (w.locked.Some? ==>
            var lock := w.locked.value;
            && LockSlot(lock) in j.intents
            && var intent := j.intents[LockSlot(lock)];
            && intent.data == VoteData(lock.chunk, lock.round, lock.hash, Precommit)
            && intent.unlock == Some(lock)
            && lock.round <= w.round
            && UnlockBinds(verifies, intent.data, lock))
      && (w.precommit.Some? ==> w.precommit.value.unlock == w.locked)
  }

  function LoadMark(j: ChunkJournal, round: nat): Watermark {
    if j.mark.Some? then j.mark.value else Watermark(round, None, None, None)
  }

  /** `VoteWatermark::advance` for a round that is not earlier. */
  function Advanced(w: Watermark, round: nat): Watermark
    requires w.round <= round
  {
    if round > w.round then Watermark(round, None, None, w.locked) else w
  }

  // ----- writing the journal -----

  /** Drop both vote records of one phase of the old round, except the precommit intent of the retained lock. */
  function DropPhase(j: ChunkJournal, oldRound: nat, phase: Phase, lock: Option<QuorumCert>): ChunkJournal {
    var slot := Slot(oldRound, phase);
    var intents := if phase != Precommit || lock.None? || lock.value.round != oldRound then j.intents - {slot}
      else j.intents;
    j.(intents := intents, nils := j.nils - {slot})
  }

  function DropMessages(j: ChunkJournal, oldRound: nat, newRound: nat): ChunkJournal {
    var kept := j.messages - {MessageSlot(ProposalKind, oldRound)} - {MessageSlot(ReportKind, oldRound)};
    j.(messages := if oldRound + 1 < newRound then kept - {MessageSlot(ReportKind, oldRound + 1)} else kept)
  }

  /** `compact_round_intents`: drop only positions that the new watermark makes unsignable. */
  function Compact(j: ChunkJournal, oldRound: nat, newRound: nat, lock: Option<QuorumCert>): ChunkJournal {
    if newRound <= oldRound then j
    else DropMessages(DropPhase(DropPhase(j, oldRound, Prevote, lock), oldRound, Precommit, lock), oldRound, newRound)
  }

  /** `sign_vote_durable`: the journal after reserving `intent`, or the refusal. */
  function SignVote(verifies: Verifier, j: ChunkJournal, intent: VoteIntent): Result<ChunkJournal> {
    var round := intent.data.round;
    var prior := LoadMark(j, round);
    if SlotOf(intent.data) in j.nils then Err(Conflict)
    else if !WatermarkAccepted(verifies, intent.data.chunk, j) then Err(Corrupt)
    else if !UnlockAllowed(verifies, intent, prior.locked) then Err(Conflict)
    else if round < prior.round then Err(Regression)
    else
      var moved := Advanced(prior, round);
      var entry := if intent.data.phase == Prevote then moved.prevote else moved.precommit;
      if entry.Some? && entry.value != intent then Err(Conflict)
      else Ok(Reserved(j, prior, moved, intent))
  }

  function Reserved(j: ChunkJournal, prior: Watermark, moved: Watermark, intent: VoteIntent): ChunkJournal {
    Install(Compact(j, prior.round, intent.data.round, prior.locked), prior.locked, moved, intent)
  }

  /** Write the watermark and the intent over a compacted journal; a new lock releases the previous one's intent. */
  function Install(c: ChunkJournal, priorLock: Option<QuorumCert>, moved: Watermark, intent: VoteIntent): ChunkJournal {
    var next := if intent.data.phase == Prevote then moved.(prevote := Some(intent))
                else moved.(precommit := Some(intent), locked := intent.unlock);
    var released := if intent.data.phase == Precommit && priorLock.Some? && priorLock.value.round < intent.data.round
                    then c.intents - {LockSlot(priorLock.value)} else c.intents;
    c.(mark := Some(next), intents := released[SlotOf(intent.data) := intent])
  }

  /** `sign_nil_vote_durable`. */
  function SignNil(verifies: Verifier, chunk: nat, j: ChunkJournal, nil: NilIntent): Result<ChunkJournal> {
    var slot := Slot(nil.round, nil.phase);
    var prior := LoadMark(j, nil.round);
    if slot in j.intents then Err(Conflict)
    else if !WatermarkAccepted(verifies, chunk, j) then Err(Corrupt)
    else if nil.round < prior.round then Err(Regression)
    else if slot in j.nils && j.nils[slot] != nil then Err(Conflict)
    else
      var compacted := Compact(j, prior.round, nil.round, prior.locked);
      Ok(compacted.(mark := Some(Advanced(prior, nil.round)), nils := compacted.nils[slot := nil]))
  }

  /** `reserve_round_message` with `compact_message_intents`. */
  function ReserveMessage(verifies: Verifier, chunk: nat, j: ChunkJournal, kind: MessageKind, round: nat,
      message: Message)
    : Result<ChunkJournal>
  {
    var slot := MessageSlot(kind, round);
    if !WatermarkAccepted(verifies, chunk, j) then Err(Corrupt)
    else if j.mark.Some? && j.mark.value.round > round then Err(Regression)
    else if slot in j.messages && j.messages[slot] != message then Err(Conflict)
    else if kind in j.messageMarks && round < j.messageMarks[kind] then Err(Regression)
    else
      var kept := if kind in j.messageMarks && round > j.messageMarks[kind]
                  then j.messages - {MessageSlot(kind, j.messageMarks[kind])} else j.messages;
      Ok(j.(messages := kept[slot := message], messageMarks := j.messageMarks[kind := round]))
  }

  // ----- what every signing step keeps -----

  predicate LockRecorded(verifies: Verifier, chunk: nat, w: Watermark, j: ChunkJournal) {
    w.locked.Some? ==>
      var lock := w.locked.value;
      && lock.chunk == chunk && lock.round <= w.round && verifies(lock)
      && LockSlot(lock) in j.intents
      && j.intents[LockSlot(lock)].unlock == Some(lock)
      && j.intents[LockSlot(lock)].data.hash == lock.hash
  }

  predicate RecordsInRange(chunk: nat, w: Watermark, j: ChunkJournal) {
    && (forall s :: s in j.intents ==>
          && j.intents[s].data.chunk == chunk && SlotOf(j.intents[s].data) == s
          && (s.round == w.round || (w.locked.Some? && s == LockSlot(w.locked.value))))
    && (forall s :: s in j.nils ==>
          s.round == w.round && s !in j.intents && j.nils[s].round == s.round && j.nils[s].phase == s.phase)
  }

  predicate CurrentRecorded(w: Watermark, j: ChunkJournal) {
    && (w.prevote.Some? <==> Slot(w.round, Prevote) in j.intents)
    && (w.precommit.Some? <==> Slot(w.round, Precommit) in j.intents)
    && (w.prevote.Some? ==> w.prevote.value == j.intents[Slot(w.round, Prevote)])
    && (w.precommit.Some? ==>
          w.precommit.value == j.intents[Slot(w.round, Precommit)] && w.precommit.value.unlock == w.locked)
  }

  predicate MessagesMarked(j: ChunkJournal) {
    forall s :: s in j.messages ==> s.kind in j.messageMarks && j.messageMarks[s.kind] == s.round
  }

  /** The journal invariant: records exist only at the watermark's round and at the retained lock,
      and each reservation kept there is exactly the one the watermark names. */
  predicate WellFormed(verifies: Verifier, chunk: nat, j: ChunkJournal) {
    && MessagesMarked(j)
    && (j.mark.None? ==> j.intents == map[] && j.nils == map[])
    && (j.mark.Some? ==>
          && LockRecorded(verifies, chunk, j.mark.value, j)
          && RecordsInRange(chunk, j.mark.value, j)
          && CurrentRecorded(j.mark.value, j))
  }

  lemma WellFormedIsAccepted(verifies: Verifier, chunk: nat, j: ChunkJournal)
    requires WellFormed(verifies, chunk, j)
    ensures WatermarkAccepted(verifies, chunk, j)
  {
  }

  /** `c` is `j` without the old round, but for the retained lock's precommit. */
  ghost predicate RoundCleared(j: ChunkJournal, c: ChunkJournal, oldRound: nat, newRound: nat,
      lock: Option<QuorumCert>) {
    && c.mark == j.mark && c.messageMarks == j.messageMarks
    && (forall s :: s in c.intents <==>
          s in j.intents && (newRound <= oldRound || s.round != oldRound || (lock.Some? && s == LockSlot(lock.value))))
    && (forall s :: s in c.intents ==> c.intents[s] == j.intents[s])
    && (forall s :: s in c.nils <==> s in j.nils && (newRound <= oldRound || s.round != oldRound))
    && (forall s :: s in c.nils ==> c.nils[s] == j.nils[s])
    && (forall s :: s in c.messages ==> s in j.messages && c.messages[s] == j.messages[s])
    && (forall s :: s in j.messages && s !in c.messages ==> s.round < newRound)
  }

  lemma CompactClearsRound(j: ChunkJournal, oldRound: nat, newRound: nat, lock: Option<QuorumCert>)
    ensures RoundCleared(j, Compact(j, oldRound, newRound, lock), oldRound, newRound, lock)
  {
    forall s: Slot
      ensures s.round == oldRound ==> s == Slot(oldRound, Prevote) || s == Slot(oldRound, Precommit)
    {
      match s.phase
      case Prevote =>
      case Precommit =>
    }
  }

  lemma SignVoteKeepsWellFormed(verifies: Verifier, j: ChunkJournal, intent: VoteIntent)
    requires WellFormed(verifies, intent.data.chunk, j)
    requires SignVote(verifies, j, intent).Ok?
    ensures WellFormed(verifies, intent.data.chunk, SignVote(verifies, j, intent).value)
  {
    var prior := LoadMark(j, intent.data.round);
    CompactClearsRound(j, prior.round, intent.data.round, prior.locked);
    InstallKeepsWellFormed(verifies, j, Compact(j, prior.round, intent.data.round, prior.locked), prior, intent);
  }

  /** What signing has checked before it writes over the compacted journal `c`. */
  ghost predicate Installable(verifies: Verifier, j: ChunkJournal, c: ChunkJournal, prior: Watermark,
      intent: VoteIntent) {
    && WellFormed(verifies, intent.data.chunk, j)
    && prior == LoadMark(j, intent.data.round) && prior.round <= intent.data.round
    && RoundCleared(j, c, prior.round, intent.data.round, prior.locked)
    && SlotOf(intent.data) !in j.nils && UnlockAllowed(verifies, intent, prior.locked)
    && (prior.round == intent.data.round ==>
          (if intent.data.phase == Prevote then prior.prevote else prior.precommit) in {None, Some(intent)})
  }

  lemma InstallKeepsLock(verifies: Verifier, j: ChunkJournal, c: ChunkJournal, prior: Watermark, intent: VoteIntent)
    requires Installable(verifies, j, c, prior, intent)
    ensures var next := Install(c, prior.locked, Advanced(prior, intent.data.round), intent);
      LockRecorded(verifies, intent.data.chunk, next.mark.value, next)
  {
  }

  lemma InstallKeepsRange(verifies: Verifier, j: ChunkJournal, c: ChunkJournal, prior: Watermark, intent: VoteIntent)
    requires Installable(verifies, j, c, prior, intent)
    ensures var next := Install(c, prior.locked, Advanced(prior, intent.data.round), intent);
      RecordsInRange(intent.data.chunk, next.mark.value, next)
  {
  }

  lemma InstallKeepsCurrent(verifies: Verifier, j: ChunkJournal, c: ChunkJournal, prior: Watermark, intent: VoteIntent)
    requires Installable(verifies, j, c, prior, intent)
    ensures var next := Install(c, prior.locked, Advanced(prior, intent.data.round), intent);
      CurrentRecorded(next.mark.value, next) && MessagesMarked(next)
  {
  }

  lemma InstallKeepsWellFormed(verifies: Verifier, j: ChunkJournal, c: ChunkJournal, prior: Watermark,
      intent: VoteIntent)
    requires Installable(verifies, j, c, prior, intent)
    ensures WellFormed(verifies, intent.data.chunk,
      Install(c, prior.locked, Advanced(prior, intent.data.round), intent))
  {
    InstallKeepsLock(verifies, j, c, prior, intent);
    InstallKeepsRange(verifies, j, c, prior, intent);
    InstallKeepsCurrent(verifies, j, c, prior, intent);
  }

  lemma SignNilKeepsWellFormed(verifies: Verifier, chunk: nat, j: ChunkJournal, nil: NilIntent)
    requires WellFormed(verifies, chunk, j)
    requires SignNil(verifies, chunk, j, nil).Ok?
    ensures WellFormed(verifies, chunk, SignNil(verifies, chunk, j, nil).value)
  {
    var prior := LoadMark(j, nil.round);
    CompactClearsRound(j, prior.round, nil.round, prior.locked);
  }

  lemma ReserveMessageKeepsWellFormed(
    verifies: Verifier, chunk: nat, j: ChunkJournal, kind: MessageKind, round: nat, message: Message)
    requires WellFormed(verifies, chunk, j)
    requires ReserveMessage(verifies, chunk, j, kind, round, message).Ok?
    ensures WellFormed(verifies, chunk, ReserveMessage(verifies, chunk, j, kind, round, message).value)
  {
  }

  // ----- the retained lock -----

  /** A value step either keeps the lock or replaces it by its own round's quorum; the lock's round never falls. */
  lemma SignVoteLock(verifies: Verifier, j: ChunkJournal, intent: VoteIntent)
    requires WellFormed(verifies, intent.data.chunk, j)
    requires SignVote(verifies, j, intent).Ok?
    ensures var prior, next := LoadMark(j, intent.data.round), SignVote(verifies, j, intent).value.mark.value;
      && next.round == intent.data.round >= prior.round
      && next.locked == (if intent.data.phase == Precommit then intent.unlock else prior.locked)
      && (prior.locked.Some? ==> next.locked.Some? && next.locked.value.round >= prior.locked.value.round)
  {
  }

  lemma SignNilLock(verifies: Verifier, chunk: nat, j: ChunkJournal, nil: NilIntent)
    requires WellFormed(verifies, chunk, j)
    requires SignNil(verifies, chunk, j, nil).Ok?
    ensures var prior, next := LoadMark(j, nil.round), SignNil(verifies, chunk, j, nil).value.mark.value;
      next.round == nil.round >= prior.round && next.locked == prior.locked
  {
  }

  // ----- bounded storage -----

  function Records(j: ChunkJournal): nat {
    (if j.mark.Some? then 1 else 0) + |j.intents| + |j.nils| + |j.messages| + |j.messageMarks|
  }

  lemma SubsetCardinality<T>(a: set<T>, b: set<T>)
    requires a <= b
    ensures |a| <= |b|
  {
    assert b == a + (b - a);
  }

  /** However many rounds have passed, one identity keeps at most eight records of an unfinalized chunk. */
  lemma AtMostEightRecords(verifies: Verifier, chunk: nat, j: ChunkJournal)
    requires WellFormed(verifies, chunk, j)
    ensures Records(j) <= 8
  {
    AtMostTwoMessages(j);
    if j.mark.Some? {
      AtMostThreeVotes(chunk, j.mark.value, j);
    }
  }

  lemma ThreeSlots(a: set<Slot>, b: set<Slot>, x: Slot, y: Slot, z: Slot)
    requires a !! b && forall s :: s in a || s in b ==> s == x || s == y || s == z
    ensures |a| + |b| <= 3
  {
    assert a + b <= {x, y, z};
    SubsetCardinality(a + b, {x, y, z});
    assert |a + b| == |a| + |b|;
  }

  /** Votes are recorded at the two phases of the watermark's round and at the lock. */
  lemma AtMostThreeVotes(chunk: nat, w: Watermark, j: ChunkJournal)
    requires RecordsInRange(chunk, w, j)
    ensures |j.intents| + |j.nils| <= 3
  {
    var lock := if w.locked.Some? then LockSlot(w.locked.value) else Slot(w.round, Precommit);
    forall s: Slot | s in j.intents.Keys || s in j.nils.Keys
      ensures s == Slot(w.round, Prevote) || s == Slot(w.round, Precommit) || s == lock
    {
      match s.phase
      case Prevote =>
      case Precommit =>
    }
    ThreeSlots(j.intents.Keys, j.nils.Keys, Slot(w.round, Prevote), Slot(w.round, Precommit), lock);
  }

  lemma AtMostTwoMessages(j: ChunkJournal)
    requires MessagesMarked(j)
    ensures |j.messages| <= 2 && |j.messageMarks| <= 2
  {
    forall k: MessageKind | k in j.messageMarks
      ensures k in {ProposalKind, ReportKind}
    {
      match k
      case ProposalKind =>
      case ReportKind =>
    }
    SubsetCardinality(j.messageMarks.Keys, {ProposalKind, ReportKind});
    var p := if ProposalKind in j.messageMarks then j.messageMarks[ProposalKind] else 0;
    var r := if ReportKind in j.messageMarks then j.messageMarks[ReportKind] else 0;
    forall s: MessageSlot | s in j.messages
      ensures s in {MessageSlot(ProposalKind, p), MessageSlot(ReportKind, r)}
    {
      match s.kind
      case ProposalKind =>
      case ReportKind =>
    }
    SubsetCardinality(j.messages.Keys, {MessageSlot(ProposalKind, p), MessageSlot(ReportKind, r)});
  }

  /** The bound is exact: a lock of round 0, then a proposal and two nil votes of round 1 and a report for round 2. */
  lemma EightRecordsAreReached(verifies: Verifier, lock: QuorumCert, intent: VoteIntent, proposal: Message,
      report: Message)
    requires lock.round == 0 && verifies(lock)
    requires intent == VoteIntent(VoteData(lock.chunk, 0, lock.hash, Precommit), 0, [], Some(lock))
    ensures exists j1, j2, j3, j4, j5 ::
      && SignVote(verifies, EMPTY, intent) == Ok(j1)
      && ReserveMessage(verifies, lock.chunk, j1, ProposalKind, 1, proposal) == Ok(j2)
      && SignNil(verifies, lock.chunk, j2, NilIntent(1, Prevote, 0)) == Ok(j3)
      && SignNil(verifies, lock.chunk, j3, NilIntent(1, Precommit, 0)) == Ok(j4)
      && ReserveMessage(verifies, lock.chunk, j4, ReportKind, 2, report) == Ok(j5)
      && Records(j5) == 8
  {
    var p, r := MessageSlot(ProposalKind, 1), MessageSlot(ReportKind, 2);
    var n0, n1 := NilIntent(1, Prevote, 0), NilIntent(1, Precommit, 0);
    var intents := map[Slot(0, Precommit) := intent];
    var j1 := ChunkJournal(Some(Watermark(0, None, Some(intent), Some(lock))), intents, map[], map[], map[]);
    var j2 := j1.(messages := map[p := proposal], messageMarks := map[ProposalKind := 1]);
    var j3 := j2.(mark := Some(Watermark(1, None, None, Some(lock))), nils := map[Slot(1, Prevote) := n0]);
    var j4 := j3.(nils := map[Slot(1, Prevote) := n0, Slot(1, Precommit) := n1]);
    var j5 := j4.(messages := map[p := proposal, r := report], messageMarks := map[ProposalKind := 1, ReportKind := 2]);
    assert SignVote(verifies, EMPTY, intent) ==
      Ok(j1) by { assert EMPTY.intents[SlotOf(intent.data) := intent] == intents; }
    assert ReserveMessage(verifies, lock.chunk, j1, ProposalKind, 1, proposal) == Ok(j2);
    assert SignNil(verifies, lock.chunk, j2, n0) == Ok(j3) by {
      var c := Compact(j2, 0, 1, Some(lock));
      assert c.intents == intents && c.messages == j2.messages;
      assert c.nils[Slot(1, Prevote) := n0] == j3.nils;
    }
    assert SignNil(verifies, lock.chunk, j3, n1) == Ok(j4);
    assert ReserveMessage(verifies, lock.chunk, j4, ReportKind, 2, report) == Ok(j5);
    assert Records(j5) == 8;
  }

  // ----- no equivocation -----

  /** One exact reservation: what a signature was made for. */
  datatype Reservation =
    | ValueVote(intent: VoteIntent)
    | NilVote(nil: NilIntent)
    | RoundMessage(kind: MessageKind, round: nat, message: Message)

  function VoteSlot(e: Reservation): Slot
    requires !e.RoundMessage?
  {
    if e.ValueVote? then SlotOf(e.intent.data) else Slot(e.nil.round, e.nil.phase)
  }

  /** Both reservations claim one signing position: a round and phase, or a round and message kind. */
  predicate SamePosition(a: Reservation, b: Reservation) {
    if a.RoundMessage? || b.RoundMessage?
    then a.RoundMessage? && b.RoundMessage? && a.kind == b.kind && a.round == b.round
    else VoteSlot(a) == VoteSlot(b)
  }

  /** The journal still protects reservation `e`: it lies below a watermark, or its exact record is present. */
  predicate Covers(j: ChunkJournal, e: Reservation) {
    match e
    case ValueVote(i) =>
      && j.mark.Some? && i.data.round <= j.mark.value.round
      && (i.data.round == j.mark.value.round ==> SlotOf(i.data) in j.intents && j.intents[SlotOf(i.data)] == i)
    case NilVote(n) =>
      && j.mark.Some? && n.round <= j.mark.value.round
      && (n.round == j.mark.value.round ==> Slot(n.round, n.phase) in j.nils && j.nils[Slot(n.round, n.phase)] == n)
    case RoundMessage(kind, round, message) =>
      && kind in j.messageMarks && round <= j.messageMarks[kind]
      && (round == j.messageMarks[kind] ==>
            || (MessageSlot(kind, round) in j.messages && j.messages[MessageSlot(kind, round)] == message)
            || (j.mark.Some? && j.mark.value.round > round))
  }

  lemma SignVoteCovers(verifies: Verifier, j: ChunkJournal, intent: VoteIntent, e: Reservation)
    requires WellFormed(verifies, intent.data.chunk, j) && Covers(j, e)
    requires SignVote(verifies, j, intent).Ok?
    ensures Covers(SignVote(verifies, j, intent).value, e)
    ensures SamePosition(e, ValueVote(intent)) ==> e == ValueVote(intent)
  {
    var prior := LoadMark(j, intent.data.round);
    CompactClearsRound(j, prior.round, intent.data.round, prior.locked);
  }

  lemma SignNilCovers(verifies: Verifier, chunk: nat, j: ChunkJournal, nil: NilIntent, e: Reservation)
    requires WellFormed(verifies, chunk, j) && Covers(j, e)
    requires SignNil(verifies, chunk, j, nil).Ok?
    ensures Covers(SignNil(verifies, chunk, j, nil).value, e)
    ensures SamePosition(e, NilVote(nil)) ==> e == NilVote(nil)
  {
    var prior := LoadMark(j, nil.round);
    CompactClearsRound(j, prior.round, nil.round, prior.locked);
  }

  lemma ReserveMessageCovers(
    verifies: Verifier, chunk: nat, j: ChunkJournal, kind: MessageKind, round: nat, message: Message, e: Reservation)
    requires WellFormed(verifies, chunk, j) && Covers(j, e)
    requires ReserveMessage(verifies, chunk, j, kind, round, message).Ok?
    ensures Covers(ReserveMessage(verifies, chunk, j, kind, round, message).value, e)
    ensures SamePosition(e, RoundMessage(kind, round, message)) ==> e == RoundMessage(kind, round, message)
  {
  }
}

/** The signing journal of a whole node: every identity and chunk, the finalized floor, and the
    history of everything ever signed. Runs of requests never equivocate, across compaction,
    finality and pruning. */
module SigningStore {
  import opened Types
  import opened SigningJournal

  /** `active`: the key matches an unslashed, staked position of the authenticated set. */
  datatype Voter = Voter(identity: nat, index: nat, active: bool)

  datatype Position = Position(identity: nat, chunk: nat)

  datatype Signed = Signed(position: Position, what: Reservation)

  datatype Request =
    | SignVoteRequest(voter: Voter, data: VoteData, proofs: seq<Hash>, unlock: Option<QuorumCert>)
    | SignNilRequest(voter: Voter, chunk: nat, round: nat, phase: Phase)
    | SignMessageRequest(voter: Voter, kind: MessageKind, chunk: nat, round: nat, message: Message)
    | RaiseFloor(floor: nat)
    | PruneFinalized

  datatype StoreState = StoreState(entries: map<Position, ChunkJournal>, floor: nat, signed: seq<Signed>)

  const FRESH: StoreState := StoreState(map[], 0, [])

  function EntryAt(st: StoreState, p: Position): ChunkJournal {
    if p in st.entries then st.entries[p] else EMPTY
  }

  /** `ensure_signable` */
  function Refusal(st: StoreState, voter: Voter, chunk: nat): Option<Violation> {
    if !voter.active then Some(KeyNotActive)
    else if chunk < st.floor then Some(FinalizedChunk)
    else None
  }

  function Commit(st: StoreState, voter: Voter, chunk: nat, outcome: Result<ChunkJournal>,
      what: Reservation): Result<StoreState> {
    var p := Position(voter.identity, chunk);
    if Refusal(st, voter, chunk).Some? then Err(Refusal(st, voter, chunk).value)
    else match outcome
      case Err(e) => Err(e)
      case Ok(j) => Ok(StoreState(st.entries[p := j], st.floor, st.signed + [Signed(p, what)]))
  }

  function Serve(verifies: Verifier, st: StoreState, req: Request): Result<StoreState> {
    match req
    case SignVoteRequest(voter, data, proofs, unlock) =>
      var intent := VoteIntent(data, voter.index, proofs, unlock);
      var j := EntryAt(st, Position(voter.identity, data.chunk));
      Commit(st, voter, data.chunk, SignVote(verifies, j, intent), ValueVote(intent))
    case SignNilRequest(voter, chunk, round, phase) =>
      var nil := NilIntent(round, phase, voter.index);
      var j := EntryAt(st, Position(voter.identity, chunk));
      Commit(st, voter, chunk, SignNil(verifies, chunk, j, nil), NilVote(nil))
    case SignMessageRequest(voter, kind, chunk, round, message) =>
      var j := EntryAt(st, Position(voter.identity, chunk));
      Commit(st, voter, chunk, ReserveMessage(verifies, chunk, j, kind, round, message),
        RoundMessage(kind, round, message))
    case RaiseFloor(floor) =>
      Ok(st.(floor := if floor > st.floor then floor else st.floor))
    case PruneFinalized =>
      Ok(st.(entries := map p | p in st.entries && p.chunk >= st.floor :: st.entries[p]))
  }

  /** A run of requests; a refused request changes nothing. */
  function Run(verifies: Verifier, reqs: seq<Request>): StoreState {
    if reqs == [] then FRESH
    else
      var st := Run(verifies, reqs[..|reqs| - 1]);
      match Serve(verifies, st, reqs[|reqs| - 1])
      case Ok(next) => next
      case Err(_) => st
  }

  // ----- the invariant of every run -----

  predicate EntriesWellFormed(verifies: Verifier, st: StoreState) {
    forall p :: p in st.entries ==> WellFormed(verifies, p.chunk, st.entries[p])
  }

  /** Everything signed above the floor is still covered by its journal. */
  predicate HistoryCovered(st: StoreState) {
    forall k :: 0 <= k < |st.signed| && st.signed[k].position.chunk >= st.floor ==>
      st.signed[k].position in st.entries && Covers(st.entries[st.signed[k].position], st.signed[k].what)
  }

  /** The journal of `p` covers everything ever signed there. */
  predicate StillCovered(st: StoreState, p: Position) {
    forall k :: 0 <= k < |st.signed| && st.signed[k].position == p ==> Covers(EntryAt(st, p), st.signed[k].what)
  }

  predicate Equivocates(a: Signed, b: Signed) {
    a.position == b.position && SamePosition(a.what, b.what) && a != b
  }

  predicate NeverEquivocated(st: StoreState) {
    forall a, b :: 0 <= a < b < |st.signed| ==> !Equivocates(st.signed[a], st.signed[b])
  }

  predicate StoreInvariant(verifies: Verifier, st: StoreState) {
    EntriesWellFormed(verifies, st) && HistoryCovered(st) && NeverEquivocated(st)
  }

  /** A signed step extends the history by a reservation that agrees with all of it. */
  lemma CommitKeepsInvariant(
    verifies: Verifier, st: StoreState, voter: Voter, chunk: nat, outcome: Result<ChunkJournal>, what: Reservation)
    requires StoreInvariant(verifies, st)
    requires Commit(st, voter, chunk, outcome, what).Ok?
    requires WellFormed(verifies, chunk, outcome.value) && Covers(outcome.value, what)
    requires forall e {:trigger Covers(outcome.value, e)} ::
      Covers(EntryAt(st, Position(voter.identity, chunk)), e) ==>
        Covers(outcome.value, e) && (SamePosition(e, what) ==> e == what)
    ensures StoreInvariant(verifies, Commit(st, voter, chunk, outcome, what).value)
  {
    var p := Position(voter.identity, chunk);
    var next := Commit(st, voter, chunk, outcome, what).value;
    forall k | 0 <= k < |next.signed| && next.signed[k].position.chunk >= next.floor
      ensures next.signed[k].position in next.entries
      ensures Covers(next.entries[next.signed[k].position], next.signed[k].what)
      ensures k < |st.signed| ==> !Equivocates(next.signed[k], Signed(p, what))
    {
      if k < |st.signed| {
        assert next.signed[k] == st.signed[k];
        if st.signed[k].position == p {
          assert Covers(outcome.value, st.signed[k].what);
        }
      }
    }
    forall a, b | 0 <= a < b < |next.signed|
      ensures !Equivocates(next.signed[a], next.signed[b])
    {
      if b < |st.signed| {
        assert !Equivocates(st.signed[a], st.signed[b]);
      } else if next.signed[a].position.chunk < next.floor {
        assert next.signed[a].position != p;
      }
    }
  }

  lemma ServeKeepsInvariant(verifies: Verifier, st: StoreState, req: Request)
    requires StoreInvariant(verifies, st)
    requires Serve(verifies, st, req).Ok?
    ensures StoreInvariant(verifies, Serve(verifies, st, req).value)
    ensures Serve(verifies, st, req).value.floor >= st.floor
    ensures st.signed <= Serve(verifies, st, req).value.signed
  {
    match req
    case SignVoteRequest(voter, data, proofs, unlock) =>
      var intent := VoteIntent(data, voter.index, proofs, unlock);
      var j := EntryAt(st, Position(voter.identity, data.chunk));
      SignVoteKeepsWellFormed(verifies, j, intent);
      forall e | Covers(j, e)
        ensures Covers(SignVote(verifies, j, intent).value, e)
          && (SamePosition(e, ValueVote(intent)) ==> e == ValueVote(intent))
      {
        SignVoteCovers(verifies, j, intent, e);
      }
      CommitKeepsInvariant(verifies, st, voter, data.chunk, SignVote(verifies, j, intent), ValueVote(intent));
    case SignNilRequest(voter, chunk, round, phase) =>
      var nil := NilIntent(round, phase, voter.index);
      var j := EntryAt(st, Position(voter.identity, chunk));
      SignNilKeepsWellFormed(verifies, chunk, j, nil);
      forall e | Covers(j, e)
        ensures Covers(SignNil(verifies, chunk, j, nil).value, e)
          && (SamePosition(e, NilVote(nil)) ==> e == NilVote(nil))
      {
        SignNilCovers(verifies, chunk, j, nil, e);
      }
      CommitKeepsInvariant(verifies, st, voter, chunk, SignNil(verifies, chunk, j, nil), NilVote(nil));
    case SignMessageRequest(voter, kind, chunk, round, message) =>
      var j := EntryAt(st, Position(voter.identity, chunk));
      var what := RoundMessage(kind, round, message);
      ReserveMessageKeepsWellFormed(verifies, chunk, j, kind, round, message);
      forall e | Covers(j, e)
        ensures Covers(ReserveMessage(verifies, chunk, j, kind, round, message).value, e)
          && (SamePosition(e, what) ==> e == what)
      {
        ReserveMessageCovers(verifies, chunk, j, kind, round, message, e);
      }
      CommitKeepsInvariant(verifies, st, voter, chunk, ReserveMessage(verifies, chunk, j, kind, round, message), what);
    case RaiseFloor(_) =>
    case PruneFinalized =>
  }

  lemma {:induction false} RunKeepsInvariant(verifies: Verifier, reqs: seq<Request>)
    ensures StoreInvariant(verifies, Run(verifies, reqs))
  {
    if reqs != [] {
      var st := Run(verifies, reqs[..|reqs| - 1]);
      RunKeepsInvariant(verifies, reqs[..|reqs| - 1]);
      if Serve(verifies, st, reqs[|reqs| - 1]).Ok? {
        ServeKeepsInvariant(verifies, st, reqs[|reqs| - 1]);
      }
    }
  }

  /** Over any run, two signatures of one identity, chunk and signing position are for the same exact reservation. */
  lemma RunsNeverEquivocate(verifies: Verifier, reqs: seq<Request>, a: nat, b: nat)
    requires a < |Run(verifies, reqs).signed| && b < |Run(verifies, reqs).signed|
    ensures var st := Run(verifies, reqs);
      st.signed[a].position == st.signed[b].position && SamePosition(st.signed[a].what, st.signed[b].what) ==>
        st.signed[a].what == st.signed[b].what
  {
    RunKeepsInvariant(verifies, reqs);
    var st := Run(verifies, reqs);
    if a < b {
      assert !Equivocates(st.signed[a], st.signed[b]);
    } else if b < a {
      assert !Equivocates(st.signed[b], st.signed[a]);
    }
  }

  /** Over any run: a position whose journal no longer covers what was signed there is refused. */
  lemma UncoveredIsRefused(verifies: Verifier, reqs: seq<Request>, voter: Voter, chunk: nat)
    ensures var st, p := Run(verifies, reqs), Position(voter.identity, chunk);
      !StillCovered(st, p) ==> Refusal(st, voter, chunk).Some?
  {
    RunKeepsInvariant(verifies, reqs);
  }

  /** The refusal is needed: after finality and pruning the bare journal of a finalized position would accept a second,
      conflicting vote, and the position is refused. */
  lemma RefusalIsNeeded(verifies: Verifier, voter: Voter, hash: Hash, other: Hash)
    requires voter.active && hash != other
    ensures var first := SignVoteRequest(voter, VoteData(0, 0, hash, Prevote), [], None);
      var st, p := Run(verifies, [first, RaiseFloor(1), PruneFinalized]), Position(voter.identity, 0);
      && !StillCovered(st, p) && Refusal(st, voter, 0) == Some(FinalizedChunk)
      && SignVote(verifies, EntryAt(st, p), VoteIntent(VoteData(0, 0, other, Prevote), voter.index, [], None)).Ok?
  {
    var first := SignVoteRequest(voter, VoteData(0, 0, hash, Prevote), [], None);
    var reqs := [first, RaiseFloor(1), PruneFinalized];
    assert reqs[..2] == [first, RaiseFloor(1)] && reqs[..2][..1] == [first] && [first][..0] == [];
    var signed := Run(verifies, [first]);
    var p, intent := Position(voter.identity, 0), VoteIntent(VoteData(0, 0, hash, Prevote), voter.index, [], None);
    assert Run(verifies, []) == FRESH;
    assert SignVote(verifies, EMPTY, intent).Ok?;
    assert signed.signed == [Signed(p, ValueVote(intent))];
    var raised := Run(verifies, reqs[..2]);
    assert raised == signed.(floor := 1);
    var pruned := Run(verifies, reqs);
    assert pruned.signed[0] == Signed(p, ValueVote(intent)) && p !in pruned.entries;
    assert !Covers(EMPTY, ValueVote(intent));
  }

  /** Every journal of every run passes the read-time checks and holds at most eight records. */
  lemma RunsStayAcceptedAndBounded(verifies: Verifier, reqs: seq<Request>, p: Position)
    requires p in Run(verifies, reqs).entries
    ensures WatermarkAccepted(verifies, p.chunk, Run(verifies, reqs).entries[p])
    ensures Records(Run(verifies, reqs).entries[p]) <= 8
  {
    RunKeepsInvariant(verifies, reqs);
    WellFormedIsAccepted(verifies, p.chunk, Run(verifies, reqs).entries[p]);
    AtMostEightRecords(verifies, p.chunk, Run(verifies, reqs).entries[p]);
  }

  /** The journal as the node keeps it. Each method stages a batch, commits it in one assignment
      and only then counts the signature as made. */
  class DurableJournal {
    const verifies: Verifier
    var entries: map<Position, ChunkJournal>
    var floor: nat
    ghost var signed: seq<Signed>

    ghost function State(): StoreState
      reads this
    {
      StoreState(entries, floor, signed)
    }

    constructor (verifies: Verifier)
      ensures this.verifies == verifies && State() == FRESH
    {
      this.verifies := verifies;
      entries := map[];
      floor := 0;
      signed := [];
    }

    method EntryOf(p: Position) returns (j: ChunkJournal)
      ensures j == EntryAt(State(), p)
    {
      j := EMPTY;
      if p in entries {
        j := entries[p];
      }
    }

    /** `ensure_signable`: refuses an inactive key and a finalized chunk, and nothing else. What it lets through still
        has a journal that covers everything ever signed there, however much was pruned. */
    method EnsureSignable(voter: Voter, chunk: nat) returns (refused: Option<Violation>)
      ensures refused == Some(KeyNotActive) <==> !voter.active
      ensures refused == Some(FinalizedChunk) <==> voter.active && chunk < floor
      ensures refused.None? <==> voter.active && floor <= chunk
      ensures refused.None? && HistoryCovered(State()) ==> StillCovered(State(), Position(voter.identity, chunk))
      ensures refused == Refusal(State(), voter, chunk)
    {
      refused := None;
      if !voter.active {
        refused := Some(KeyNotActive);
      } else if chunk < floor {
        refused := Some(FinalizedChunk);
      }
    }

    /** Stage the deletions of a round advance, phase by phase. */
    method CompactRoundIntents(j: ChunkJournal, oldRound: nat, newRound: nat, lock: Option<QuorumCert>)
      returns (staged: ChunkJournal)
      ensures staged == Compact(j, oldRound, newRound, lock)
    {
      staged := j;
      if newRound <= oldRound {
        return;
      }
      var phases := [Prevote, Precommit];
      for k := 0 to 2
        invariant k == 0 ==> staged == j
        invariant k == 1 ==> staged == DropPhase(j, oldRound, Prevote, lock)
        invariant k == 2 ==> staged == DropPhase(DropPhase(j, oldRound, Prevote, lock), oldRound, Precommit, lock)
      {
        var slot := Slot(oldRound, phases[k]);
        if phases[k] != Precommit || lock.None? || lock.value.round != oldRound {
          staged := staged.(intents := staged.intents - {slot});
        }
        staged := staged.(nils := staged.nils - {slot});
      }
      staged := staged.(messages := staged.messages - {MessageSlot(ProposalKind, oldRound)});
      staged := staged.(messages := staged.messages - {MessageSlot(ReportKind, oldRound)});
      if oldRound + 1 < newRound {
        staged := staged.(messages := staged.messages - {MessageSlot(ReportKind, oldRound + 1)});
      }
    }

    method SignVoteDurable(voter: Voter, data: VoteData, proofs: seq<Hash>, unlock: Option<QuorumCert>)
      returns (r: Result<VoteIntent>)
      modifies this
      ensures match Serve(verifies, old(State()), SignVoteRequest(voter, data, proofs, unlock))
              case Ok(next) => r == Ok(VoteIntent(data, voter.index, proofs, unlock)) && State() == next
              case Err(e) => r == Err(e) && State() == old(State())
    {
      var p := Position(voter.identity, data.chunk);
      var refused := EnsureSignable(voter, data.chunk);
      if refused.Some? {
        return Err(refused.value);
      }
      var j := EntryOf(p);
      if Slot(data.round, data.phase) in j.nils {
        return Err(Conflict);
      }
      if !WatermarkAccepted(verifies, data.chunk, j) {
        return Err(Corrupt);
      }
      var intent := VoteIntent(data, voter.index, proofs, unlock);
      var prior := LoadMark(j, data.round);
      if !UnlockAllowed(verifies, intent, prior.locked) {
        return Err(Conflict);
      }
      if data.round < prior.round {
        return Err(Regression);
      }
      var watermark := Advanced(prior, data.round);
      if data.phase == Prevote {
        if watermark.prevote.Some? && watermark.prevote.value != intent {
          return Err(Conflict);
        }
        watermark := watermark.(prevote := Some(intent));
      } else {
        if watermark.precommit.Some? && watermark.precommit.value != intent {
          return Err(Conflict);
        }
        watermark := watermark.(precommit := Some(intent));
        watermark := watermark.(locked := unlock);
      }
      var staged := CompactRoundIntents(j, prior.round, data.round, prior.locked);
      if data.phase == Precommit && prior.locked.Some? && prior.locked.value.round < data.round {
        staged := staged.(intents := staged.intents - {LockSlot(prior.locked.value)});
      }
      staged := staged.(mark := Some(watermark));
      staged := staged.(intents := staged.intents[SlotOf(data) := intent]);
      entries := entries[p := staged];
      signed := signed + [Signed(p, ValueVote(intent))];
      r := Ok(intent);
    }

    method SignNilDurable(voter: Voter, chunk: nat, round: nat, phase: Phase) returns (r: Result<NilIntent>)
      modifies this
      ensures match Serve(verifies, old(State()), SignNilRequest(voter, chunk, round, phase))
              case Ok(next) => r == Ok(NilIntent(round, phase, voter.index)) && State() == next
              case Err(e) => r == Err(e) && State() == old(State())
    {
      var p := Position(voter.identity, chunk);
      var refused := EnsureSignable(voter, chunk);
      if refused.Some? {
        return Err(refused.value);
      }
      var j := EntryOf(p);
      var slot := Slot(round, phase);
      if slot in j.intents {
        return Err(Conflict);
      }
      if !WatermarkAccepted(verifies, chunk, j) {
        return Err(Corrupt);
      }
      var prior := LoadMark(j, round);
      if round < prior.round {
        return Err(Regression);
      }
      var nil := NilIntent(round, phase, voter.index);
      if slot in j.nils && j.nils[slot] != nil {
        return Err(Conflict);
      }
      var staged := CompactRoundIntents(j, prior.round, round, prior.locked);
      staged := staged.(mark := Some(Advanced(prior, round)));
      staged := staged.(nils := staged.nils[slot := nil]);
      entries := entries[p := staged];
      signed := signed + [Signed(p, NilVote(nil))];
      r := Ok(nil);
    }

    method SignMessageDurable(voter: Voter, kind: MessageKind, chunk: nat, round: nat, message: Message)
      returns (r: Result<Message>)
      modifies this
      ensures match Serve(verifies, old(State()), SignMessageRequest(voter, kind, chunk, round, message))
              case Ok(next) => r == Ok(message) && State() == next
              case Err(e) => r == Err(e) && State() == old(State())
    {
      var p := Position(voter.identity, chunk);
      var refused := EnsureSignable(voter, chunk);
      if refused.Some? {
        return Err(refused.value);
      }
      var j := EntryOf(p);
      if !WatermarkAccepted(verifies, chunk, j) {
        return Err(Corrupt);
      }
      if j.mark.Some? && j.mark.value.round > round {
        return Err(Regression);
      }
      var slot := MessageSlot(kind, round);
      if slot in j.messages && j.messages[slot] != message {
        return Err(Conflict);
      }
      var staged := j;
      if kind in j.messageMarks {
        if round < j.messageMarks[kind] {
          return Err(Regression);
        }
        if round > j.messageMarks[kind] {
          staged := staged.(messages := staged.messages - {MessageSlot(kind, j.messageMarks[kind])});
        }
      }
      staged := staged.(messageMarks := staged.messageMarks[kind := round]);
      staged := staged.(messages := staged.messages[slot := message]);
      entries := entries[p := staged];
      signed := signed + [Signed(p, RoundMessage(kind, round, message))];
      r := Ok(message);
    }

    method RaiseFinalizedFloor(next: nat)
      modifies this
      ensures Ok(State()) == Serve(verifies, old(State()), RaiseFloor(next))
    {
      if next > floor {
        floor := next;
      }
    }

    /** `expired_signing_entries`: walk the journal and delete what lies below the floor. */
    method PruneExpired()
      modifies this
      ensures Ok(State()) == Serve(verifies, old(State()), PruneFinalized)
    {
      var pending := entries.Keys;
      var kept := entries;
      while pending != {}
        invariant pending <= entries.Keys && entries == old(entries) && floor == old(floor) && signed == old(signed)
        invariant forall p :: p in kept <==> p in entries && (p in pending || p.chunk >= floor)
        invariant forall p :: p in kept ==> kept[p] == entries[p]
        decreases pending
      {
        var p :| p in pending;
        if p.chunk < floor {
          kept := kept - {p};
        }
        pending := pending - {p};
      }
      assert kept == map p | p in entries && p.chunk >= floor :: entries[p];
      entries := kept;
    }
  }
}

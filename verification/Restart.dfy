/** The restart code step by step: it computes what module Session states. */
module Restart {
  import opened Types
  import opened SigningJournal
  import opened Pacemaker
  import opened Session

  const PHASES: seq<Phase> := [Prevote, Precommit]

  /** Local nil votes against the journal: each is the exact reservation of its phase and is counted again. */
  method CheckLocalNils(r: Rules, b: Ballot, j: ChunkJournal) returns (ok: bool, prevoted: bool, precommitted: bool)
    ensures ok <==> forall phase :: phase in b.localNils ==>
      && b.localNils[phase].round == b.round && Slot(b.round, phase) in j.nils
      && j.nils[Slot(b.round, phase)] == b.localNils[phase] && NilVerifies(r, b.round, phase, {r.self})
    ensures ok ==> prevoted == (Prevote in b.localNils) && precommitted == (Precommit in b.localNils)
  {
    prevoted, precommitted := false, false;
    for i := 0 to |PHASES|
      invariant forall k :: 0 <= k < i && PHASES[k] in b.localNils ==> NilIsReserved(r, b, j, PHASES[k])
      invariant prevoted == (i > 0 && Prevote in b.localNils)
      invariant precommitted == (i > 1 && Precommit in b.localNils)
    {
      var phase := PHASES[i];
      if phase in b.localNils {
        if !NilIsReserved(r, b, j, phase) {
          return false, prevoted, precommitted;
        }
        if phase == Prevote {
          prevoted := true;
        } else {
          precommitted := true;
        }
      }
    }
    ok := true;
    EveryPhase(r, b, j);
  }

  lemma EveryPhase(r: Rules, b: Ballot, j: ChunkJournal)
    requires forall k :: 0 <= k < |PHASES| && PHASES[k] in b.localNils ==> NilIsReserved(r, b, j, PHASES[k])
    ensures forall phase :: phase in b.localNils ==> NilIsReserved(r, b, j, phase)
  {
    forall phase | phase in b.localNils
      ensures NilIsReserved(r, b, j, phase)
    {
      match phase
      case Prevote => assert PHASES[0] == phase;
      case Precommit => assert PHASES[1] == phase;
    }
  }

  /** Local value votes: at most one signature per phase, on the session's target, with the session's own
      justification or receipts. */
  method CheckLocalVotes(r: Rules, b: Ballot, j: ChunkJournal, nilPrevoted: bool, nilPrecommitted: bool)
    returns (ok: bool, prevoted: bool, precommitted: bool)
    requires nilPrevoted == (Prevote in b.localNils) && nilPrecommitted == (Precommit in b.localNils)
    ensures ok <==>
      && (Prevote in b.localVotes ==>
            VoteIsReserved(r, b, j, Prevote) && b.localVotes[Prevote].unlock == b.justification)
      && (Precommit in b.localVotes ==>
            VoteIsReserved(r, b, j, Precommit) && b.localVotes[Precommit].proofs == b.proofs)
    ensures ok ==> prevoted == Signed(b, Prevote) && precommitted == Signed(b, Precommit)
  {
    ok, prevoted, precommitted := false, nilPrevoted, nilPrecommitted;
    if Prevote in b.localVotes {
      if prevoted || !VoteIsReserved(r, b, j, Prevote) || b.localVotes[Prevote].unlock != b.justification {
        return;
      }
      prevoted := true;
    }
    if Precommit in b.localVotes {
      if precommitted || !VoteIsReserved(r, b, j, Precommit) || b.localVotes[Precommit].proofs != b.proofs {
        return;
      }
      precommitted := true;
    }
    ok := true;
  }

  lemma VotesByPhase(r: Rules, b: Ballot, j: ChunkJournal)
    ensures (forall phase :: phase in b.localVotes ==> VoteIsReserved(r, b, j, phase)) <==>
      (Prevote in b.localVotes ==> VoteIsReserved(r, b, j, Prevote))
        && (Precommit in b.localVotes ==> VoteIsReserved(r, b, j, Precommit))
  {
    forall phase | phase in b.localVotes
      ensures phase == Prevote || phase == Precommit
    {
      match phase
      case Prevote =>
      case Precommit =>
    }
  }

  /** The checks of `restore_bft_session` that do not concern local votes, in order. */
  method CheckSavedContext(r: Rules, s: BftSession, j: ChunkJournal) returns (ok: bool)
    ensures ok <==> ContextOk(r, s, j)
  {
    var b := s.ballot;
    if |b.localVotes| + |b.localNils| > 2 || s.clock.chunk != r.chunk || s.clock.round != b.round
       || |s.candidates| > MAX_CANDIDATES || (b.round > 0 && b.certificate.None?) || !r.clockOk(s.clock)
    {
      return false;
    }
    if s.report.Some? {
      var report, slot := s.report.value, MessageSlot(ReportKind, s.report.value.round);
      if slot !in j.messages || j.messages[slot] != ReportMessage(report)
         || report.chunk != r.chunk || report.round != b.round + 1 || !r.reportOk(report)
      {
        return false;
      }
    }
    if b.proofs != ProofsOf(r, b.target) {
      return false;
    }
    if b.proposal.Some? {
      if !r.proposalOk(b.target, b.round, b.proposal.value) || b.justification != b.proposal.value.valid
         || b.certificate != b.proposal.value.certificate
      {
        return false;
      }
    }
    var nils := ReaddNils(r, b);
    if !nils {
      return false;
    }
    var votes := ReaddVotes(r, b);
    if !votes {
      return false;
    }
    ok := CheckSavedQuorums(r, s);
  }

  /** Add the accumulated nil votes to a new accumulator, each aggregate as one presented vote. */
  method ReaddNils(r: Rules, b: Ballot) returns (ok: bool)
    ensures ok <==> NilsReadded(r, b)
  {
    for i := 0 to |PHASES|
      invariant i > 0 && b.nilPrevotes != {} ==> NilVerifies(r, b.round, Prevote, b.nilPrevotes)
      invariant i > 1 && b.nilPrecommits != {} ==> NilVerifies(r, b.round, Precommit, b.nilPrecommits)
    {
      var saved := if PHASES[i] == Prevote then b.nilPrevotes else b.nilPrecommits;
      if saved != {} && !NilVerifies(r, b.round, PHASES[i], saved) {
        return false;
      }
    }
    return true;
  }

  /** Add the accumulated value votes to a new accumulator, prevotes first. */
  method ReaddVotes(r: Rules, b: Ballot) returns (ok: bool)
    ensures ok <==> VotesReadded(r, b)
  {
    if b.prevotes != {} && !VoteVerifies(r, VoteTarget(r, b, Prevote), b.prevotes) {
      return false;
    }
    return b.precommits != {} ==> VoteVerifies(r, VoteTarget(r, b, Precommit), b.precommits);
  }

  method CheckSavedQuorums(r: Rules, s: BftSession) returns (ok: bool)
    ensures ok <==> QuorumsOk(r, s)
  {
    var b := s.ballot;
    if s.valid.Some? {
      var valid := s.valid.value;
      if valid.chunk != r.chunk || valid.round > b.round || valid.hash !in s.candidates || !r.certifies(valid) {
        return false;
      }
    }
    if b.certificate.Some? {
      var cert := b.certificate.value;
      if cert.chunk != r.chunk || cert.round != b.round || !r.certOk(cert) {
        return false;
      }
    }
    if s.lock.Some? {
      var lock := s.lock.value;
      if lock.chunk != r.chunk || lock.round > b.round || !r.certifies(lock) {
        return false;
      }
    }
    return b.justification.Some? ==> UnlockBinds(r.certifies, VoteTarget(r, b, Prevote), b.justification.value);
  }

  /** `restore_bft_session` and the peer progress derived after it. */
  method RestoreBftSession(r: Rules, s: BftSession, j: ChunkJournal) returns (outcome: Result<BftSession>)
    ensures outcome == Restore(r, s, j)
  {
    VotesByPhase(r, s.ballot, j);
    var context := CheckSavedContext(r, s, j);
    if !context {
      return Err(Corrupt);
    }
    var nilsOk, nilPrevoted, nilPrecommitted := CheckLocalNils(r, s.ballot, j);
    if !nilsOk {
      return Err(Corrupt);
    }
    var votesOk, prevoted, precommitted := CheckLocalVotes(r, s.ballot, j, nilPrevoted, nilPrecommitted);
    if !votesOk {
      return Err(Corrupt);
    }
    var b := s.ballot;
    b := AddNils(AddNils(b, Prevote, OwnNil(r, b, Prevote)), Precommit, OwnNil(r, b, Precommit));
    b := AddVotes(AddVotes(b, Prevote, OwnVoter(r, b, Prevote)), Precommit, OwnVoter(r, b, Precommit));
    b := b.(local := FromFlags(prevoted, precommitted));
    return Ok(AdvancePeer(r, s.(ballot := b, peer := BelowPrevote)));
  }

  /** `reserved_local_votes` and `reserved_local_nil_votes`: sign every reservation of the journal's round again. */
  method ResignReserved(r: Rules, j: ChunkJournal, w: Watermark) returns (outcome: Result<ChunkJournal>)
    ensures outcome == ResignAll(r, j, w)
  {
    outcome := Ok(j);
    if w.prevote.Some? {
      outcome := SignVote(r.certifies, j, w.prevote.value);
      if outcome.Err? {
        return;
      }
    }
    if w.precommit.Some? {
      outcome := SignVote(r.certifies, outcome.value, w.precommit.value);
      if outcome.Err? {
        return;
      }
    }
    outcome := ResignNil(r, outcome.value, w.round, Prevote);
    if outcome.Ok? {
      outcome := ResignNil(r, outcome.value, w.round, Precommit);
    }
  }

  /** `recover_reserved_value_vote` for both phases after the nil votes; stops at the first vote that does not fit. */
  method RecoverReserved(r: Rules, b: Ballot, j: ChunkJournal, w: Watermark) returns (outcome: Result<Ballot>)
    ensures outcome == RecoverMessages(r, b, j, w)
  {
    var session := b;
    for i := 0 to |PHASES|
      invariant Ok(session) ==
        (if i == 0 then Ok(b) else if i == 1 then RecoverNil(r, b, j, Prevote) else RecoverNils(r, b, j))
    {
      var slot := Slot(session.round, PHASES[i]);
      if slot in j.nils {
        if !NilVerifies(r, session.round, PHASES[i], {r.self}) {
          return Err(InvalidSignature);
        }
        session := AddNils(session, PHASES[i], {r.self}).(localNils := session.localNils[PHASES[i] := j.nils[slot]]);
      }
    }
    if w.prevote.Some? {
      var vote := w.prevote.value;
      if vote.data.hash != session.target || vote.data.round != session.round || vote.unlock != session.justification {
        return Err(Conflict);
      }
      if !VoteVerifies(r, vote.data, {r.self}) {
        return Err(InvalidSignature);
      }
      session := KeepVote(AddVotes(session, Prevote, {r.self}), Prevote, vote);
    }
    if w.precommit.Some? {
      var vote := w.precommit.value;
      if vote.data.hash != session.target || vote.data.round != session.round || vote.proofs != session.proofs {
        return Err(Conflict);
      }
      if vote.unlock.Some? && (!r.prevoteQuorum(session.prevotes) || !(vote.unlock.value.signers <= session.prevotes)) {
        return Err(Corrupt);
      }
      if !VoteVerifies(r, vote.data, {r.self}) {
        return Err(InvalidSignature);
      }
      session := KeepVote(AddVotes(session, Precommit, {r.self}), Precommit, vote);
    }
    return Ok(session);
  }

  /** `recover_session_signing` */
  method RecoverSessionSigning(r: Rules, s: BftSession, j: ChunkJournal) returns (outcome: Result<Outcome>)
    ensures outcome == Recover(r, s, j)
  {
    if j.mark.None? {
      return Ok(Outcome(s, j, false));
    }
    if !WatermarkAccepted(r.certifies, r.chunk, j) {
      return Err(Corrupt);
    }
    var w, session, advanced := j.mark.value, s, false;
    var prevoted, precommitted := PhaseReserved(w, j, Prevote), PhaseReserved(w, j, Precommit);
    if w.locked.Some? && (s.lock.None? || s.lock.value.round < w.locked.value.round) {
      session := session.(lock := w.locked);
      advanced := true;
    }
    if w.round < s.ballot.round && s.ballot.local == Idle {
      return Ok(Outcome(session, j, advanced));
    }
    if w.round == s.ballot.round && prevoted == (s.ballot.local != Idle)
      && precommitted == (s.ballot.local == Precommitted) {
      return Ok(Outcome(session, j, advanced));
    }
    var signed := ResignReserved(r, j, w);
    if signed.Err? {
      return Err(signed.violation);
    }
    if !prevoted && !precommitted {
      return Ok(Outcome(session, signed.value, advanced));
    }
    if w.round != s.ballot.round {
      return Err(if w.round < s.ballot.round then Regression else Corrupt);
    }
    var messages := RecoverReserved(r, s.ballot, j, w);
    if messages.Err? {
      return Err(messages.violation);
    }
    var ballot := messages.value.(local := FromFlags(prevoted, precommitted));
    session := session.(ballot := ballot, lock := RecoverLock(session.lock, w.precommit));
    return Ok(Outcome(AdvancePeer(r, session), signed.value, true));
  }
}

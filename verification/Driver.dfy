/** The session driver: the operations that ingest proposals, votes, reports and clock ticks.

    Each operation works on a copy of the session, persists it and replaces the map entry, in the order of the
    source; an error leaves the working copy behind. Every change is one step of module NodeSteps. */
module Driver {
  import opened Types
  import opened SigningJournal
  import opened Pacemaker
  import opened Session
  import opened Candidates
  import opened JournalGrowth
  import opened SessionInvariant
  import opened SessionSteps
  import opened SigningSteps
  import opened Recovery
  import opened Restart
  import opened NodeSteps

  // ----- what an operation makes of a session -----

  /** `sign_bft_authorized_prevote`: a value prevote, or nil against an incompatible lock. */
  function AfterPrevote(r: Rules, s: BftSession): BftSession {
    if s.ballot.local != Idle || s.clock.step != Prevoting then s
    else if LockAllows(r, s) then AfterSigning(r, s, SignPrevote)
    else AfterSigning(r, s, SignNilVote(Prevote))
  }

  predicate ShouldPrecommit(r: Rules, s: BftSession) {
    r.prevoteQuorum(s.ballot.prevotes) && s.ballot.local != Precommitted && s.ballot.proposal.Some?
      && s.clock.step != AwaitRound
  }

  /** The current prevote quorum becomes a valid value. */
  function Retained(r: Rules, s: BftSession): BftSession {
    if r.prevoteQuorum(s.ballot.prevotes) then RememberValid(r, s, CurrentQuorum(r, s.ballot)) else s
  }

  /** `recompute_quorum_transitions`, when the target's proofs are stored. */
  function Recomputed(r: Rules, s: BftSession): BftSession {
    var kept := Retained(r, s);
    AdvancePeer(r, if ShouldPrecommit(r, s) then AfterSigning(r, kept, SignPrecommit) else kept)
  }

  function WithPhase(s: BftSession, clock: Clock): BftSession {
    s.(clock := clock)
  }

  /** The voting part of proposal acceptance. */
  function Voted(r: Rules, s: BftSession, now: nat): BftSession {
    var voted := Recomputed(r, AfterPrevote(r, s));
    if voted.peer == BelowPrevote then voted else WithPhase(voted, EnterPrecommit(voted.clock, now))
  }

  function Targeted(r: Rules, s: BftSession, hash: Hash): BftSession {
    if hash == s.ballot.target then s else ResetTarget(r, s, hash)
  }

  predicate ProposalFits(r: Rules, s: BftSession, p: Proposal) {
    if s.ballot.proposal.Some? then s.ballot.proposal.value == p
    else TargetMayMove(r, s.ballot, p.hash) && r.proposalOk(p.hash, s.ballot.round, p)
  }

  /** Another target needs a session without value votes whose nil aggregates can be added again. */
  predicate TargetMayMove(r: Rules, b: Ballot, hash: Hash) {
    hash == b.target || (b.localVotes == map[] && NilsDecode(r, b))
  }

  /** The target would have to move and only the nil aggregates prevent it. */
  predicate NilsStandInWay(r: Rules, b: Ballot, hash: Hash) {
    hash != b.target && b.localVotes == map[] && !NilsDecode(r, b)
  }

  /** `accept_bft_leader_proposal` on an acceptable proposal. */
  function Accepted(r: Rules, s: BftSession, p: Proposal, now: nat): BftSession {
    Voted(r, AcceptedTarget(r, s, p, now), now)
  }

  /** The value the local leader must propose: the valid one, or the current target. */
  function LeaderValue(s: BftSession): Hash {
    if s.valid.Some? then s.valid.value.hash else s.ballot.target
  }

  /** The local validator leads the round and may still propose in it. */
  predicate MayLead(r: Rules, s: BftSession) {
    s.ballot.proposal.None? && s.ballot.local == Idle && (s.ballot.round > 0 ==> s.ballot.certificate.Some?)
    && r.leads(s.ballot.round) && Outranks(r, s.valid, s.ballot.certificate)
  }

  function ReservedProposal(j: ChunkJournal, round: nat): Option<Proposal> {
    var slot := MessageSlot(ProposalKind, round);
    if slot in j.messages && j.messages[slot].ProposalMessage? then Some(j.messages[slot].proposal) else None
  }

  /** The proposal a leader signs for its session. */
  function LeaderProposal(r: Rules, s: BftSession): Proposal {
    Proposal(r.chunk, s.ballot.target, s.ballot.round, r.self, s.valid, s.ballot.certificate)
  }

  /** What `start_bft_leader_proposal` puts to acceptance: the reserved proposal, or a new one; nothing when the
      local validator may not lead or a certificate of this round already exists. */
  function ToPropose(r: Rules, s: BftSession, j: ChunkJournal): Option<(BftSession, Proposal)> {
    if !MayLead(r, s) then None
    else if ReservedProposal(j, s.ballot.round).Some? then Some((s, ReservedProposal(j, s.ballot.round).value))
    else if s.valid.Some? && s.valid.value.round >= s.ballot.round then None
    else
      var targeted := Targeted(r, s, LeaderValue(s));
      Some((targeted, LeaderProposal(r, targeted)))
  }

  /** The leader must change the target for what it proposes but cannot keep the nil votes. */
  predicate LeadBlocked(r: Rules, s: BftSession, j: ChunkJournal) {
    var plan := ToPropose(r, s, j);
    plan.Some? && plan.value.1.hash != s.ballot.target && !NilsDecode(r, s.ballot)
  }

  /** Nothing is to be proposed, or what is proposed can be taken and voted on. */
  predicate LeadSucceeds(r: Rules, s: BftSession, j: ChunkJournal, now: nat) {
    var plan := ToPropose(r, s, j);
    plan.Some? ==>
      && !LeadBlocked(r, s, j) && r.proposalOk(plan.value.1.hash, s.ballot.round, plan.value.1)
      && !ProofsMissing(r, AcceptedTarget(r, plan.value.0, plan.value.1, now))
  }

  function Led(r: Rules, s: BftSession, j: ChunkJournal, now: nat): BftSession {
    var plan := ToPropose(r, s, j);
    if plan.Some? then Accepted(r, plan.value.0, plan.value.1, now) else s
  }

  function NilSigned(r: Rules, s: BftSession, phase: Phase): BftSession {
    if (if phase == Prevote then s.ballot.local != Idle else s.ballot.local == Precommitted) then s
    else AfterSigning(r, s, SignNilVote(phase))
  }

  /** `enter_bft_certified_round`; no proposal can be reserved for a round that was not entered. */
  function Entered(r: Rules, s: BftSession, cert: Certificate, now: nat, suppress: bool): BftSession {
    if cert.round <= s.ballot.round || cert.round <= s.clock.round then s
    else if suppress then EnterRound(r, s, cert, now)
    else Led(r, EnterRound(r, s, cert, now), EMPTY, now)
  }

  predicate EntrySucceeds(r: Rules, s: BftSession, cert: Certificate, now: nat, suppress: bool) {
    cert.round <= s.ballot.round || cert.round <= s.clock.round || suppress
    || LeadSucceeds(r, EnterRound(r, s, cert, now), EMPTY, now)
  }

  function ReservedReport(j: ChunkJournal, round: nat): Option<Report> {
    var slot := MessageSlot(ReportKind, round);
    if slot in j.messages && j.messages[slot].ReportMessage? then Some(j.messages[slot].report) else None
  }

  /** The local report of a round change: the recorded, the reserved, or a new one with the highest valid value. */
  function OwnReport(r: Rules, s: BftSession, j: ChunkJournal): Report {
    var reserved := ReservedReport(j, s.ballot.round + 1);
    if s.report.Some? then s.report.value
    else if reserved.Some? then reserved.value
    else ReportIntent(r, s)
  }

  /** The session once its phase is closed and its report recorded. */
  function Closed(s: BftSession, report: Report, now: nat): BftSession {
    WithPhase(s, EnterAwaitRound(s.clock, now)).(report := Some(report))
  }

  /** A collected report may complete a certificate for its round. */
  function CollectedReport(r: Rules, s: BftSession, report: Report, now: nat): BftSession {
    var collected := WithPhase(s, r.collected(s.clock, report));
    var cert := r.formed(collected.clock, report.round);
    if cert.Some? then Entered(r, collected, cert.value, now, false) else collected
  }

  predicate CollectSucceeds(r: Rules, s: BftSession, report: Report, now: nat) {
    && r.accepts(s.clock, report)
    && var collected := WithPhase(s, r.collected(s.clock, report));
    var cert := r.formed(collected.clock, report.round);
    cert.Some? ==> EntrySucceeds(r, collected, cert.value, now, false)
  }

  /** `request_bft_round_change` */
  function Requested(r: Rules, s: BftSession, report: Report, now: nat): BftSession {
    CollectedReport(r, Closed(s, report, now), report, now)
  }

  /** The session every operation starts from: the one in the map with its interrupted reservations recovered. */
  function Synchronized(r: Rules, s: BftSession, j: ChunkJournal): BftSession {
    var out := Recover(r, s, j);
    if out.Ok? then out.value.session else s
  }

  /** Recovery changed the session, or signed its reservations again. */
  predicate Resynchronized(r: Rules, s: BftSession, j: ChunkJournal) {
    var out := Recover(r, s, j);
    out.Ok? && out.value.changed
  }

  /** `observe_finality_vote_at` on a synchronized session. */
  function VoteCounted(r: Rules, s: BftSession, phase: Phase, signers: set<nat>, now: nat): BftSession {
    if s.peer == PrecommitObserved then s
    else
      var counted := Recomputed(r, s.(ballot := AddVotes(s.ballot, phase, signers)));
      if counted.peer == BelowPrevote || counted.ballot.proposal.None? then counted
      else WithPhase(counted, EnterPrecommit(counted.clock, now))
  }

  /** `observe_nil_vote` on a synchronized session, up to a possible round change. */
  function NilCounted(r: Rules, s: BftSession, phase: Phase, signers: set<nat>, now: nat): BftSession {
    var counted := s.(ballot := AddNils(s.ballot, phase, signers));
    if r.prevoteQuorum(counted.ballot.nilPrevotes) && counted.clock.step != AwaitRound
    then NilSigned(r, WithPhase(counted, EnterPrecommit(counted.clock, now)), Precommit)
    else counted
  }

  /** `tick_bft_pacemaker` on a synchronized session, up to a possible round change. */
  function TimedOut(r: Rules, s: BftSession, now: nat): BftSession {
    var next := WithPhase(s, AfterTimeout(s.clock, now));
    match TimeoutDue(s.clock, now)
    case Some(PrevoteNil) => NilSigned(r, next, Prevote)
    case Some(PrecommitNil) => NilSigned(r, next, Precommit)
    case _ => next
  }

  /** The candidate's own certificate, when it is not beyond the session's round. */
  function OfferedValid(r: Rules, s: BftSession, justification: Option<QuorumCert>): BftSession {
    if justification.None? || justification.value.round > s.ballot.round then s
    else RememberValid(r, s, justification.value)
  }

  /** The round certificate's highest value, when the offered branch is its branch. */
  function OfferedHighest(r: Rules, s: BftSession, hash: Hash): BftSession {
    var highest := HighestOf(r, s.ballot.certificate);
    if highest.Some? && highest.value.hash == hash then RememberValid(r, s, highest.value) else s
  }

  /** `offer_bft_candidate` on a synchronized session, before the leader's turn. */
  function Offered(r: Rules, s: BftSession, hash: Hash, justification: Option<QuorumCert>): BftSession {
    RememberCandidate(r, OfferedHighest(r, OfferedValid(r, s, justification), hash), hash)
  }

  predicate OfferJustified(r: Rules, hash: Hash, justification: Option<QuorumCert>) {
    justification.Some? ==>
      && justification.value.round < MAX_ROUND
      && UnlockBinds(r.certifies, VoteData(r.chunk, justification.value.round + 1, hash, Prevote), justification.value)
  }

  /** One call of the driver from outside. */
  datatype Operation =
    | VoteArrives(round: nat, hash: Hash, phase: Phase, signers: set<nat>, now: nat)
    | NilArrives(round: nat, phase: Phase, signers: set<nat>, now: nat)
    | ReportArrives(report: Report, now: nat)
    | CertificateArrives(cert: Certificate, now: nat)
    | ProposalArrives(p: Proposal, now: nat, proven: bool)
    | CandidateOffered(hash: Hash, justification: Option<QuorumCert>, now: nat, proven: bool)
    | ClockTicks(now: nat)

  // ----- reachability -----

  /** `s` is what `open_bft_session_initial` makes for these arguments. */
  predicate OpensAs(
    r: Rules, target: Hash, cert: Option<Certificate>, now: nat, base: nat, backoff: nat, s: BftSession)
  {
    && (cert.Some? ==> cert.value.round > 0 && cert.value.chunk == r.chunk && r.certOk(cert.value))
    && s == OpenedSession(r, target, cert, now, base, backoff)
  }

  /** A session that was just opened, with nothing signed. */
  ghost predicate JustOpened(r: Rules, n: Node) {
    && RulesOk(r) && Settled(n) && n.journal == EMPTY
    && exists target, cert, now, base, backoff :: OpensAs(r, target, cert, now, base, backoff, n.work)
  }

  lemma JustOpenedIsGood(r: Rules, n: Node)
    requires JustOpened(r, n)
    ensures NodeInv(r, n) && n.work.peer == BelowPrevote
    ensures n.work.valid.None? && n.mem == n.work && n.saved == n.work
  {
    var target, cert, now, base, backoff :| OpensAs(r, target, cert, now, base, backoff, n.work);
    OpenedIsGood(r, target, cert, now, base, backoff);
  }

  ghost predicate IsHistory(r: Rules, nodes: seq<Node>, labels: seq<Label>) {
    && |nodes| == |labels| + 1
    && (forall n :: n in nodes[..1] ==> JustOpened(r, n))
    && (forall i {:trigger labels[i]} :: 0 <= i < |labels| ==> Step(r, nodes[i], labels[i], nodes[i + 1]))
  }

  /** The state is the end of some sequence of steps from an opened session. */
  ghost predicate Reachable(r: Rules, n: Node) {
    exists nodes, labels :: IsHistory(r, nodes, labels) && nodes[|nodes| - 1] == n
  }

  lemma HistoryKeepsInv(r: Rules, nodes: seq<Node>, labels: seq<Label>, k: nat)
    requires IsHistory(r, nodes, labels) && k < |nodes|
    ensures RulesOk(r) && NodeInv(r, nodes[k])
  {
    assert nodes[0] in nodes[..1];
    JustOpenedIsGood(r, nodes[0]);
    var ok, step := (n: Node) => NodeInv(r, n), (n: Node, l: Label, t: Node) => Step(r, n, l, t);
    forall n, l, t | ok(n) && step(n, l, t)
      ensures ok(t)
    {
      StepKeepsInv(r, n, l, t);
    }
    AlongRun(ok, step, nodes, labels, 0, k);
  }

  lemma ReachableIsOk(r: Rules, n: Node)
    requires Reachable(r, n)
    ensures RulesOk(r) && NodeInv(r, n)
  {
    var nodes, labels :| IsHistory(r, nodes, labels) && nodes[|nodes| - 1] == n;
    HistoryKeepsInv(r, nodes, labels, |nodes| - 1);
  }

  lemma OpenedIsReachable(
    r: Rules, target: Hash, cert: Option<Certificate>, now: nat, base: nat, backoff: nat, n: Node)
    requires RulesOk(r) && Settled(n) && n.journal == EMPTY
    requires OpensAs(r, target, cert, now, base, backoff, n.work)
    ensures Reachable(r, n)
  {
    var nodes: seq<Node>, labels: seq<Label> := [n], [];
    assert IsHistory(r, nodes, labels) && nodes[|nodes| - 1] == n;
  }

  lemma NextIsReachable(r: Rules, n: Node, l: Label, t: Node)
    requires Reachable(r, n) && Step(r, n, l, t)
    ensures Reachable(r, t)
  {
    var nodes, labels :| IsHistory(r, nodes, labels) && nodes[|nodes| - 1] == n;
    var more, also := nodes + [t], labels + [l];
    forall i | 0 <= i < |also|
      ensures Step(r, more[i], also[i], more[i + 1])
    {
      if i < |labels| {
        assert Step(r, nodes[i], labels[i], nodes[i + 1]);
      }
    }
    assert more[..1] == nodes[..1];
    assert IsHistory(r, more, also) && more[|more| - 1] == t;
  }

  lemma SavesWork(r: Rules, n: Node)
    requires Reachable(r, n)
    ensures Reachable(r, n.(mem := n.work, saved := n.work))
  {
    NextIsReachable(r, n, SaveAndInsert, n.(mem := n.work, saved := n.work));
  }

  lemma ObservesPeers(r: Rules, n: Node)
    requires Reachable(r, n)
    ensures Reachable(r, n.(work := AdvancePeer(r, n.work)))
  {
    NextIsReachable(r, n, ObservePeers, n.(work := AdvancePeer(r, n.work)));
  }

  lemma NilIsEnabled(r: Rules, n: Node, phase: Phase)
    requires Settled(n) && Synced(n.work, n.journal)
    requires if phase == Prevote then n.work.ballot.local == Idle else n.work.ballot.local != Precommitted
    ensures SignEnabled(r, n, SignNilVote(phase))
  {
  }

  lemma TakesProposal(r: Rules, n: Node, p: Proposal, now: nat)
    requires n.work.ballot.proposal.None? && r.proposalOk(n.work.ballot.target, n.work.ballot.round, p)
    ensures Step(r, n, TakeProposal(p, now), n.(work := AcceptProposal(r, n.work, p, now)))
  {
  }

  lemma NeverRefused(r: Rules, n: Node, l: Label)
    requires NodeInv(r, n) && SignEnabled(r, n, l)
    ensures Signing(r, n, l).Ok?
  {
    match l
    case SignPrevote => PrevoteNeverRefused(r, n);
    case SignPrecommit => PrecommitNeverRefused(r, n);
    case SignNilVote(phase) => NilNeverRefused(r, n, phase);
    case SignProposal(_) => MessageNeverRefused(r, n, l);
    case SignReport => MessageNeverRefused(r, n, l);
  }

  lemma SignKeepsSynced(r: Rules, n: Node, l: Label, t: Node)
    requires RulesOk(r) && NodeInv(r, n) && SignStep(r, n, l, t) && Synced(n.work, n.journal)
    ensures Synced(t.work, t.journal)
  {
    match l
    case SignPrevote => SignPrevoteKeeps(r, n, t);
    case SignPrecommit => SignPrecommitKeeps(r, n, t);
    case SignNilVote(phase) => SignNilKeeps(r, n, phase, t);
    case SignProposal(_) =>
    case SignReport =>
  }

  lemma SignsFrom(r: Rules, n: Node, l: Label, t: Node)
    requires Reachable(r, n) && Synced(n.work, n.journal) && SignEnabled(r, n, l)
    requires Signing(r, n, l).Ok? ==> t == n.(work := AfterSigning(r, n.work, l), journal := Signing(r, n, l).value)
    ensures Signing(r, n, l).Ok? && Reachable(r, t) && Synced(t.work, t.journal)
  {
    ReachableIsOk(r, n);
    NeverRefused(r, n, l);
    SignKeepsSynced(r, n, l, t);
    NextIsReachable(r, n, l, t);
  }

  class BftDriver {
    const r: Rules
    var work: BftSession
    var mem: BftSession
    var saved: BftSession
    var journal: ChunkJournal

    ghost function State(): Node
      reads this
    {
      Node(work, mem, saved, journal)
    }

    /** Between operations: a finished session also holds every vote its validator reserved. */
    ghost predicate Valid()
      reads this
    {
      Reachable(r, State()) && (mem.peer == PrecommitObserved ==> Synced(mem, journal))
    }

    // ----- steps -----

    method Update(ghost l: Label, next: BftSession)
      requires Reachable(r, State()) && UpdateStep(r, State(), l, State().(work := next))
      modifies `work
      ensures Reachable(r, State()) && work == next
    {
      NextIsReachable(r, State(), l, State().(work := next));
      work := next;
    }

    method Save()
      requires Reachable(r, State()) && Anchored(work.ballot, mem.ballot)
      modifies `saved
      ensures Reachable(r, State()) && saved == work
    {
      NextIsReachable(r, State(), SaveOnly, State().(saved := work));
      saved := work;
    }

    method SaveInserting()
      requires Reachable(r, State())
      modifies `saved, `mem
      ensures Reachable(r, State()) && mem == work && saved == work
    {
      NextIsReachable(r, State(), SaveAndInsert, State().(mem := work, saved := work));
      saved := work;
      mem := work;
    }

    /** A signature the driver asks for is never refused. */
    method Sign(l: Label)
      requires Reachable(r, State()) && Synced(work, journal) && SignEnabled(r, State(), l)
      modifies `work, `journal
      ensures Reachable(r, State()) && Synced(work, journal)
      ensures work == AfterSigning(r, old(work), l) && old(Signing(r, State(), l)) == Ok(journal)
    {
      var signed := Signing(r, Node(work, mem, saved, journal), l);
      var next := AfterSigning(r, work, l);
      SignsFrom(r, State(), l, if signed.Ok? then State().(work := next, journal := signed.value) else State());
      journal := signed.value;
      work := next;
    }

    // ----- voting -----

    /** `sign_bft_authorized_prevote` */
    method SignAuthorizedPrevote()
      requires Reachable(r, State()) && Synced(work, journal)
      requires work.ballot.proposal.Some? && Anchored(mem.ballot, work.ballot) && Anchored(saved.ballot, work.ballot)
      modifies this
      ensures Reachable(r, State()) && Synced(work, journal)
      ensures work == AfterPrevote(r, old(work))
      ensures old(work.peer) != PrecommitObserved && old(mem.peer) != PrecommitObserved ==>
        mem.peer != PrecommitObserved
    {
      if work.ballot.local == Idle && work.clock.step == Prevoting {
        if LockAllows(r, work) {
          Sign(SignPrevote);
        } else {
          SignBftNil(Prevote);
        }
      }
    }

    /** `sign_bft_nil` */
    method SignBftNil(phase: Phase)
      requires Reachable(r, State()) && Synced(work, journal)
      modifies this
      ensures Reachable(r, State()) && Synced(work, journal)
      ensures work == NilSigned(r, old(work), phase)
      ensures ReservedReport(journal, work.ballot.round + 1) == ReservedReport(old(journal), work.ballot.round + 1)
      ensures old(work.peer) != PrecommitObserved && old(mem.peer) != PrecommitObserved ==>
        mem.peer != PrecommitObserved
    {
      if if phase == Prevote then work.ballot.local == Idle else work.ballot.local != Precommitted {
        SaveInserting();
        ghost var n := State();
        NilIsEnabled(r, n, phase);
        Sign(SignNilVote(phase));
        NilKeepsReport(r, n, phase, journal);
      }
    }

    /** `recompute_quorum_transitions`: the only error is a precommit whose proofs are not stored. */
    method RecomputeQuorumTransitions() returns (error: Option<Violation>)
      requires Reachable(r, State()) && Synced(work, journal)
      modifies this
      ensures Reachable(r, State()) && Synced(work, journal)
      ensures error.None? ==> work == Recomputed(r, old(work))
      ensures error.Some? <==>
        ShouldPrecommit(r, old(work)) && r.stored(old(work.ballot.target)) != Some(old(work.ballot.proofs))
      ensures error.Some? || !r.prevoteQuorum(old(work.ballot.prevotes)) ==>
        mem == old(mem) && saved == old(saved) && journal == old(journal)
      ensures old(work.peer) != PrecommitObserved && old(mem.peer) != PrecommitObserved ==>
        mem.peer != PrecommitObserved
    {
      if r.prevoteQuorum(work.ballot.prevotes) {
        var precommits := ShouldPrecommit(r, work);
        RetainedIsKnown(r, State());
        Update(KeepValid(CurrentQuorum(r, work.ballot)), RememberValid(r, work, CurrentQuorum(r, work.ballot)));
        if precommits {
          if r.stored(work.ballot.target) != Some(work.ballot.proofs) {
            return Some(Conflict);
          }
          SaveInserting();
          Sign(SignPrecommit);
        }
      }
      Update(ObservePeers, AdvancePeer(r, work));
      return None;
    }

    // ----- proposals -----

    /** The vote on an accepted proposal, and what it makes due. */
    method VoteOnProposal(now: nat) returns (error: Option<Violation>)
      requires Reachable(r, State()) && Synced(work, journal)
      requires work.ballot.proposal.Some? && Anchored(mem.ballot, work.ballot) && Anchored(saved.ballot, work.ballot)
      modifies this
      ensures Reachable(r, State()) && Synced(work, journal)
      ensures error.None? ==> work == Voted(r, old(work), now)
      ensures error.Some? <==> ProofsMissing(r, old(work))
      ensures old(work.peer) != PrecommitObserved && old(mem.peer) != PrecommitObserved ==>
        mem.peer != PrecommitObserved
    {
      SignAuthorizedPrevote();
      error := RecomputeQuorumTransitions();
      if error.None? && work.peer != BelowPrevote {
        Update(MovePhase(EnterPrecommit(work.clock, now)), WithPhase(work, EnterPrecommit(work.clock, now)));
      }
    }

    /** The first proposal of a round: target, checks, and the durable write before any vote. */
    method InstallProposal(p: Proposal, now: nat) returns (error: Option<Violation>)
      requires Reachable(r, State()) && Synced(work, journal) && work.ballot.proposal.None?
      modifies this
      ensures Reachable(r, State()) && Synced(work, journal) && journal == old(journal)
      ensures error.None? <==> ProposalFits(r, old(work), p)
      ensures error.None? ==> work == AcceptedTarget(r, old(work), p, now) && mem == work && saved == work
      ensures error.None? ==> work.peer == old(work.peer) && work.ballot.proposal == Some(p)
      ensures error.Some? ==> mem == old(mem) && saved == old(saved)
      ensures NilsStandInWay(r, old(work.ballot), p.hash) ==> error == Some(InvalidSignature) && State() == old(State())
    {
      if p.hash != work.ballot.target {
        if work.ballot.localVotes != map[] {
          return Some(Conflict);
        }
        NilsReadExactly(r, State());
        var readded := ReaddNils(r, work.ballot);
        if !readded {
          return Some(InvalidSignature);
        }
        Update(Retarget(p.hash), ResetTarget(r, work, p.hash));
      }
      if !r.proposalOk(work.ballot.target, work.ballot.round, p) {
        return Some(WrongTarget);
      }
      AcceptedFrame(r, work, p, now);
      Update(TakeProposal(p, now), AcceptProposal(r, work, p, now));
      SaveInserting();
      return None;
    }

    /** `accept_bft_leader_proposal`: a second proposal for the round is a conflict; a proposal is durable before it
        is voted on. */
    method AcceptLeaderProposal(p: Proposal, now: nat) returns (error: Option<Violation>)
      requires Reachable(r, State()) && Synced(work, journal)
      requires work.ballot.proposal.Some? ==> Anchored(mem.ballot, work.ballot)
      modifies this
      ensures Reachable(r, State()) && Synced(work, journal)
      ensures error.None? ==> work == Accepted(r, old(work), p, now)
      ensures error.None? <==> ProposalFits(r, old(work), p) && !ProofsMissing(r, AcceptedTarget(r, old(work), p, now))
      ensures !ProposalFits(r, old(work), p) ==> mem == old(mem) && saved == old(saved) && journal == old(journal)
      ensures old(work.ballot.proposal).None? && NilsStandInWay(r, old(work.ballot), p.hash) ==>
        error == Some(InvalidSignature) && State() == old(State())
      ensures old(work.peer) != PrecommitObserved && old(mem.peer) != PrecommitObserved ==>
        mem.peer != PrecommitObserved
    {
      if work.ballot.proposal.Some? {
        if work.ballot.proposal.value != p {
          return Some(Conflict);
        }
        StoredIsAnchored(r, State());
      } else {
        error := InstallProposal(p, now);
        if error.Some? {
          return;
        }
      }
      error := VoteOnProposal(now);
    }

    /** `start_bft_leader_proposal`: a reserved proposal is put again, a new one is durable before it is signed. */
    method StartLeaderProposal(now: nat) returns (error: Option<Violation>)
      requires Reachable(r, State()) && Synced(work, journal)
      modifies this
      ensures Reachable(r, State()) && Synced(work, journal)
      ensures error.None? ==> work == Led(r, old(work), old(journal), now)
      ensures ToPropose(r, old(work), old(journal)).None? ==> error.None? && State() == old(State())
      ensures LeadBlocked(r, old(work), old(journal)) ==> error == Some(InvalidSignature) && State() == old(State())
      ensures error.None? <==> LeadSucceeds(r, old(work), old(journal), now)
      ensures old(work.peer) != PrecommitObserved && old(mem.peer) != PrecommitObserved ==>
        mem.peer != PrecommitObserved
    {
      if !MayLead(r, work) {
        return None;
      }
      LeaderIsFree(r, State());
      var reserved := ReservedProposal(journal, work.ballot.round);
      if reserved.Some? {
        error := AcceptLeaderProposal(reserved.value, now);
        return;
      }
      if work.valid.Some? && work.valid.value.round >= work.ballot.round {
        return None;
      }
      if LeaderValue(work) != work.ballot.target {
        NilsReadExactly(r, State());
        var readded := ReaddNils(r, work.ballot);
        if !readded {
          return Some(InvalidSignature);
        }
        Update(Retarget(LeaderValue(work)), ResetTarget(r, work, LeaderValue(work)));
      }
      SaveInserting();
      var p := LeaderProposal(r, work);
      Sign(SignProposal(p));
      error := AcceptLeaderProposal(p, now);
    }

    // ----- rounds -----

    /** `enter_bft_certified_round` */
    method EnterCertifiedRound(cert: Certificate, now: nat, suppress: bool) returns (error: Option<Violation>)
      requires Reachable(r, State()) && Synced(work, journal)
      requires cert.round > work.ballot.round ==> cert.chunk == r.chunk && r.certOk(cert)
      modifies this
      ensures Reachable(r, State()) && Synced(work, journal)
      ensures error.None? ==> work == Entered(r, old(work), cert, now, suppress)
      ensures error.None? <==> EntrySucceeds(r, old(work), cert, now, suppress)
      ensures suppress && cert.round > old(work.ballot.round) ==>
        mem == work && work.ballot.proposal.None? && work.peer == BelowPrevote
      ensures old(work.peer) != PrecommitObserved && old(mem.peer) != PrecommitObserved ==>
        mem.peer != PrecommitObserved
    {
      if cert.round <= work.ballot.round {
        return None;
      }
      EntryIsSynced(r, State(), cert, now);
      Update(EnterCertified(cert, now), EnterRound(r, work, cert, now));
      SaveInserting();
      if !suppress {
        error := StartLeaderProposal(now);
      } else {
        error := None;
      }
    }

    /** The local report of a round change, signed only when none is recorded or reserved. */
    method ReportRoundChange()
      requires Reachable(r, State()) && Synced(work, journal) && work.clock.step == AwaitRound
        && work.ballot.round < MAX_ROUND
      requires mem == work && saved == work
      modifies `work, `journal
      ensures Reachable(r, State()) && Synced(work, journal)
      ensures work == old(work).(report := Some(OwnReport(r, old(work), old(journal))))
      ensures work.report.value.round == work.ballot.round + 1
    {
      ReservedReportIsOwn(r, State());
      if work.report.None? {
        var slot := MessageSlot(ReportKind, work.ballot.round + 1);
        if slot in journal.messages {
          Update(AdoptReport, work.(report := Some(journal.messages[slot].report)));
        } else {
          Sign(SignReport);
        }
      }
    }

    /** The phase closes durably before the local report of departure is made. */
    method CloseRound(now: nat)
      requires Reachable(r, State()) && Synced(work, journal) && work.ballot.round < MAX_ROUND
      modifies this
      ensures Reachable(r, State()) && Synced(work, journal)
      ensures work == Closed(old(work), OwnReport(r, old(work), old(journal)), now)
        && work.report.value.round == work.ballot.round + 1
      ensures mem.peer == old(work.peer)
    {
      Update(MovePhase(EnterAwaitRound(work.clock, now)), WithPhase(work, EnterAwaitRound(work.clock, now)));
      SaveInserting();
      ReportRoundChange();
    }

    /** `request_bft_round_change` */
    method RequestRoundChange(now: nat) returns (error: Option<Violation>)
      requires Reachable(r, State()) && Synced(work, journal)
      modifies this
      ensures Reachable(r, State()) && Synced(work, journal)
      ensures error.None? ==> work == Requested(r, old(work), OwnReport(r, old(work), old(journal)), now)
      ensures old(work.ballot.round) >= MAX_ROUND ==> error == Some(RoundExhausted) && State() == old(State())
      ensures var report := OwnReport(r, old(work), old(journal));
        error.None? <==>
          old(work.ballot.round) < MAX_ROUND && CollectSucceeds(r, Closed(old(work), report, now), report, now)
      ensures old(work.peer) != PrecommitObserved && old(mem.peer) != PrecommitObserved ==>
        mem.peer != PrecommitObserved
    {
      if work.ballot.round >= MAX_ROUND {
        return Some(RoundExhausted);
      }
      CloseRound(now);
      error := CollectAndAdvance(work.report.value, now);
    }

    /** Collect a report and enter the round it completes. */
    method CollectAndAdvance(report: Report, now: nat) returns (error: Option<Violation>)
      requires Reachable(r, State()) && Synced(work, journal)
      modifies this
      ensures Reachable(r, State()) && Synced(work, journal)
      ensures error.None? ==> work == CollectedReport(r, old(work), report, now)
      ensures !r.accepts(old(work.clock), report) ==> error.Some? && State() == old(State())
      ensures error.None? <==> CollectSucceeds(r, old(work), report, now)
      ensures old(work.peer) != PrecommitObserved && old(mem.peer) != PrecommitObserved ==>
        mem.peer != PrecommitObserved
    {
      if !r.accepts(work.clock, report) {
        return Some(WrongTarget);
      }
      Update(CollectReport(report), WithPhase(work, r.collected(work.clock, report)));
      var cert := r.formed(work.clock, report.round);
      error := None;
      if cert.Some? {
        FormedIsOk(r, State(), report.round);
        error := EnterCertifiedRound(cert.value, now, false);
      }
    }

    // ----- operations -----

    /** `open_bft_session_initial` up to its first durable write. */
    constructor (rules: Rules, target: Hash, cert: Option<Certificate>, now: nat, base: nat, backoff: nat)
      requires RulesOk(rules)
      requires cert.Some? ==> cert.value.round > 0 && cert.value.chunk == rules.chunk && rules.certOk(cert.value)
      ensures Valid() && r == rules && journal == EMPTY
      ensures mem == OpenedSession(rules, target, cert, now, base, backoff) && saved == mem && work == mem
    {
      var s := OpenedSession(rules, target, cert, now, base, backoff);
      r := rules;
      work := s;
      mem := s;
      saved := s;
      journal := EMPTY;
      new;
      OpenedIsReachable(rules, target, cert, now, base, backoff, State());
      ReachableIsOk(rules, State());
    }

    /** `open_bft_session_initial` after its first durable write: the leader's turn unless suppressed, then the
        quorums. */
    method FinishOpening(now: nat, suppress: bool) returns (error: Option<Violation>)
      requires Valid() && Settled(State()) && Synced(work, journal) && mem.peer != PrecommitObserved
      modifies this
      ensures Valid()
      ensures error.None? ==>
        saved == mem && mem == Recomputed(r, if suppress then old(work) else Led(r, old(work), old(journal), now))
      ensures suppress && !r.prevoteQuorum(old(work.ballot.prevotes)) ==> error.None? && journal == old(journal)
    {
      error := None;
      if !suppress {
        error := StartLeaderProposal(now);
      }
      if error.None? {
        error := RecomputeAndSave();
      }
    }

    method RecomputeAndSave() returns (error: Option<Violation>)
      requires Reachable(r, State()) && Synced(work, journal)
      modifies this
      ensures Reachable(r, State())
      ensures error.None? ==> mem == Recomputed(r, old(work)) && saved == mem && Synced(mem, journal)
      ensures error.Some? ==> mem == old(mem)
      ensures !r.prevoteQuorum(old(work.ballot.prevotes)) ==> error.None? && journal == old(journal)
    {
      error := RecomputeQuorumTransitions();
      if error.None? {
        SaveInserting();
      }
    }

    /** Every operation first recovers the reservations that an abandoned call left only in the journal. */
    method Synchronize() returns (changed: bool)
      requires Valid()
      modifies `work
      ensures changed == Resynchronized(r, mem, journal)
      ensures Reachable(r, State()) && Synced(work, journal)
      ensures work == Synchronized(r, mem, journal) && Anchored(mem.ballot, work.ballot)
      ensures mem.peer == PrecommitObserved ==> work.ballot == mem.ballot && work.peer == PrecommitObserved
    {
      SynchronizedIsExact(r, State());
      Update(Begin, mem);
      var recovered := RecoverSessionSigning(r, work, journal);
      Update(RecoverSigning, recovered.value.session);
      return recovered.value.changed;
    }

    /** `observe_finality_vote_at`: votes for another round or target are ignored, a finished session only authenticates
        them, and any other vote is counted on its own verdict. */
    method ObserveFinalityVote(round: nat, hash: Hash, phase: Phase, signers: set<nat>, now: nat)
        returns (error: Option<Violation>)
      requires Valid()
      modifies this
      ensures Valid()
      ensures old(mem.ballot.round) != round || old(mem.ballot.target) != hash ==>
        error.None? && mem == old(mem) && saved == old(saved) && journal == old(journal)
      ensures var verified := VoteVerifies(r, VoteData(r.chunk, round, hash, phase), signers);
        old(mem.ballot.round) == round && old(mem.ballot.target) == hash ==>
          && (!verified ==> error == Some(InvalidSignature))
          && (!verified || old(mem.peer) == PrecommitObserved ==>
                mem == old(mem) && saved == old(saved) && journal == old(journal) && (verified ==> error.None?))
          && (error.None? && old(mem.peer) != PrecommitObserved ==>
                mem == VoteCounted(r, Synchronized(r, old(mem), old(journal)), phase, signers, now) && saved == mem)
    {
      if mem.ballot.round != round || mem.ballot.target != hash {
        return None;
      }
      var verified := VoteVerifies(r, VoteData(r.chunk, round, hash, phase), signers);
      if mem.peer == PrecommitObserved {
        return if verified then None else Some(InvalidSignature);
      }
      var _ := Synchronize();
      if !verified {
        return Some(InvalidSignature);
      }
      if work.peer != PrecommitObserved {
        Update(CountVotes(phase, signers), work.(ballot := AddVotes(work.ballot, phase, signers)));
        error := RecomputeQuorumTransitions();
        if error.Some? {
          return;
        }
        if work.peer != BelowPrevote && work.ballot.proposal.Some? {
          Update(MovePhase(EnterPrecommit(work.clock, now)), WithPhase(work, EnterPrecommit(work.clock, now)));
        }
      }
      SaveInserting();
      return None;
    }

    /** `observe_round_change` */
    method ObserveRoundChange(report: Report, now: nat) returns (error: Option<Violation>)
      requires Valid()
      modifies this
      ensures Valid()
      ensures old(mem.peer) == PrecommitObserved || report.round <= old(mem.ballot.round) ==>
        error.None? && mem == old(mem) && saved == old(saved) && journal == old(journal)
      ensures var s := Synchronized(r, old(mem), old(journal));
        error.None? && s.peer != PrecommitObserved && report.round > s.ballot.round ==>
          mem == CollectedReport(r, s, report, now) && saved == mem
    {
      var _ := Synchronize();
      if work.peer == PrecommitObserved || report.round <= work.ballot.round {
        return None;
      }
      error := CollectAndAdvance(report, now);
      if error.None? {
        SaveInserting();
      }
    }

    /** `observe_round_change_certificate` */
    method ObserveRoundChangeCertificate(cert: Certificate, now: nat) returns (error: Option<Violation>)
      requires Valid()
      modifies this
      ensures Valid()
      ensures old(mem.peer) == PrecommitObserved || cert.round <= old(mem.ballot.round) ==>
        error.None? && mem == old(mem) && saved == old(saved) && journal == old(journal)
      ensures var s := Synchronized(r, old(mem), old(journal));
        error.None? && s.peer != PrecommitObserved && cert.round > s.ballot.round ==>
          mem == Entered(r, s, cert, now, false) && saved == mem && cert.chunk == r.chunk && r.certOk(cert)
    {
      var _ := Synchronize();
      if cert.round <= work.ballot.round || work.peer == PrecommitObserved {
        return None;
      }
      if cert.chunk != r.chunk || !r.certOk(cert) {
        return Some(Conflict);
      }
      error := EnterCertifiedRound(cert, now, false);
      if error.None? {
        SaveInserting();
      }
    }

    /** `observe_nil_vote` */
    method ObserveNilVote(round: nat, phase: Phase, signers: set<nat>, now: nat) returns (error: Option<Violation>)
      requires Valid()
      modifies this
      ensures Valid()
      ensures old(mem.peer) == PrecommitObserved || old(mem.ballot.round) != round ==>
        error.None? && mem == old(mem) && saved == old(saved) && journal == old(journal)
      ensures !NilVerifies(r, round, phase, signers) ==>
        mem == old(mem) && saved == old(saved) && journal == old(journal)
      ensures var s := Synchronized(r, old(mem), old(journal));
        !NilVerifies(r, round, phase, signers) && s.peer != PrecommitObserved && s.ballot.round == round ==>
          error == Some(InvalidSignature)
      ensures var s := Synchronized(r, old(mem), old(journal));
        var counted := NilCounted(r, s, phase, signers, now);
        error.None? && s.peer != PrecommitObserved && s.ballot.round == round ==>
          && saved == mem
          && mem == if r.precommitQuorum(counted.ballot.nilPrecommits)
               then Requested(r, counted, OwnReport(r, counted, old(journal)), now) else counted
    {
      var _ := Synchronize();
      if round != work.ballot.round || work.peer == PrecommitObserved {
        return None;
      }
      if !NilVerifies(r, round, phase, signers) {
        return Some(InvalidSignature);
      }
      CountNilVote(phase, signers, now);
      if r.precommitQuorum(work.ballot.nilPrecommits) {
        error := RequestRoundChange(now);
        if error.Some? {
          return;
        }
      }
      SaveInserting();
      return None;
    }

    /** Nil stake is neither a value nor a lock; a nil prevote quorum only makes the local nil precommit due. */
    method CountNilVote(phase: Phase, signers: set<nat>, now: nat)
      requires Reachable(r, State()) && Synced(work, journal) && NilVerifies(r, work.ballot.round, phase, signers)
      modifies this
      ensures Reachable(r, State()) && Synced(work, journal)
      ensures work == NilCounted(r, old(work), phase, signers, now)
      ensures OwnReport(r, work, journal) == OwnReport(r, work, old(journal))
      ensures old(work.peer) != PrecommitObserved && old(mem.peer) != PrecommitObserved ==>
        mem.peer != PrecommitObserved && work.peer != PrecommitObserved
    {
      Update(CountNils(phase, signers), work.(ballot := AddNils(work.ballot, phase, signers)));
      if r.prevoteQuorum(work.ballot.nilPrevotes) && work.clock.step != AwaitRound {
        Update(MovePhase(EnterPrecommit(work.clock, now)), WithPhase(work, EnterPrecommit(work.clock, now)));
        SignBftNil(Precommit);
      }
    }

    /** `tick_bft_pacemaker`: phase deadlines; the end of the round space is an error and never wraps. */
    method Tick(now: nat) returns (error: Option<Violation>)
      requires Valid()
      modifies this
      ensures Valid()
      ensures old(mem.peer) == PrecommitObserved ==>
        error.None? && mem == old(mem) && saved == old(saved) && journal == old(journal)
      ensures var s := Synchronized(r, old(mem), old(journal));
        var due := TimeoutDue(s.clock, now);
        error.None? && s.peer != PrecommitObserved && due.Some? ==>
          var next := TimedOut(r, s, now);
          && saved == mem
          && mem == if due.value.RoundChange? then Requested(r, next, OwnReport(r, next, old(journal)), now) else next
      ensures var s := Synchronized(r, old(mem), old(journal));
        error.None? && s.peer != PrecommitObserved && TimeoutDue(s.clock, now).None? ==>
          if Resynchronized(r, old(mem), old(journal)) then mem == s && saved == s
          else mem == old(mem) && saved == old(saved)
    {
      var changed := Synchronize();
      if work.peer == PrecommitObserved {
        return None;
      }
      if work.ballot.round >= MAX_ROUND && now >= work.clock.deadline && work.clock.step == Precommitting {
        return Some(RoundExhausted);
      }
      var due := TimeoutDue(work.clock, now);
      Update(MovePhase(AfterTimeout(work.clock, now)), WithPhase(work, AfterTimeout(work.clock, now)));
      error := None;
      match due {
        case Some(PrevoteNil) => SignBftNil(Prevote);
        case Some(PrecommitNil) => SignBftNil(Precommit);
        case Some(RoundChange(_)) => error := RequestRoundChange(now);
        case None =>
      }
      if error.None? && (due.Some? || changed) {
        SaveInserting();
      }
    }

    /** `observe_bft_proposal`; `proven` is the verdict of the full branch validation. */
    method ObserveProposal(p: Proposal, now: nat, proven: bool) returns (error: Option<Violation>)
      requires Valid()
      modifies this
      ensures Valid()
      ensures old(mem.peer) == PrecommitObserved || p.round < old(mem.ballot.round) ==>
        mem == old(mem) && saved == old(saved) && journal == old(journal)
      ensures var s := Synchronized(r, old(mem), old(journal));
        error.None? && s.peer != PrecommitObserved && p.round == s.ballot.round ==>
          mem == Accepted(r, s, p, now) && saved == mem
      ensures var s := Synchronized(r, old(mem), old(journal));
        error.None? && s.peer != PrecommitObserved && p.round > s.ballot.round ==>
          && p.certificate.Some? && saved == mem
          && mem == Accepted(r, Entered(r, RememberCandidate(r, s, p.hash), p.certificate.value, now, true), p, now)
    {
      if !r.proposalOk(p.hash, p.round, p) || !proven {
        return Some(Conflict);
      }
      var _ := Synchronize();
      if p.round < work.ballot.round || work.peer == PrecommitObserved {
        return None;
      }
      if p.round > work.ballot.round {
        if p.certificate.None? {
          return Some(Conflict);
        }
        EnterProposedRound(p, now);
      }
      error := AcceptLeaderProposal(p, now);
      if error.None? {
        SaveInserting();
      }
    }

    /** Catch up to a proposal's round by its own certificate. */
    method EnterProposedRound(p: Proposal, now: nat)
      requires Reachable(r, State()) && Synced(work, journal)
      requires r.proposalOk(p.hash, p.round, p) && p.round > work.ballot.round && p.certificate.Some?
      modifies this
      ensures Reachable(r, State()) && Synced(work, journal)
      ensures work == Entered(r, RememberCandidate(r, old(work), p.hash), p.certificate.value, now, true)
      ensures work.ballot.proposal.None? && work.peer == BelowPrevote && mem.peer != PrecommitObserved
    {
      ProposalCarriesEntry(r, State(), p);
      Update(KeepCandidate(p.hash), RememberCandidate(r, work, p.hash));
      var error := EnterCertifiedRound(p.certificate.value, now, true);
    }

    /** `offer_bft_candidate`: an available branch with its certificate; it never moves the round or authorizes a vote
        by itself. */
    method OfferCandidate(hash: Hash, justification: Option<QuorumCert>, now: nat, proven: bool)
        returns (error: Option<Violation>)
      requires Valid()
      modifies this
      ensures Valid()
      ensures old(mem.peer) == PrecommitObserved ==>
        mem.ballot == old(mem.ballot) && mem.peer == PrecommitObserved && journal == old(journal)
      ensures error.None? ==>
        mem == Led(r, Offered(r, Synchronized(r, old(mem), old(journal)), hash, justification), old(journal), now)
          && saved == mem
      ensures !proven || !OfferJustified(r, hash, justification) ==>
        error.Some? && mem == old(mem) && saved == old(saved)
    {
      if !proven {
        return Some(Conflict);
      }
      var _ := Synchronize();
      if !OfferJustified(r, hash, justification) {
        return Some(Conflict);
      }
      RetainOffer(hash, justification);
      Save();
      FinishedHasProposal(r, State());
      error := StartLeaderProposal(now);
      if error.None? {
        SaveInserting();
      }
    }

    method RetainOffer(hash: Hash, justification: Option<QuorumCert>)
      requires Reachable(r, State()) && Synced(work, journal) && OfferJustified(r, hash, justification)
      modifies `work
      ensures Reachable(r, State()) && Synced(work, journal)
      ensures work == Offered(r, old(work), hash, justification)
      ensures work.ballot == old(work.ballot) && work.peer == old(work.peer)
    {
      if justification.Some? && justification.value.round <= work.ballot.round {
        Remember(justification.value);
      }
      RetainHighest(hash);
      Update(KeepCandidate(hash), RememberCandidate(r, work, hash));
    }

    method RetainHighest(hash: Hash)
      requires Reachable(r, State()) && Synced(work, journal)
      modifies `work
      ensures Reachable(r, State()) && Synced(work, journal)
      ensures work == OfferedHighest(r, old(work), hash)
      ensures work.ballot == old(work.ballot) && work.peer == old(work.peer)
    {
      var highest := HighestOf(r, work.ballot.certificate);
      if highest.Some? && highest.value.hash == hash {
        HighestIsKnown(r, State());
        Remember(highest.value);
      }
    }

    /** `remember_bft_valid_value` */
    method Remember(qc: QuorumCert)
      requires Reachable(r, State()) && Synced(work, journal) && KnownBy(r, qc, work.ballot.round)
      modifies `work
      ensures Reachable(r, State()) && Synced(work, journal)
      ensures work == RememberValid(r, old(work), qc)
      ensures work.ballot == old(work.ballot) && work.peer == old(work.peer)
    {
      Update(KeepValid(qc), RememberValid(r, work, qc));
    }

    /** One operation, whatever its outcome. */
    method Perform(op: Operation)
      requires Valid()
      modifies this
      ensures Valid()
      ensures old(mem.peer) == PrecommitObserved ==> mem.ballot == old(mem.ballot) && mem.peer == PrecommitObserved
    {
      var error: Option<Violation>;
      match op {
        case VoteArrives(round, hash, phase, signers, now) =>
          error := ObserveFinalityVote(round, hash, phase, signers, now);
        case NilArrives(round, phase, signers, now) => error := ObserveNilVote(round, phase, signers, now);
        case ReportArrives(report, now) => error := ObserveRoundChange(report, now);
        case CertificateArrives(cert, now) => error := ObserveRoundChangeCertificate(cert, now);
        case ProposalArrives(p, now, proven) => error := ObserveProposal(p, now, proven);
        case CandidateOffered(hash, justification, now, proven) =>
          error := OfferCandidate(hash, justification, now, proven);
        case ClockTicks(now) => error := Tick(now);
      }
    }

    /** In any interleaving of operations, failed ones included, a finished session keeps the round, target, proposal
        and both signer sets of its certificate. */
    method PerformAll(ops: seq<Operation>)
      requires Valid()
      modifies this
      ensures Valid()
      ensures old(mem.peer) == PrecommitObserved ==> mem.ballot == old(mem.ballot) && mem.peer == PrecommitObserved
      ensures mem.peer == PrecommitObserved ==> Complete(r, mem.ballot)
    {
      for i := 0 to |ops|
        invariant Valid()
        invariant old(mem.peer) == PrecommitObserved ==> mem.ballot == old(mem.ballot) && mem.peer == PrecommitObserved
      {
        Perform(ops[i]);
      }
      FinishedHasProposal(r, State());
    }

    // ----- restart -----

    /** `restore_bft_sessions`: memory is lost, the saved session and the journal remain. The engine starts if and
        only if every nonempty saved aggregate decodes. */
    method Reload() returns (error: Option<Violation>)
      requires Reachable(r, State())
      modifies `work, `mem
      ensures Reachable(r, State())
      ensures error == if AggregatesDecode(r, saved.ballot) then None else Some(Corrupt)
      ensures error.None? ==> work == AdvancePeer(r, saved.(peer := BelowPrevote)) && mem == work
      ensures error.Some? ==> State() == old(State())
    {
      ReloadIsReachable(r, State());
      var restored := RestoreBftSession(r, saved, journal);
      if restored.Err? {
        return Some(restored.violation);
      }
      work := restored.value;
      mem := work;
      return None;
    }

    /** Restart: the restored session is the saved one, and after recovery it holds exactly the reservations of its
        round. */
    method Restart() returns (error: Option<Violation>)
      requires Reachable(r, State())
      modifies this
      ensures error == if AggregatesDecode(r, old(saved.ballot)) then None else Some(Corrupt)
      ensures Reachable(r, State()) && journal == old(journal)
      ensures error.None? ==>
        && Valid() && Synced(mem, journal) && saved == mem
        && mem == Synchronized(r, AdvancePeer(r, old(saved).(peer := BelowPrevote)), journal)
        && Recovered(r, old(saved.ballot), mem.ballot, journal)
      ensures error.Some? ==> State() == old(State())
    {
      error := Reload();
      if error.Some? {
        return;
      }
      RecoveryIsComplete(r, State());
      var recovered := RecoverSessionSigning(r, work, journal);
      Update(RecoverSigning, recovered.value.session);
      SaveInserting();
    }

    /** Finish an interrupted proposal, or start the leader's turn. */
    method CompleteInterrupted(now: nat) returns (error: Option<Violation>)
      requires Reachable(r, State()) && Synced(work, journal) && Anchored(mem.ballot, work.ballot)
      modifies this
      ensures Reachable(r, State()) && Synced(work, journal)
      ensures error.None? ==> work == Completed(r, old(work), old(journal), now)
    {
      if work.ballot.proposal.Some? {
        error := AcceptLeaderProposal(work.ballot.proposal.value, now);
      } else {
        error := StartLeaderProposal(now);
      }
    }

    /** `resume_bft_session` */
    method Resume(now: nat) returns (error: Option<Violation>)
      requires Valid()
      modifies this
      ensures Reachable(r, State())
      ensures error.None? ==>
        Valid() && mem == Recomputed(r, Completed(r, Synchronized(r, old(mem), old(journal)), old(journal), now))
          && saved == mem
    {
      var _ := Synchronize();
      error := CompleteInterrupted(now);
      if error.None? {
        error := RecomputeAndSave();
      }
    }
  }

  // ----- sessions that are opened on demand -----

  /** The session of a chunk that had none, opened by a call that also gives the leader its turn unless suppressed. */
  function OpenedAt(r: Rules, hash: Hash, cert: Option<Certificate>, now: nat, base: nat, backoff: nat,
      suppress: bool): BftSession {
    var s := OpenedSession(r, hash, cert, now, base, backoff);
    Recomputed(r, if suppress then s else Led(r, s, EMPTY, now))
  }

  method Open(r: Rules, hash: Hash, cert: Option<Certificate>, now: nat, base: nat, backoff: nat, suppress: bool)
    returns (d: BftDriver, error: Option<Violation>)
    requires RulesOk(r)
    requires cert.Some? ==> cert.value.round > 0 && cert.value.chunk == r.chunk && r.certOk(cert.value)
    ensures fresh(d) && d.Valid() && d.r == r
    ensures error.None? ==> d.mem == OpenedAt(r, hash, cert, now, base, backoff, suppress) && d.saved == d.mem
    ensures suppress ==> error.None? && d.journal == EMPTY
  {
    d := new BftDriver(r, hash, cert, now, base, backoff);
    error := d.FinishOpening(now, suppress);
  }

  /** `offer_bft_candidate` for a chunk that may have no session: the first proven branch opens one. */
  method OfferOrOpen(
    session: BftDriver?, r: Rules, hash: Hash, justification: Option<QuorumCert>, now: nat, base: nat, backoff: nat,
      proven: bool)
    returns (d: BftDriver?, error: Option<Violation>)
    requires RulesOk(r) && (session != null ==> session.Valid() && session.r == r)
    modifies session
    ensures d == null <==> session == null && !proven
    ensures d != null ==> d.Valid() && d.r == r && (if session == null then fresh(d) else d == session)
    ensures !proven ==> error.Some?
    ensures session == null && proven && error.None? ==> d.mem == OpenedAt(r, hash, None, now, base, backoff, false)
    ensures session != null && error.None? ==>
      var s := Synchronized(r, old(session.mem), old(session.journal));
      d.mem == Led(r, Offered(r, s, hash, justification), old(session.journal), now)
  {
    d := session;
    if session != null {
      error := session.OfferCandidate(hash, justification, now, proven);
    } else if !proven {
      error := Some(Conflict);
    } else {
      d, error := Open(r, hash, None, now, base, backoff, false);
    }
  }

  lemma OpenedIsQuiet(r: Rules, p: Proposal, now: nat, base: nat, backoff: nat)
    requires RulesOk(r) && r.proposalOk(p.hash, p.round, p)
    ensures p.certificate.Some? ==>
      p.certificate.value.round > 0 && p.certificate.value.chunk == r.chunk && r.certOk(p.certificate.value)
    ensures var s := OpenedSession(r, p.hash, p.certificate, now, base, backoff);
      && s.ballot.round == p.round && OpenedAt(r, p.hash, p.certificate, now, base, backoff, true) == s
      && Synchronized(r, s, EMPTY) == s
  {
    assert ProposalShape(r, p.hash, p.round, p);
  }

  /** `observe_bft_proposal` for a chunk that may have no session: a proven proposal opens one at its own round. */
  method ObserveOrOpen(
    session: BftDriver?, r: Rules, p: Proposal, now: nat, base: nat, backoff: nat, proven: bool)
    returns (d: BftDriver?, error: Option<Violation>)
    requires RulesOk(r) && (session != null ==> session.Valid() && session.r == r)
    modifies session
    ensures d == null <==> session == null && (!proven || !r.proposalOk(p.hash, p.round, p))
    ensures d == null ==> error.Some?
    ensures d != null ==> d.Valid() && d.r == r && (if session == null then fresh(d) else d == session)
    ensures session == null && error.None? ==>
      d.mem == Accepted(r, OpenedSession(r, p.hash, p.certificate, now, base, backoff), p, now) && d.saved == d.mem
  {
    d := session;
    if session != null {
      error := session.ObserveProposal(p, now, proven);
    } else if !proven || !r.proposalOk(p.hash, p.round, p) {
      error := Some(Conflict);
    } else {
      OpenedIsQuiet(r, p, now, base, backoff);
      d, error := Open(r, p.hash, p.certificate, now, base, backoff, true);
      error := d.ObserveProposal(p, now, true);
    }
  }

  function Completed(r: Rules, s: BftSession, j: ChunkJournal, now: nat): BftSession {
    if s.ballot.proposal.Some? then Accepted(r, s, s.ballot.proposal.value, now) else Led(r, s, j, now)
  }

  lemma ReloadIsExact(r: Rules, n: Node)
    requires Reachable(r, n)
    ensures Restore(r, n.saved, n.journal) ==
      (if AggregatesDecode(r, n.saved.ballot) then Ok(AdvancePeer(r, n.saved.(peer := BelowPrevote))) else Err(Corrupt))
  {
    ReachableIsOk(r, n);
    RestoreIsExact(r, n.saved, n.journal);
  }

  lemma CrashIsStep(r: Rules, n: Node, restored: BftSession)
    requires Restore(r, n.saved, n.journal) == Ok(restored)
    ensures UpdateStep(r, n, Crash, n.(work := restored, mem := restored))
  {
  }

  lemma ReloadIsReachable(r: Rules, n: Node)
    requires Reachable(r, n)
    ensures var restored := AdvancePeer(r, n.saved.(peer := BelowPrevote));
      if AggregatesDecode(r, n.saved.ballot) then
        Restore(r, n.saved, n.journal) == Ok(restored) && Reachable(r, n.(work := restored, mem := restored))
      else Restore(r, n.saved, n.journal) == Err(Corrupt)
  {
    ReloadIsExact(r, n);
    var restored := AdvancePeer(r, n.saved.(peer := BelowPrevote));
    if AggregatesDecode(r, n.saved.ballot) {
      CrashIsStep(r, n, restored);
      NextIsReachable(r, n, Crash, n.(work := restored, mem := restored));
    }
  }

  /** Adding the nil aggregates to a new accumulator fails exactly when one does not decode. */
  lemma NilsReadExactly(r: Rules, n: Node)
    requires Reachable(r, n)
    ensures NilsReadded(r, n.work.ballot) <==> NilsDecode(r, n.work.ballot)
  {
    ReachableIsOk(r, n);
    ReaddedIsDecodable(r, n.work.ballot);
  }

  lemma RecoveryIsComplete(r: Rules, n: Node)
    requires Reachable(r, n)
    ensures var out := Recover(r, n.work, n.journal);
      && out.Ok? && out.value.journal == n.journal && Synced(out.value.session, n.journal)
      && Recovered(r, n.work.ballot, out.value.session.ballot, n.journal)
  {
    ReachableIsOk(r, n);
    RecoverIsExact(r, n.work, n.journal);
  }

  lemma HighestIsKnown(r: Rules, n: Node)
    requires Reachable(r, n) && HighestOf(r, n.work.ballot.certificate).Some?
    ensures KnownBy(r, HighestOf(r, n.work.ballot.certificate).value, n.work.ballot.round)
  {
    ReachableIsOk(r, n);
    assert CertificateFits(r, n.work.ballot.certificate.value);
  }

  /** A finished session always has a complete certificate. */
  lemma FinishedHasProposal(r: Rules, n: Node)
    requires Reachable(r, n)
    ensures n.work.peer == PrecommitObserved ==> Complete(r, n.work.ballot)
    ensures n.mem.peer == PrecommitObserved ==> Complete(r, n.mem.ballot)
  {
    ReachableIsOk(r, n);
  }

  lemma ProposalCarriesEntry(r: Rules, n: Node, p: Proposal)
    requires Reachable(r, n) && r.proposalOk(p.hash, p.round, p) && p.certificate.Some?
    ensures p.certificate.value.chunk == r.chunk && p.certificate.value.round == p.round
      && r.certOk(p.certificate.value)
    ensures n.work.clock.round == n.work.ballot.round
  {
    ReachableIsOk(r, n);
    assert ProposalShape(r, p.hash, p.round, p);
  }

  lemma SynchronizedIsExact(r: Rules, n: Node)
    requires Reachable(r, n)
    ensures var out := Recover(r, n.mem, n.journal);
      && out.Ok? && out.value.journal == n.journal
      && Synced(out.value.session, n.journal) && Anchored(n.mem.ballot, out.value.session.ballot)
      && (n.mem.peer == PrecommitObserved && Synced(n.mem, n.journal) ==>
            out.value.session.ballot == n.mem.ballot && out.value.session.peer == PrecommitObserved)
  {
    ReachableIsOk(r, n);
    RecoverIsExact(r, n.mem, n.journal);
    if Synced(n.mem, n.journal) {
      SyncedIsUnchanged(r, n.mem, n.journal, Recover(r, n.mem, n.journal).value);
    }
  }

  /** A nil vote leaves the reserved report of the next round alone. */
  lemma NilKeepsReport(r: Rules, n: Node, phase: Phase, next: ChunkJournal)
    requires Reachable(r, n) && SignEnabled(r, n, SignNilVote(phase)) && Signing(r, n, SignNilVote(phase)) == Ok(next)
    ensures ReservedReport(next, n.work.ballot.round + 1) == ReservedReport(n.journal, n.work.ballot.round + 1)
  {
    ReachableIsOk(r, n);
    SignNilGrows(r, n.journal, NilIntent(n.work.ballot.round, phase, r.self));
    KeptReport(n.journal, next, n.work.ballot.round);
  }

  lemma KeptReport(j: ChunkJournal, next: ChunkJournal, round: nat)
    requires MessagesKept(j, next, round)
    ensures ReservedReport(next, round + 1) == ReservedReport(j, round + 1)
  {
  }

  lemma ReservedReportIsOwn(r: Rules, n: Node)
    requires Reachable(r, n)
    ensures MessageSlot(ReportKind, n.work.ballot.round + 1) in n.journal.messages ==>
      n.journal.messages[MessageSlot(ReportKind, n.work.ballot.round + 1)].ReportMessage?
    ensures OwnReport(r, n.work, n.journal).round == n.work.ballot.round + 1
  {
    ReachableIsOk(r, n);
  }

  lemma FormedIsOk(r: Rules, n: Node, round: nat)
    requires Reachable(r, n) && r.formed(n.work.clock, round).Some?
    ensures var cert := r.formed(n.work.clock, round).value;
      cert.chunk == r.chunk && cert.round == round && r.certOk(cert)
  {
    ReachableIsOk(r, n);
  }

  lemma IdleHasNoVotes(r: Rules, s: BftSession, j: ChunkJournal)
    requires Good(r, s, j) && s.ballot.local == Idle
    ensures s.ballot.localVotes == map[]
    ensures ReservedProposal(j, s.ballot.round).None? ==> MessageSlot(ProposalKind, s.ballot.round) !in j.messages
  {
    assert Prevote !in s.ballot.localVotes && Precommit !in s.ballot.localVotes;
    forall phase | phase in s.ballot.localVotes
      ensures false
    {
      match phase
      case Prevote =>
      case Precommit =>
    }
  }

  lemma LeaderIsFree(r: Rules, n: Node)
    requires Reachable(r, n) && n.work.ballot.local == Idle
    ensures n.work.ballot.localVotes == map[]
    ensures ReservedProposal(n.journal, n.work.ballot.round).None? ==>
      MessageSlot(ProposalKind, n.work.ballot.round) !in n.journal.messages
  {
    ReachableIsOk(r, n);
    IdleHasNoVotes(r, n.work, n.journal);
  }

  /** Nothing is reserved for a round that was not entered. */
  lemma NothingAhead(r: Rules, s: BftSession, j: ChunkJournal, round: nat)
    requires Good(r, s, j) && round > s.ballot.round
    ensures RoundFree(j, round) && ReservedProposal(j, round).None?
  {
    NewRoundIsFree(r.certifies, r.chunk, j, round, Prevote);
    NewRoundIsFree(r.certifies, r.chunk, j, round, Precommit);
  }

  lemma LedWithoutReservation(r: Rules, s: BftSession, j: ChunkJournal, now: nat)
    requires ReservedProposal(j, s.ballot.round).None?
    ensures Led(r, s, j, now) == Led(r, s, EMPTY, now)
    ensures LeadSucceeds(r, s, j, now) == LeadSucceeds(r, s, EMPTY, now)
  {
    assert ToPropose(r, s, j) == ToPropose(r, s, EMPTY);
  }

  lemma EntryIsSynced(r: Rules, n: Node, cert: Certificate, now: nat)
    requires Reachable(r, n) && Synced(n.work, n.journal) && cert.round > n.work.ballot.round
    ensures n.work.clock.round == n.work.ballot.round
    ensures var next := EnterRound(r, n.work, cert, now);
      && Synced(next, n.journal) && next.peer == BelowPrevote
      && Led(r, next, n.journal, now) == Led(r, next, EMPTY, now)
      && LeadSucceeds(r, next, n.journal, now) == LeadSucceeds(r, next, EMPTY, now)
  {
    ReachableIsOk(r, n);
    NothingAhead(r, n.work, n.journal, cert.round);
    LedWithoutReservation(r, EnterRound(r, n.work, cert, now), n.journal, now);
  }

  /** The session on which an accepted proposal is voted. */
  function AcceptedTarget(r: Rules, s: BftSession, p: Proposal, now: nat): BftSession {
    if s.ballot.proposal.Some? then s else AcceptProposal(r, Targeted(r, s, p.hash), p, now)
  }

  /** A precommit is due but the proofs of its target are not stored. */
  predicate ProofsMissing(r: Rules, s: BftSession) {
    var voted := AfterPrevote(r, s);
    ShouldPrecommit(r, voted) && r.stored(voted.ballot.target) != Some(voted.ballot.proofs)
  }

  lemma AcceptedFrame(r: Rules, s: BftSession, p: Proposal, now: nat)
    ensures var next := AcceptProposal(r, s, p, now);
      next.peer == s.peer && next.lock == s.lock && next.report == s.report && next.ballot == WithProposal(s.ballot, p)
  {
  }

  lemma StoredIsAnchored(r: Rules, n: Node)
    requires Reachable(r, n)
    ensures Anchored(n.mem.ballot, n.saved.ballot)
  {
    ReachableIsOk(r, n);
  }

  /** The accumulated quorum verifies, so it becomes the valid value or is outranked by one of its round or later. */
  lemma RetainedIsKnown(r: Rules, n: Node)
    requires Reachable(r, n) && r.prevoteQuorum(n.work.ballot.prevotes)
    ensures var qc, kept := CurrentQuorum(r, n.work.ballot), Retained(r, n.work);
      && KnownBy(r, qc, n.work.ballot.round)
      && kept.valid.Some? && kept.valid.value.round >= n.work.ballot.round
      && kept == n.work.(valid := kept.valid, candidates := kept.candidates)
  {
    ReachableIsOk(r, n);
    RememberValidKeeps(r, n.work, CurrentQuorum(r, n.work.ballot));
  }
}

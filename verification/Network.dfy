/** All honest validators running the driver, with crashes, against faulty ones that sign anything.

    The log holds everything honest validators sign. A step may use a foreign artifact only if it is
    unforged: what passes the signature checks names honest signers only where they signed. */
module Network {
  import opened Types
  import opened Stake
  import opened SigningJournal
  import opened Leader
  import opened Certificates
  import opened Pacemaker
  import opened Session
  import opened JournalGrowth
  import opened SessionInvariant
  import opened SessionSteps
  import opened SigningSteps
  import opened Recovery
  import opened NodeSteps
  import opened Agreement
  import opened Context
  import opened Evidence

  datatype World = World(nodes: map<nat, Node>, log: seq<Entry>)

  datatype Event =
    | OpenSession(v: nat, target: Hash, cert: Option<Certificate>, now: nat, base: nat, backoff: nat)
    | Act(v: nat, l: Label)

  function ConfigOf(x: Setting, faulty: set<nat>): Config {
    Config(x.committee, faulty, x.chunk)
  }

  // ----- evidence in the log -----

  function ReportEntry(m: Report): Entry {
    Entry(m.index, RoundMessage(ReportKind, m.round, ReportMessage(m)))
  }

  predicate Filed(cfg: Config, log: seq<Entry>, m: Report) {
    m.index !in cfg.faulty ==> ReportEntry(m) in log
  }

  function EvidenceOf(cfg: Config, log: seq<Entry>): Evidence {
    Evidence(
      (signers: set<nat>, round: nat, hash: Hash, phase: Phase) => AllVoted(cfg, log, signers, round, hash, phase),
      (m: Report) => Filed(cfg, log, m))
  }

  predicate ReportUnforged(cfg: Config, log: seq<Entry>, m: Report) {
    ReportOk(cfg.committee, m) ==> Filed(cfg, log, m) && (m.highest.Some? ==> Unforged(cfg, log, m.highest.value))
  }

  predicate CertUnforged(cfg: Config, log: seq<Entry>, cert: Certificate) {
    forall k :: 0 <= k < |cert.reports| ==> ReportUnforged(cfg, log, cert.reports[k])
  }

  predicate ProposalUnforged(cfg: Config, log: seq<Entry>, p: Proposal) {
    && (p.valid.Some? ==> Unforged(cfg, log, p.valid.value))
    && (p.certificate.Some? ==> CertUnforged(cfg, log, p.certificate.value))
  }

  predicate LabelUnforged(cfg: Config, log: seq<Entry>, b: Ballot, l: Label) {
    match l
    case CountVotes(phase, signers) => AllVoted(cfg, log, signers, b.round, b.target, phase)
    case KeepValid(qc) => Unforged(cfg, log, qc)
    case TakeProposal(p, _) => ProposalUnforged(cfg, log, p)
    case CollectReport(m) => ReportUnforged(cfg, log, m)
    case EnterCertified(cert, _) => CertUnforged(cfg, log, cert)
    case _ => true
  }

  // ----- steps -----

  function Opened(r: Rules, e: Event): BftSession
    requires e.OpenSession?
  {
    OpenedSession(r, e.target, e.cert, e.now, e.base, e.backoff)
  }

  function Emitted(r: Rules, n: Node, l: Label): seq<Reservation> {
    var b := n.work.ballot;
    match l
    case SignPrevote => [ValueVote(PrevoteIntent(r, b))]
    case SignPrecommit => [ValueVote(PrecommitIntent(r, b))]
    case SignNilVote(phase) => [NilVote(NilIntent(b.round, phase, r.self))]
    case SignProposal(p) => [RoundMessage(ProposalKind, b.round, ProposalMessage(p))]
    case SignReport => [RoundMessage(ReportKind, b.round + 1, ReportMessage(ReportIntent(r, n.work)))]
    case _ => []
  }

  function LogAfter(log: seq<Entry>, v: nat, emitted: seq<Reservation>): seq<Entry> {
    if emitted == [] then log else log + [Entry(v, emitted[0])]
  }

  ghost predicate Next(x: Setting, faulty: set<nat>, w: World, e: Event, t: World) {
    var cfg, r := ConfigOf(x, faulty), RulesOf(x, e.v);
    match e
    case OpenSession(v, target, cert, now, base, backoff) =>
      && v !in w.nodes && v !in faulty && SettingOk(x, v)
      && (cert.Some? ==>
            && cert.value.round > 0 && cert.value.chunk == x.chunk && r.certOk(cert.value)
            && CertUnforged(cfg, w.log, cert.value))
      && var s := Opened(r, e);
      t == w.(nodes := w.nodes[v := Node(s, s, s, EMPTY)])
    case Act(v, l) =>
      && v in w.nodes && v in t.nodes
      && Step(r, w.nodes[v], l, t.nodes[v]) && LabelUnforged(cfg, w.log, w.nodes[v].work.ballot, l)
      && t == World(w.nodes[v := t.nodes[v]], LogAfter(w.log, v, Emitted(r, w.nodes[v], l)))
  }

  ghost predicate IsNetworkRun(x: Setting, faulty: set<nat>, worlds: seq<World>, events: seq<Event>) {
    && |worlds| == |events| + 1
    && worlds[0] == World(map[], [])
    && forall i {:trigger events[i]} :: 0 <= i < |events| ==> Next(x, faulty, worlds[i], events[i], worlds[i + 1])
  }

  // ----- the invariant -----

  predicate IsReport(e: Entry) {
    e.what.RoundMessage? && e.what.kind == ReportKind
  }

  /** A report for a round carries a certificate of every earlier round its signer precommitted in, or a later one. */
  predicate ReportsCover(log: seq<Entry>) {
    forall i, j :: 0 <= i < |log| && 0 <= j < |log| && log[i].signer == log[j].signer && IsReport(log[i])
                   && IsPhase(log[j], Precommit) && log[j].what.intent.data.round < log[i].what.round ==>
      ReportCovers(log[i].what.message, log[j].what.intent.data.round)
  }

  predicate ReportCovers(message: Message, round: nat) {
    message.ReportMessage? && message.report.highest.Some? && message.report.highest.value.round >= round
  }

  ghost predicate NodeOk(x: Setting, faulty: set<nat>, log: seq<Entry>, v: nat, n: Node) {
    && v !in faulty && SettingOk(x, v)
    && NodeInv(RulesOf(x, v), n)
    && NodeBacked(EvidenceOf(ConfigOf(x, faulty), log), v, n)
    && JournalMatches(ConfigOf(x, faulty), log, v, n.journal)
  }

  ghost predicate NetworkInv(x: Setting, faulty: set<nat>, w: World) {
    && LogOk(ConfigOf(x, faulty), w.log) && ReportsCover(w.log)
    && SignersKnown(w) && NodesOk(x, faulty, w)
  }

  // ----- evidence -----

  lemma EvidenceHolds(cfg: Config, log: seq<Entry>)
    ensures EvidenceOk(EvidenceOf(cfg, log))
  {
  }

  lemma EvidenceGrows(cfg: Config, log: seq<Entry>, more: seq<Entry>)
    requires log <= more
    ensures Grows(EvidenceOf(cfg, log), EvidenceOf(cfg, more))
  {
    var e, f := EvidenceOf(cfg, log), EvidenceOf(cfg, more);
    forall a, round, hash, phase | e.cast(a, round, hash, phase)
      ensures f.cast(a, round, hash, phase)
    {
      AllVotedGrows(cfg, log, more, a, round, hash, phase);
    }
    forall m | e.filed(m)
      ensures f.filed(m)
    {
      if m.index !in cfg.faulty {
        var i :| 0 <= i < |log| && log[i] == ReportEntry(m);
        assert more[i] == ReportEntry(m);
      }
    }
  }

  lemma HighestIsBacked(e: Evidence, cert: Certificate)
    requires CertBacked(e, Some(cert))
    ensures Backed(e, HighestQuorum(cert.reports))
  {
    HighestQuorumIsMaximal(cert.reports);
    if HighestQuorum(cert.reports).Some? {
      var k :| 0 <= k < |cert.reports| && cert.reports[k].highest == HighestQuorum(cert.reports);
      assert ReportBacked(e, cert.reports[k]);
    }
  }

  lemma {:induction false} EvictOnlyDrops(reports: map<nat, map<nat, Report>>)
    ensures var kept := Evict(reports); kept.Keys <= reports.Keys && forall n :: n in kept ==> kept[n] == reports[n]
    decreases |reports|
  {
    if |reports| > 2 {
      EvictOnlyDrops(reports - {MaxOf(reports.Keys)});
    }
  }

  lemma CollectedIsBacked(e: Evidence, p: Clock, m: Report)
    requires ClockBacked(e, p) && ReportBacked(e, m)
    ensures ClockBacked(e, Collected(p, m))
  {
    EvictOnlyDrops(Inserted(p, m));
    var kept := Collected(p, m).reports;
    forall n | n in kept
      ensures forall i :: i in kept[n] ==> ReportBacked(e, kept[n][i])
    {
      assert kept[n] == Inserted(p, m)[n];
    }
  }

  lemma RulesAreBacked(x: Setting, self: nat, e: Evidence)
    ensures RulesBacked(RulesOf(x, self), e)
  {
    var r := RulesOf(x, self);
    forall cert | CertBacked(e, Some(cert))
      ensures Backed(e, r.highest(cert))
    {
      HighestIsBacked(e, cert);
    }
    forall p, m | r.accepts(p, m) && ClockBacked(e, p) && ReportBacked(e, m)
      ensures ClockBacked(e, r.collected(p, m))
    {
      CollectedIsBacked(e, p, m);
    }
  }

  // ----- unforged artifacts that pass the checks are genuine -----

  lemma ReportIsBacked(cfg: Config, log: seq<Entry>, m: Report)
    requires ReportOk(cfg.committee, m) && ReportUnforged(cfg, log, m)
    ensures ReportBacked(EvidenceOf(cfg, log), m)
  {
  }

  lemma CertIsBacked(cfg: Config, log: seq<Entry>, cert: Certificate)
    requires CertificateOk(cfg.committee, cert) && CertUnforged(cfg, log, cert)
    ensures CertBacked(EvidenceOf(cfg, log), Some(cert))
  {
    forall k | 0 <= k < |cert.reports|
      ensures ReportBacked(EvidenceOf(cfg, log), cert.reports[k])
    {
      ReportIsBacked(cfg, log, cert.reports[k]);
    }
  }

  lemma ProposalIsBacked(x: Setting, faulty: set<nat>, log: seq<Entry>, self: nat, h: Hash, n: nat, p: Proposal)
    requires RulesOf(x, self).proposalOk(h, n, p) && ProposalUnforged(ConfigOf(x, faulty), log, p)
    ensures ProposalBacked(EvidenceOf(ConfigOf(x, faulty), log), p)
  {
    if p.certificate.Some? {
      CertIsBacked(ConfigOf(x, faulty), log, p.certificate.value);
    }
  }

  lemma UnforgedIsBacked(x: Setting, faulty: set<nat>, log: seq<Entry>, self: nat, n: Node, l: Label, t: Node)
    requires UpdateStep(RulesOf(x, self), n, l, t) && LabelUnforged(ConfigOf(x, faulty), log, n.work.ballot, l)
    ensures LabelBacked(EvidenceOf(ConfigOf(x, faulty), log), n.work.ballot, l)
  {
    match l
    case TakeProposal(p, _) => ProposalIsBacked(x, faulty, log, self, n.work.ballot.target, n.work.ballot.round, p);
    case CollectReport(m) => ReportIsBacked(ConfigOf(x, faulty), log, m);
    case EnterCertified(cert, _) => CertIsBacked(ConfigOf(x, faulty), log, cert);
    case _ =>
  }

  // ----- every event keeps the invariant -----

  lemma OtherNodeOk(x: Setting, faulty: set<nat>, log: seq<Entry>, e: Entry, v: nat, n: Node)
    requires NodeOk(x, faulty, log, v, n) && e.signer != v
    ensures NodeOk(x, faulty, log + [e], v, n)
  {
    var cfg := ConfigOf(x, faulty);
    EvidenceGrows(cfg, log, log + [e]);
    BackedGrows(EvidenceOf(cfg, log), EvidenceOf(cfg, log + [e]), v, n);
    OthersKeepMatching(cfg, log, e, v, n.journal);
  }

  lemma UpdateKeepsNode(x: Setting, faulty: set<nat>, log: seq<Entry>, v: nat, n: Node, l: Label, t: Node)
    requires NodeOk(x, faulty, log, v, n) && UpdateStep(RulesOf(x, v), n, l, t)
    requires LabelUnforged(ConfigOf(x, faulty), log, n.work.ballot, l)
    ensures NodeOk(x, faulty, log, v, t)
  {
    var cfg, r := ConfigOf(x, faulty), RulesOf(x, v);
    RulesHold(x, v);
    UpdateStepKeeps(r, n, l, t);
    EvidenceHolds(cfg, log);
    RulesAreBacked(x, v, EvidenceOf(cfg, log));
    UnforgedIsBacked(x, faulty, log, v, n, l, t);
    UpdateKeepsBacked(r, EvidenceOf(cfg, log), n, l, t);
    JournalUnchanged(r, n, l, t);
  }

  lemma JournalUnchanged(r: Rules, n: Node, l: Label, t: Node)
    requires RulesOk(r) && NodeInv(r, n) && UpdateStep(r, n, l, t)
    ensures t.journal == n.journal
  {
    if l.RecoverSigning? {
      RecoverIsExact(r, n.work, n.journal);
    }
  }

  /** The certificates a vote of this session carries are genuine. */
  predicate UnlocksGenuine(cfg: Config, log: seq<Entry>, r: Rules, b: Ballot) {
    && (b.justification.Some? ==> Genuine(cfg, log, b.justification.value))
    && Genuine(cfg, log, CurrentQuorum(r, b))
  }

  lemma ValueMatches(cfg: Config, log: seq<Entry>, v: nat, j: ChunkJournal, intent: VoteIntent)
    requires LogOk(cfg, log) && v !in cfg.faulty && JournalMatches(cfg, log, v, j) && intent.data.chunk == cfg.chunk
    requires intent.unlock.Some? ==> Genuine(cfg, log, intent.unlock.value)
    requires SignVote(VerifierOf(cfg.committee), j, intent).Ok?
    ensures var next := log + [Entry(v, ValueVote(intent))];
      LogOk(cfg, next) && JournalMatches(cfg, next, v, SignVote(VerifierOf(cfg.committee), j, intent).value)
  {
    SignValueMatches(cfg, log, v, j, intent);
    SignValueKeepsLog(cfg, log, v, j, intent);
  }

  /** The journal and the log after a signature. */
  lemma SigningMatches(x: Setting, faulty: set<nat>, log: seq<Entry>, v: nat, n: Node, l: Label, t: Node)
    requires LogOk(ConfigOf(x, faulty), log) && v !in faulty && JournalMatches(ConfigOf(x, faulty), log, v, n.journal)
    requires UnlocksGenuine(ConfigOf(x, faulty), log, RulesOf(x, v), n.work.ballot)
    requires SignStep(RulesOf(x, v), n, l, t)
    ensures var cfg, next := ConfigOf(x, faulty), LogAfter(log, v, Emitted(RulesOf(x, v), n, l));
      LogOk(cfg, next) && JournalMatches(cfg, next, v, t.journal)
  {
    var cfg, r, b, j := ConfigOf(x, faulty), RulesOf(x, v), n.work.ballot, n.journal;
    match l
    case SignPrevote => ValueMatches(cfg, log, v, j, PrevoteIntent(r, b));
    case SignPrecommit => ValueMatches(cfg, log, v, j, PrecommitIntent(r, b));
    case SignNilVote(phase) => SignNilMatches(cfg, log, v, j, NilIntent(b.round, phase, v));
    case SignProposal(p) => SignMessageMatches(cfg, log, v, j, ProposalKind, b.round, ProposalMessage(p));
    case SignReport => SignMessageMatches(cfg, log, v, j, ReportKind, b.round + 1,
      ReportMessage(ReportIntent(r, n.work)));
  }

  lemma AppendKeepsReports(log: seq<Entry>, e: Entry)
    requires ReportsCover(log)
    requires IsReport(e) ==> forall j :: 0 <= j < |log| && log[j].signer == e.signer && IsPhase(log[j], Precommit)
                                         && log[j].what.intent.data.round < e.what.round ==>
      ReportCovers(e.what.message, log[j].what.intent.data.round)
    requires IsPhase(e, Precommit) ==> forall i :: 0 <= i < |log| && log[i].signer == e.signer && IsReport(log[i]) ==>
      log[i].what.round <= e.what.intent.data.round
    ensures ReportsCover(log + [e])
  {
  }

  /** A precommit is never signed after a report for a later round. */
  lemma PrecommitPrecedesReports(cfg: Config, r: Rules, log: seq<Entry>, v: nat, s: BftSession, j: ChunkJournal, i: nat)
    requires Good(r, s, j) && JournalMatches(cfg, log, v, j) && s.clock.step != AwaitRound
    requires i < |log| && log[i].signer == v && IsReport(log[i])
    ensures log[i].what.round <= s.ballot.round
  {
    assert Covers(j, log[i].what);
  }

  /** A report carries a certificate at least as high as every precommit of its signer. */
  lemma ReportCoversPrecommits(cfg: Config, r: Rules, log: seq<Entry>, v: nat, s: BftSession, j: ChunkJournal, i: nat)
    requires Good(r, s, j) && JournalMatches(cfg, log, v, j)
    requires i < |log| && log[i].signer == v && IsPhase(log[i], Precommit)
    ensures ReportCovers(ReportMessage(ReportIntent(r, s)), log[i].what.intent.data.round)
  {
  }

  lemma SigningKeepsReports(x: Setting, faulty: set<nat>, log: seq<Entry>, v: nat, n: Node, l: Label)
    requires ReportsCover(log) && NodeOk(x, faulty, log, v, n) && SignEnabled(RulesOf(x, v), n, l)
    ensures ReportsCover(LogAfter(log, v, Emitted(RulesOf(x, v), n, l)))
  {
    var cfg, r := ConfigOf(x, faulty), RulesOf(x, v);
    var emitted := Emitted(r, n, l);
    if l.SignPrecommit? {
      forall i | 0 <= i < |log| && log[i].signer == v && IsReport(log[i])
        ensures log[i].what.round <= n.work.ballot.round
      {
        PrecommitPrecedesReports(cfg, r, log, v, n.work, n.journal, i);
      }
    } else if l.SignReport? {
      forall j | 0 <= j < |log| && log[j].signer == v && IsPhase(log[j], Precommit)
        ensures ReportCovers(ReportMessage(ReportIntent(r, n.work)), log[j].what.intent.data.round)
      {
        ReportCoversPrecommits(cfg, r, log, v, n.work, n.journal, j);
      }
    }
    AppendKeepsReports(log, Entry(v, emitted[0]));
  }

  lemma OwnVoteIsCast(x: Setting, faulty: set<nat>, log: seq<Entry>, v: nat, n: Node, l: Label)
    requires SignEnabled(RulesOf(x, v), n, l)
    ensures OwnVoteCast(EvidenceOf(ConfigOf(x, faulty), LogAfter(log, v, Emitted(RulesOf(x, v), n, l))), v,
      n.work.ballot, l)
  {
    var b, next := n.work.ballot, LogAfter(log, v, Emitted(RulesOf(x, v), n, l));
    if l.SignPrevote? {
      assert IsVote(next[|log|], v, b.round, b.target, Prevote);
    } else if l.SignPrecommit? {
      assert IsVote(next[|log|], v, b.round, b.target, Precommit);
    }
  }

  lemma SigningKeepsNode(x: Setting, faulty: set<nat>, log: seq<Entry>, v: nat, n: Node, l: Label, t: Node)
    requires LogOk(ConfigOf(x, faulty), log) && NodeOk(x, faulty, log, v, n) && SignStep(RulesOf(x, v), n, l, t)
    ensures var next := LogAfter(log, v, Emitted(RulesOf(x, v), n, l));
      LogOk(ConfigOf(x, faulty), next) && NodeOk(x, faulty, next, v, t)
  {
    var cfg, r := ConfigOf(x, faulty), RulesOf(x, v);
    var next := LogAfter(log, v, Emitted(r, n, l));
    RulesHold(x, v);
    StepKeepsInv(r, n, l, t);
    EvidenceHolds(cfg, next);
    EvidenceGrows(cfg, log, next);
    OwnVoteIsCast(x, faulty, log, v, n, l);
    SignKeepsBacked(r, EvidenceOf(cfg, log), EvidenceOf(cfg, next), n, l, t);
    SigningMatches(x, faulty, log, v, n, l, t);
  }

  ghost predicate NodesOk(x: Setting, faulty: set<nat>, w: World) {
    forall v :: v in w.nodes ==> NodeOk(x, faulty, w.log, v, w.nodes[v])
  }

  /** `next` is `log`, or `log` and one more entry of `v`. */
  predicate ExtendedBy(log: seq<Entry>, v: nat, next: seq<Entry>) {
    next == log || (|next| == |log| + 1 && next[|log|].signer == v && next == log + [next[|log|]])
  }

  lemma SigningEffects(x: Setting, faulty: set<nat>, log: seq<Entry>, v: nat, n: Node, l: Label, m: Node,
      next: seq<Entry>)
    requires LogOk(ConfigOf(x, faulty), log) && ReportsCover(log) && NodeOk(x, faulty, log, v, n)
    requires SignStep(RulesOf(x, v), n, l, m) && next == LogAfter(log, v, Emitted(RulesOf(x, v), n, l))
    ensures LogOk(ConfigOf(x, faulty), next) && ReportsCover(next) && NodeOk(x, faulty, next, v, m)
  {
    SigningKeepsNode(x, faulty, log, v, n, l, m);
    SigningKeepsReports(x, faulty, log, v, n, l);
  }

  lemma ExtendsByOne(log: seq<Entry>, v: nat, emitted: seq<Reservation>)
    ensures ExtendedBy(log, v, LogAfter(log, v, emitted))
  {
  }

  lemma SilentUpdate(r: Rules, n: Node, l: Label, m: Node)
    requires UpdateStep(r, n, l, m)
    ensures Emitted(r, n, l) == []
  {
  }

  lemma StepEffects(x: Setting, faulty: set<nat>, log: seq<Entry>, v: nat, n: Node, l: Label, m: Node, next: seq<Entry>)
    requires LogOk(ConfigOf(x, faulty), log) && ReportsCover(log) && NodeOk(x, faulty, log, v, n)
    requires Step(RulesOf(x, v), n, l, m) && LabelUnforged(ConfigOf(x, faulty), log, n.work.ballot, l)
    requires next == LogAfter(log, v, Emitted(RulesOf(x, v), n, l))
    ensures LogOk(ConfigOf(x, faulty), next) && ReportsCover(next) && NodeOk(x, faulty, next, v, m)
  {
    if UpdateStep(RulesOf(x, v), n, l, m) {
      SilentUpdate(RulesOf(x, v), n, l, m);
      UpdateKeepsNode(x, faulty, log, v, n, l, m);
    } else {
      SigningEffects(x, faulty, log, v, n, l, m, next);
    }
  }

  lemma OthersStayOk(x: Setting, faulty: set<nat>, w: World, v: nat, t: World)
    requires NodesOk(x, faulty, w) && v in t.nodes && t.nodes == w.nodes[v := t.nodes[v]] && ExtendedBy(w.log, v, t.log)
    requires NodeOk(x, faulty, t.log, v, t.nodes[v])
    ensures NodesOk(x, faulty, t)
  {
    forall u | u in t.nodes
      ensures NodeOk(x, faulty, t.log, u, t.nodes[u])
    {
      if u != v && t.log != w.log {
        OtherNodeOk(x, faulty, w.log, t.log[|w.log|], u, w.nodes[u]);
      }
    }
  }

  predicate SignersKnown(w: World) {
    forall i :: 0 <= i < |w.log| ==> w.log[i].signer in w.nodes
  }

  /** The signer's new state and the longer log suit everyone. */
  lemma NodesFollow(x: Setting, faulty: set<nat>, w: World, v: nat, t: World)
    requires NodesOk(x, faulty, w) && SignersKnown(w) && v in t.nodes && t.nodes == w.nodes[v := t.nodes[v]]
    requires ExtendedBy(w.log, v, t.log) && NodeOk(x, faulty, t.log, v, t.nodes[v])
    ensures NodesOk(x, faulty, t) && SignersKnown(t) && w.log <= t.log
  {
    OthersStayOk(x, faulty, w, v, t);
    SignersStayKnown(w, v, t);
  }

  lemma SignersStayKnown(w: World, v: nat, t: World)
    requires SignersKnown(w) && v in t.nodes && t.nodes == w.nodes[v := t.nodes[v]] && ExtendedBy(w.log, v, t.log)
    ensures SignersKnown(t) && w.log <= t.log
  {
  }

  lemma ActKeepsInv(x: Setting, faulty: set<nat>, w: World, v: nat, l: Label, t: World)
    requires NetworkInv(x, faulty, w) && Next(x, faulty, w, Act(v, l), t)
    ensures NetworkInv(x, faulty, t) && w.log <= t.log
  {
    StepEffects(x, faulty, w.log, v, w.nodes[v], l, t.nodes[v], t.log);
    ExtendsByOne(w.log, v, Emitted(RulesOf(x, v), w.nodes[v], l));
    NodesFollow(x, faulty, w, v, t);
  }

  lemma OpenedIsBacked(cfg: Config, log: seq<Entry>, r: Rules, e: Event)
    requires e.OpenSession?
      && (e.cert.Some? ==> CertificateOk(cfg.committee, e.cert.value) && CertUnforged(cfg, log, e.cert.value))
    ensures var s := Opened(r, e); NodeBacked(EvidenceOf(cfg, log), r.self, Node(s, s, s, EMPTY))
  {
    EvidenceHolds(cfg, log);
    if e.cert.Some? {
      CertIsBacked(cfg, log, e.cert.value);
    }
  }

  lemma OpenedNodeOk(x: Setting, faulty: set<nat>, log: seq<Entry>, v: nat, e: Event)
    requires SettingOk(x, v) && v !in faulty && e.OpenSession?
    requires e.cert.Some? ==>
      e.cert.value.round > 0 && e.cert.value.chunk == x.chunk && CertificateOk(x.committee, e.cert.value)
    requires e.cert.Some? ==> CertUnforged(ConfigOf(x, faulty), log, e.cert.value)
    requires forall i :: 0 <= i < |log| ==> log[i].signer != v
    ensures var s := Opened(RulesOf(x, v), e); NodeOk(x, faulty, log, v, Node(s, s, s, EMPTY))
  {
    RulesHold(x, v);
    OpenedIsGood(RulesOf(x, v), e.target, e.cert, e.now, e.base, e.backoff);
    OpenedIsBacked(ConfigOf(x, faulty), log, RulesOf(x, v), e);
  }

  lemma OpenKeepsInv(x: Setting, faulty: set<nat>, w: World, e: Event, t: World)
    requires NetworkInv(x, faulty, w) && e.OpenSession? && Next(x, faulty, w, e, t)
    ensures NetworkInv(x, faulty, t) && w.log <= t.log
  {
    OpenedNodeOk(x, faulty, w.log, e.v, e);
    NodesFollow(x, faulty, w, e.v, t);
  }

  lemma NextKeepsInv(x: Setting, faulty: set<nat>, w: World, e: Event, t: World)
    requires NetworkInv(x, faulty, w) && Next(x, faulty, w, e, t)
    ensures NetworkInv(x, faulty, t) && w.log <= t.log
  {
    if e.OpenSession? {
      OpenKeepsInv(x, faulty, w, e, t);
    } else {
      ActKeepsInv(x, faulty, w, e.v, e.l, t);
    }
  }

  lemma {:induction false} NetworkRunKeepsInv(
    x: Setting, faulty: set<nat>, worlds: seq<World>, events: seq<Event>, n: nat)
    requires IsNetworkRun(x, faulty, worlds, events) && n < |worlds|
    ensures NetworkInv(x, faulty, worlds[n])
  {
    if n > 0 {
      NetworkRunKeepsInv(x, faulty, worlds, events, n - 1);
      assert Next(x, faulty, worlds[n - 1], events[n - 1], worlds[n]);
      NextKeepsInv(x, faulty, worlds[n - 1], events[n - 1], worlds[n]);
    }
  }

  /** Every event of a run is a step the network allows, taken where every honest validator is in order. */
  lemma RunEvent(x: Setting, faulty: set<nat>, worlds: seq<World>, events: seq<Event>, n: nat)
    requires IsNetworkRun(x, faulty, worlds, events) && n < |events|
    ensures |worlds| == |events| + 1 && NodesOk(x, faulty, worlds[n])
      && Next(x, faulty, worlds[n], events[n], worlds[n + 1])
  {
    NetworkRunKeepsInv(x, faulty, worlds, events, n);
  }

  lemma LogGrowsAfter(x: Setting, faulty: set<nat>, worlds: seq<World>, events: seq<Event>, n: nat)
    requires IsNetworkRun(x, faulty, worlds, events) && n < |events|
    ensures worlds[n].log <= worlds[n + 1].log
  {
    RunEvent(x, faulty, worlds, events, n);
    NetworkRunKeepsInv(x, faulty, worlds, events, n);
    NextKeepsInv(x, faulty, worlds[n], events[n], worlds[n + 1]);
  }

  lemma {:induction false} NetworkLogsGrow(
    x: Setting, faulty: set<nat>, worlds: seq<World>, events: seq<Event>, m: nat, n: nat)
    requires IsNetworkRun(x, faulty, worlds, events) && m <= n < |worlds|
    ensures worlds[m].log <= worlds[n].log
  {
    if m < n {
      NetworkLogsGrow(x, faulty, worlds, events, m, n - 1);
      LogGrowsAfter(x, faulty, worlds, events, n - 1);
    }
  }
}

/** The candidate cache and the valid value over every step of a validator. */
module CandidateRuns {
  import opened Types
  import opened SigningJournal
  import opened Pacemaker
  import opened Session
  import opened Candidates
  import opened SessionInvariant
  import opened SessionSteps
  import opened Recovery
  import opened NodeSteps
  import opened Context
  import Network
  import Driver

  predicate NotLower(from: Option<QuorumCert>, to: Option<QuorumCert>) {
    from.Some? ==> to.Some? && !RankBelow(to.value, from.value)
  }

  /** No branch the session still names is dropped. */
  predicate NamedKept(named: set<Hash>, from: set<Hash>, to: set<Hash>) {
    forall h :: h in from && h in named ==> h in to
  }

  predicate CacheKept(r: Rules, s: BftSession, t: BftSession) {
    NotLower(s.valid, t.valid) && NamedKept(Protected(r, t), s.candidates, t.candidates)
  }

  /** Named by the session itself, apart from its round certificate. */
  function OwnNamed(s: BftSession): set<Hash> {
    {s.ballot.target} + HashOf(s.valid) + HashOf(s.lock) + HashOf(ReportedBy(s.report))
  }

  predicate CacheOk(s: BftSession) {
    |s.candidates| <= MAX_CANDIDATES && (s.valid.Some? ==> s.valid.value.hash in s.candidates)
  }

  lemma EnterKeepsCache(r: Rules, s: BftSession, cert: Certificate, now: nat)
    requires CacheOk(s)
    requires cert.round > s.clock.round
    ensures CacheKept(r, s, EnterRound(r, s, cert, now))
  {
    var known := KnownHighest(r, s, cert);
    if known.Some? {
      RememberValidKeeps(r, s, known.value);
    }
  }

  /** The proposal's own value is pinned first; the certificate it installs is not yet protected by then. */
  lemma AcceptKeepsCache(r: Rules, s: BftSession, p: Proposal, now: nat)
    requires CacheOk(s)
    ensures var t := AcceptProposal(r, s, p, now);
      NotLower(s.valid, t.valid) && NamedKept(OwnNamed(t), s.candidates, t.candidates)
  {
    var valued := RememberOptional(r, s, p.valid);
    if p.valid.Some? {
      RememberValidKeeps(r, s, p.valid.value);
    }
    RememberCandidateKeeps(r, valued, p.hash);
  }

  /** What the session names while a proposal is remembered: the certificate it carries is installed only afterwards. */
  function NamedWhileAccepting(r: Rules, s: BftSession, p: Proposal): set<Hash> {
    Protected(r, s.(valid := RememberOptional(r, s, p.valid).valid))
  }

  lemma SomethingFree(all: set<Hash>, named: set<Hash>)
    requires |all| > |named|
    ensures all - named != {}
  {
    if all - named == {} {
      assert forall x: Hash :: x in all ==> x in all - named || x in named;
      SubsetCardinality(all, named);
    }
  }

  lemma TrimOne(all: set<Hash>, named: set<Hash>)
    requires |all| == MAX_CANDIDATES + 1 && |named| <= MAX_CANDIDATES
    ensures all - named != {} && Trim(all, named) == all - {MinOf(all - named)}
  {
    SomethingFree(all, named);
  }

  /** `h` is the smallest branch of `all` that nothing names. */
  predicate FirstUnnamed(all: set<Hash>, named: set<Hash>, h: Hash) {
    h in all && h !in named && forall k :: k in all ==> k in named || h <= k
  }

  lemma FirstUnnamedIsMin(all: set<Hash>, named: set<Hash>, h: Hash)
    requires all - named != {}
    ensures FirstUnnamed(all, named, h) <==> h == MinOf(all - named)
  {
    var least := MinOf(all - named);
    assert least in all - named;
    forall k | k in all && k !in named
      ensures least <= k
    {
      assert k in all - named;
    }
  }

  lemma OneEviction(candidates: set<Hash>, hash: Hash, named: set<Hash>, h: Hash)
    requires |candidates| <= MAX_CANDIDATES && |named| <= MAX_CANDIDATES && h in candidates
    ensures h !in Trim(candidates + {hash}, named) <==>
      |candidates| == MAX_CANDIDATES && hash !in candidates && FirstUnnamed(candidates + {hash}, named, h)
  {
    var all := candidates + {hash};
    if hash in candidates {
      assert all == candidates;
    } else if |candidates| == MAX_CANDIDATES {
      assert |all| == MAX_CANDIDATES + 1;
      TrimOne(all, named);
      FirstUnnamedIsMin(all, named, h);
    } else {
      assert |all| <= MAX_CANDIDATES;
    }
  }

  /** Taking a proposal drops a branch exactly when the cache is full, the proposed branch is new, and the branch is
      the smallest the session does not name; the highest value of the certificate being installed is no exception. */
  lemma AcceptDropsExactly(r: Rules, s: BftSession, p: Proposal, now: nat, h: Hash)
    requires CacheOk(s) && p.hash == s.ballot.target && (p.valid.Some? ==> p.valid.value.hash == p.hash)
      && h in s.candidates
    ensures h !in AcceptProposal(r, s, p, now).candidates <==>
      && |s.candidates| == MAX_CANDIDATES && p.hash !in s.candidates
      && FirstUnnamed(s.candidates + {p.hash}, NamedWhileAccepting(r, s, p), h)
  {
    var valued, named := RememberOptional(r, s, p.valid), NamedWhileAccepting(r, s, p);
    ProtectedAtMostFive(r, s.(valid := valued.valid));
    TrimExact(s.candidates + {p.hash}, named);
    assert Protected(r, valued) == named;
    assert p.hash in named;
    if valued.candidates != s.candidates {
      assert valued.candidates == Trim(s.candidates + {p.hash}, named);
      assert valued.candidates + {p.hash} == valued.candidates;
      TrimExact(valued.candidates, named);
    }
    assert AcceptProposal(r, s, p, now).candidates == Trim(s.candidates + {p.hash}, named);
    OneEviction(s.candidates, p.hash, named, h);
  }

  /** For a session in which `p` is acceptable: the branch named by the certificate that `p` installs is dropped if
      and only if the cache is full, the proposed branch is new, and that branch is the smallest the session does not
      name yet. */
  lemma InstalledBranchDropped(r: Rules, s: BftSession, j: ChunkJournal, p: Proposal, now: nat)
    requires RulesOk(r) && Good(r, s, j) && s.ballot.proposal.None? && r.proposalOk(s.ballot.target, s.ballot.round, p)
    requires HighestOf(r, p.certificate).Some? && HighestOf(r, p.certificate).value.hash in s.candidates
    ensures var h, t := HighestOf(r, p.certificate).value.hash, AcceptProposal(r, s, p, now);
      && h in Protected(r, t)
      && (h !in t.candidates <==>
            && |s.candidates| == MAX_CANDIDATES && p.hash !in s.candidates
            && FirstUnnamed(s.candidates + {p.hash}, NamedWhileAccepting(r, s, p), h))
  {
    assert ProposalShape(r, s.ballot.target, s.ballot.round, p);
    AcceptDropsExactly(r, s, p, now, HighestOf(r, p.certificate).value.hash);
  }

  lemma RecoverKeepsCache(r: Rules, n: Node)
    requires RulesOk(r) && NodeInv(r, n)
    ensures var out := Recover(r, n.work, n.journal);
      out.Ok? && out.value.session.valid == n.work.valid && out.value.session.candidates == n.work.candidates
  {
    RecoverIsExact(r, n.work, n.journal);
  }

  /** What a step must not drop: all that is named after it, or, for a proposal, what the session itself names. */
  function NamedAfter(r: Rules, l: Label, s: BftSession): set<Hash> {
    if l.TakeProposal? then OwnNamed(s) else Protected(r, s)
  }

  lemma UpdateKeepsCache(r: Rules, n: Node, l: Label, t: Node)
    requires CacheOk(n.work) && UpdateStep(r, n, l, t) && !l.Begin? && !l.Crash? && !l.RecoverSigning?
    ensures NotLower(n.work.valid, t.work.valid)
    ensures NamedKept(NamedAfter(r, l, t.work), n.work.candidates, t.work.candidates)
  {
    var s := n.work;
    match l
    case KeepCandidate(hash) => RememberCandidateKeeps(r, s, hash);
    case KeepValid(qc) => RememberValidKeeps(r, s, qc);
    case TakeProposal(p, now) => AcceptKeepsCache(r, s, p, now);
    case EnterCertified(cert, now) => EnterKeepsCache(r, s, cert, now);
    case _ =>
  }

  lemma SignKeepsCache(r: Rules, s: BftSession, l: Label)
    ensures AfterSigning(r, s, l).valid == s.valid && AfterSigning(r, s, l).candidates == s.candidates
  {
  }

  lemma CrashKeepsCache(r: Rules, n: Node, t: Node)
    requires RulesOk(r) && NodeInv(r, n) && UpdateStep(r, n, Crash, t)
    ensures t.work == t.mem && t.saved == n.saved && t.work.valid == n.saved.valid
      && t.work.candidates == n.saved.candidates
  {
    RestoreIsExact(r, n.saved, n.journal);
  }

  lemma CacheIsOk(r: Rules, n: Node)
    requires NodeInv(r, n)
    ensures CacheOk(n.work) && CacheOk(n.mem) && CacheOk(n.saved)
  {
  }

  /** Every step keeps the cache of all three copies bounded and with the valid value's branch in it. A step that
      changes the session keeps each branch named after it, and the valid value does not fall; taking a proposal
      protects what the session itself names. The two steps that reload a session take a stored copy's value and cache
      as they are. */
  lemma StepKeepsCache(r: Rules, n: Node, l: Label, t: Node)
    requires RulesOk(r) && NodeInv(r, n) && Step(r, n, l, t)
    ensures CacheOk(t.work) && CacheOk(t.mem) && CacheOk(t.saved)
    ensures !l.Begin? && !l.Crash? ==>
      && NotLower(n.work.valid, t.work.valid)
      && NamedKept(NamedAfter(r, l, t.work), n.work.candidates, t.work.candidates)
    ensures l.Begin? ==> t.work == n.mem
    ensures l.Crash? ==> t.work == t.mem && t.work.valid == n.saved.valid && t.work.candidates == n.saved.candidates
  {
    StepKeepsInv(r, n, l, t);
    CacheIsOk(r, n);
    CacheIsOk(r, t);
    if l.RecoverSigning? {
      RecoverKeepsCache(r, n);
    } else if l.Crash? {
      CrashKeepsCache(r, n, t);
    } else if UpdateStep(r, n, l, t) {
      if !l.Begin? {
        UpdateKeepsCache(r, n, l, t);
      }
    } else {
      SignKeepsCache(r, n.work, l);
    }
  }

  // ----- the valid value over runs -----

  /** The working copy and the saved session are never below the session map. */
  predicate ValidOrdered(n: Node) {
    NotLower(n.mem.valid, n.work.valid) && NotLower(n.mem.valid, n.saved.valid)
  }

  lemma NotLowerChains(a: Option<QuorumCert>, b: Option<QuorumCert>, c: Option<QuorumCert>)
    requires NotLower(a, b) && NotLower(b, c)
    ensures NotLower(a, c)
  {
  }

  /** What a step does to the stored copies. */
  lemma StoredCopies(r: Rules, n: Node, l: Label, t: Node)
    requires Step(r, n, l, t) && !l.Crash?
    ensures t.mem == n.mem || (t.mem == n.work && t.work == n.work)
    ensures t.saved == n.saved || (t.saved == n.work && t.work == n.work)
    ensures l.Begin? ==> t.mem == n.mem && t.saved == n.saved
    ensures l.SaveAndInsert? ==> t.mem == t.saved
    ensures t.mem != n.mem ==> l.SaveAndInsert?
  {
  }

  /** No step, reloading and crashing included, lowers the valid value of the session map or brings another copy below
      it. */
  lemma StepKeepsOrder(r: Rules, n: Node, l: Label, t: Node)
    requires RulesOk(r) && NodeInv(r, n) && Step(r, n, l, t) && ValidOrdered(n)
    ensures ValidOrdered(t) && NotLower(n.mem.valid, t.mem.valid)
  {
    StepKeepsCache(r, n, l, t);
    if l.Crash? {
      CrashKeepsCache(r, n, t);
    } else {
      StoredCopies(r, n, l, t);
      if !l.Begin? {
        NotLowerChains(n.mem.valid, n.work.valid, t.work.valid);
      }
    }
  }

  /** The copies of `n` all hold a value not below `least`. */
  predicate HoldsAtLeast(least: Option<QuorumCert>, n: Node) {
    NotLower(least, n.mem.valid) && NotLower(least, n.work.valid) && NotLower(least, n.saved.valid)
  }

  lemma OrderHolds(least: Option<QuorumCert>, n: Node)
    requires ValidOrdered(n) && NotLower(least, n.mem.valid)
    ensures HoldsAtLeast(least, n)
  {
    NotLowerChains(least, n.mem.valid, n.work.valid);
    NotLowerChains(least, n.mem.valid, n.saved.valid);
  }

  lemma StepKeepsLeast(r: Rules, least: Option<QuorumCert>, n: Node, l: Label, t: Node)
    requires RulesOk(r) && NodeInv(r, n) && Step(r, n, l, t) && ValidOrdered(n) && NotLower(least, n.mem.valid)
    ensures NodeInv(r, t) && ValidOrdered(t) && NotLower(least, t.mem.valid)
  {
    StepKeepsInv(r, n, l, t);
    StepKeepsOrder(r, n, l, t);
    NotLowerChains(least, n.mem.valid, t.mem.valid);
  }

  ghost predicate AtLeast(r: Rules, least: Option<QuorumCert>, n: Node) {
    NodeInv(r, n) && ValidOrdered(n) && NotLower(least, n.mem.valid)
  }

  lemma AtLeastAlong(r: Rules, least: Option<QuorumCert>, nodes: seq<Node>, labels: seq<Label>, i: nat, k: nat)
    requires Driver.IsHistory(r, nodes, labels) && RulesOk(r) && i <= k < |nodes| && AtLeast(r, least, nodes[i])
    ensures AtLeast(r, least, nodes[k])
  {
    var ok, step := (n: Node) => AtLeast(r, least, n), (n: Node, l: Label, t: Node) => Step(r, n, l, t);
    forall n, l, t | ok(n) && step(n, l, t)
      ensures ok(t)
    {
      StepKeepsLeast(r, least, n, l, t);
    }
    AlongRun(ok, step, nodes, labels, i, k);
  }

  /** Over any run of one validator, with crashes and abandoned calls: what the session map held at one moment is not
      above what the map, the working copy or the saved session hold at any later one. */
  lemma ValidOnlyRises(r: Rules, nodes: seq<Node>, labels: seq<Label>, i: nat, k: nat)
    requires Driver.IsHistory(r, nodes, labels) && i <= k < |nodes|
    ensures HoldsAtLeast(nodes[i].mem.valid, nodes[k])
    ensures CacheOk(nodes[k].work) && CacheOk(nodes[k].mem) && CacheOk(nodes[k].saved)
  {
    Driver.HistoryKeepsInv(r, nodes, labels, 0);
    Driver.HistoryKeepsInv(r, nodes, labels, k);
    CacheIsOk(r, nodes[k]);
    assert nodes[0] in nodes[..1];
    Driver.JustOpenedIsGood(r, nodes[0]);
    AtLeastAlong(r, None, nodes, labels, 0, i);
    AtLeastAlong(r, nodes[i].mem.valid, nodes, labels, i, k);
    OrderHolds(nodes[i].mem.valid, nodes[k]);
  }

  /** The saved copy alone can fall: a write of an abandoned call is overwritten by the next call, which starts from the
      session map. It never falls below the map. */
  lemma SavedCanFall(r: Rules, n: Node, qc: QuorumCert) returns (higher: Node, lower: Node)
    requires RulesOk(r) && NodeInv(r, n) && Settled(n) && KnownBy(r, qc, n.work.ballot.round)
    requires n.work.valid.None? || RankBelow(n.work.valid.value, qc)
    ensures var kept := n.(work := RememberValid(r, n.work, qc)); var begun := higher.(work := n.mem);
      && Step(r, n, KeepValid(qc), kept) && Step(r, kept, SaveOnly, higher) && Step(r, higher, Begin, begun)
      && Step(r, begun, SaveOnly, lower)
    ensures higher.saved.valid == Some(qc) && lower.saved == n.saved && !NotLower(higher.saved.valid, lower.saved.valid)
  {
    var kept := n.(work := RememberValid(r, n.work, qc));
    higher := kept.(saved := kept.work);
    lower := higher.(work := n.mem, saved := n.mem);
  }

  // ----- the same over runs of the network -----

  lemma NodeMoves(x: Setting, faulty: set<nat>, v: nat, w: Network.World, e: Network.Event, t: Network.World)
    requires Network.Next(x, faulty, w, e, t) && v in w.nodes
    ensures v in t.nodes
    ensures t.nodes[v] == w.nodes[v] || (e.Act? && e.v == v && Step(RulesOf(x, v), w.nodes[v], e.l, t.nodes[v]))
  {
  }

  lemma NodeAppears(x: Setting, faulty: set<nat>, v: nat, w: Network.World, e: Network.Event, t: Network.World)
    requires Network.Next(x, faulty, w, e, t) && v !in w.nodes && v in t.nodes
    ensures Settled(t.nodes[v])
  {
  }

  lemma EventKeepsOrder(x: Setting, faulty: set<nat>, v: nat, w: Network.World, e: Network.Event, t: Network.World)
    requires Network.NodesOk(x, faulty, w) && Network.Next(x, faulty, w, e, t)
    requires v in w.nodes && ValidOrdered(w.nodes[v])
    ensures v in t.nodes && ValidOrdered(t.nodes[v]) && NotLower(w.nodes[v].mem.valid, t.nodes[v].mem.valid)
  {
    NodeMoves(x, faulty, v, w, e, t);
    if t.nodes[v] != w.nodes[v] {
      assert Network.NodeOk(x, faulty, w.log, v, w.nodes[v]);
      RulesHold(x, v);
      StepKeepsOrder(RulesOf(x, v), w.nodes[v], e.l, t.nodes[v]);
    }
  }

  predicate AllOrdered(w: Network.World) {
    forall v :: v in w.nodes ==> ValidOrdered(w.nodes[v])
  }

  predicate KeepsLeast(v: nat, least: Option<QuorumCert>, w: Network.World) {
    v in w.nodes && NotLower(least, w.nodes[v].mem.valid)
  }

  lemma EventKeepsAllOrdered(x: Setting, faulty: set<nat>, w: Network.World, e: Network.Event, t: Network.World)
    requires Network.NodesOk(x, faulty, w) && Network.Next(x, faulty, w, e, t) && AllOrdered(w)
    ensures AllOrdered(t)
  {
    forall v | v in t.nodes
      ensures ValidOrdered(t.nodes[v])
    {
      if v in w.nodes {
        EventKeepsOrder(x, faulty, v, w, e, t);
      } else {
        NodeAppears(x, faulty, v, w, e, t);
      }
    }
  }

  lemma OrderedAfter(
    x: Setting, faulty: set<nat>, worlds: seq<Network.World>, events: seq<Network.Event>, n: nat)
    requires Network.IsNetworkRun(x, faulty, worlds, events) && n < |events| && AllOrdered(worlds[n])
    ensures AllOrdered(worlds[n + 1])
  {
    Network.RunEvent(x, faulty, worlds, events, n);
    EventKeepsAllOrdered(x, faulty, worlds[n], events[n], worlds[n + 1]);
  }

  lemma {:induction false} NetworkIsOrdered(
    x: Setting, faulty: set<nat>, worlds: seq<Network.World>, events: seq<Network.Event>, n: nat)
    requires Network.IsNetworkRun(x, faulty, worlds, events) && n < |worlds|
    ensures AllOrdered(worlds[n])
  {
    if n > 0 {
      NetworkIsOrdered(x, faulty, worlds, events, n - 1);
      OrderedAfter(x, faulty, worlds, events, n - 1);
    }
  }

  lemma EventKeepsLeast(
    x: Setting, faulty: set<nat>, v: nat, least: Option<QuorumCert>, w: Network.World, e: Network.Event,
      t: Network.World)
    requires Network.NodesOk(x, faulty, w) && Network.Next(x, faulty, w, e, t) && AllOrdered(w)
      && KeepsLeast(v, least, w)
    ensures KeepsLeast(v, least, t)
  {
    EventKeepsOrder(x, faulty, v, w, e, t);
    NotLowerChains(least, w.nodes[v].mem.valid, t.nodes[v].mem.valid);
  }

  lemma LeastAfter(
    x: Setting, faulty: set<nat>, worlds: seq<Network.World>, events: seq<Network.Event>, n: nat, v: nat,
    least: Option<QuorumCert>)
    requires Network.IsNetworkRun(x, faulty, worlds, events) && n < |events| && KeepsLeast(v, least, worlds[n])
    ensures KeepsLeast(v, least, worlds[n + 1])
  {
    NetworkIsOrdered(x, faulty, worlds, events, n);
    Network.RunEvent(x, faulty, worlds, events, n);
    EventKeepsLeast(x, faulty, v, least, worlds[n], events[n], worlds[n + 1]);
  }

  lemma {:induction false} LeastAlongEvents(
    x: Setting, faulty: set<nat>, worlds: seq<Network.World>, events: seq<Network.Event>, m: nat, n: nat, v: nat,
    least: Option<QuorumCert>)
    requires Network.IsNetworkRun(x, faulty, worlds, events) && m <= n < |worlds| && KeepsLeast(v, least, worlds[m])
    ensures KeepsLeast(v, least, worlds[n])
    decreases n
  {
    if m < n {
      LeastAlongEvents(x, faulty, worlds, events, m, n - 1, v, least);
      LeastAfter(x, faulty, worlds, events, n - 1, v, least);
    }
  }

  /** Over any run of the network: a validator's session never falls below a valid value its session map once held. */
  lemma ValidOnlyRisesEverywhere(
    x: Setting, faulty: set<nat>, worlds: seq<Network.World>, events: seq<Network.Event>, m: nat, n: nat, v: nat)
    requires Network.IsNetworkRun(x, faulty, worlds, events) && m <= n < |worlds| && v in worlds[m].nodes
    ensures v in worlds[n].nodes && HoldsAtLeast(worlds[m].nodes[v].mem.valid, worlds[n].nodes[v])
  {
    var least := worlds[m].nodes[v].mem.valid;
    LeastAlongEvents(x, faulty, worlds, events, m, n, v, least);
    NetworkIsOrdered(x, faulty, worlds, events, n);
    OrderHolds(least, worlds[n].nodes[v]);
  }
}

/** Moving the materialized head to another branch without leaving the finalized block. */
module Reorg {
  import opened Types

  datatype Header = Header(parent: Hash, height: nat, root: Hash)

  /** Archived headers and the chain's genesis, which has no stored header. */
  datatype Archive = Archive(headers: map<Hash, Header>, genesis: Hash, genesisRoot: Hash)

  /** Import stores a block only above a known parent, one height up. */
  predicate ArchiveOk(a: Archive) {
    && a.genesis !in a.headers
    && forall h :: h in a.headers ==>
         && a.headers[h].height > 0
         && (a.headers[h].parent == a.genesis ==> a.headers[h].height == 1)
         && (a.headers[h].parent in a.headers ==> a.headers[h].height == a.headers[a.headers[h].parent].height + 1)
  }

  function HeightOf(a: Archive, h: Hash): nat {
    if h in a.headers then a.headers[h].height else 0
  }

  function RootOf(a: Archive, h: Hash): Hash {
    if h in a.headers then a.headers[h].root else a.genesisRoot
  }

  /** The chain from genesis to `h`, or nothing when an ancestor is missing. */
  function Chain(a: Archive, h: Hash): Option<seq<Hash>>
    requires ArchiveOk(a)
    decreases HeightOf(a, h)
  {
    if h == a.genesis then Some([h])
    else if h !in a.headers then None
    else
      var below := Chain(a, a.headers[h].parent);
      if below.None? then None else Some(below.value + [h])
  }

  /** A chain's position is its height, and each block's parent is the block before it. */
  lemma {:induction false} ChainExact(a: Archive, h: Hash)
    requires ArchiveOk(a) && Chain(a, h).Some?
    ensures var c := Chain(a, h).value;
      && |c| == HeightOf(a, h) + 1 && c[0] == a.genesis && c[|c| - 1] == h
      && (forall i :: 0 <= i < |c| ==> HeightOf(a, c[i]) == i && Chain(a, c[i]) == Some(c[..i + 1]))
      && (forall i :: 0 < i < |c| ==> c[i] in a.headers && a.headers[c[i]].parent == c[i - 1])
    decreases HeightOf(a, h)
  {
    if h == a.genesis {
      assert [h][..1] == [h];
    } else {
      var parent := a.headers[h].parent;
      ChainExact(a, parent);
      var below, c := Chain(a, parent).value, Chain(a, h).value;
      forall i | 0 <= i < |c|
        ensures HeightOf(a, c[i]) == i && Chain(a, c[i]) == Some(c[..i + 1])
      {
        if i < |below| {
          assert c[i] == below[i] && c[..i + 1] == below[..i + 1];
        } else {
          assert c[..i + 1] == c;
        }
      }
    }
  }

  /** The links of a chain alone. */
  lemma ChainLinks(a: Archive, h: Hash)
    requires ArchiveOk(a) && Chain(a, h).Some?
    ensures var c := Chain(a, h).value;
      && |c| == HeightOf(a, h) + 1 && c[0] == a.genesis && c[|c| - 1] == h
      && (forall i :: 0 < i < |c| ==> c[i] in a.headers && a.headers[c[i]].parent == c[i - 1])
  {
    ChainExact(a, h);
  }

  lemma ChainHeights(a: Archive, h: Hash)
    requires ArchiveOk(a) && Chain(a, h).Some?
    ensures forall i :: 0 <= i < |Chain(a, h).value| ==> HeightOf(a, Chain(a, h).value[i]) == i
  {
    ChainExact(a, h);
  }

  // ----- the lowest common ancestor -----

  function Members(s: seq<Hash>): set<Hash> {
    set i | 0 <= i < |s| :: s[i]
  }

  lemma MembersAppend(s: seq<Hash>, h: Hash)
    ensures Members([h] + s) == Members(s) + {h} && Members(s + [h]) == Members(s) + {h}
  {
    var left, right := [h] + s, s + [h];
    forall x | x in Members(s) + {h}
      ensures x in Members(left) && x in Members(right)
    {
      if x == h {
        assert left[0] == x && right[|s|] == x;
      } else {
        var i :| 0 <= i < |s| && s[i] == x;
        assert left[i + 1] == x && right[i] == x;
      }
    }
  }

  /** `branch` leads from `lca`, parent to child, to `head`, and `lca` is on the chain of `current`. */
  predicate Forks(a: Archive, current: Hash, head: Hash, lca: Hash, branch: seq<Hash>)
    requires ArchiveOk(a)
  {
    && Chain(a, current).Some? && Chain(a, head).Some? && Chain(a, lca).Some?
    && Chain(a, lca).value <= Chain(a, current).value
    && Chain(a, head).value == Chain(a, lca).value + branch
    && (forall i :: 0 <= i < |branch| ==> branch[i] !in Chain(a, current).value)
  }

  /** All ancestors of `head`, itself included. */
  method Ancestors(a: Archive, head: Hash) returns (found: Option<set<Hash>>)
    requires ArchiveOk(a)
    ensures found.Some? <==> Chain(a, head).Some?
    ensures found.Some? ==> found.value == Members(Chain(a, head).value)
  {
    var seen := {head};
    var cursor := head;
    ghost var walked: seq<Hash> := [];
    MembersAppend(walked, head);
    while cursor != a.genesis
      invariant Chain(a, head).Some? <==> Chain(a, cursor).Some?
      invariant Chain(a, head).Some? ==> Chain(a, head).value == Chain(a, cursor).value + walked
      invariant seen == Members([cursor] + walked)
      decreases HeightOf(a, cursor)
    {
      if cursor !in a.headers {
        return None;
      }
      var parent := a.headers[cursor].parent;
      if Chain(a, head).Some? {
        assert Chain(a, cursor).value == Chain(a, parent).value + [cursor];
        assert Chain(a, parent).value + [cursor] + walked == Chain(a, parent).value + ([cursor] + walked);
      }
      walked := [cursor] + walked;
      MembersAppend(walked, parent);
      if parent !in a.headers && parent != a.genesis {
        return None;
      }
      cursor := parent;
      seen := seen + {cursor};
    }
    return Some(seen);
  }

  /** `find_lca_and_path_to` */
  method FindLcaAndPathTo(a: Archive, current: Hash, head: Hash) returns (outcome: Option<(Hash, seq<Hash>)>)
    requires ArchiveOk(a)
    ensures outcome.Some? ==> Forks(a, current, head, outcome.value.0, outcome.value.1)
    ensures outcome.Some? <==> Chain(a, current).Some? && Chain(a, head).Some?
  {
    var ancestors := Ancestors(a, current);
    if ancestors.None? {
      return None;
    }
    ChainExact(a, current);
    var branch: seq<Hash> := [];
    var cursor := head;
    while cursor !in ancestors.value
      invariant Chain(a, head).Some? <==> Chain(a, cursor).Some?
      invariant Chain(a, head).Some? ==> Chain(a, head).value == Chain(a, cursor).value + branch
      invariant forall i :: 0 <= i < |branch| ==> branch[i] !in Chain(a, current).value
      decreases HeightOf(a, cursor)
    {
      assert Chain(a, current).value[0] == a.genesis;
      if cursor !in a.headers {
        return None;
      }
      var parent := a.headers[cursor].parent;
      if Chain(a, head).Some? {
        assert Chain(a, parent).value + [cursor] + branch == Chain(a, parent).value + ([cursor] + branch);
      }
      branch := [cursor] + branch;
      if parent !in a.headers && parent != a.genesis {
        return None;
      }
      cursor := parent;
    }
    var i :| 0 <= i < |Chain(a, current).value| && Chain(a, current).value[i] == cursor;
    return Some((cursor, branch));
  }

  // ----- replay -----

  /** Executing a block on a state root; nothing when it traps or a commitment other than the root disagrees. */
  type Executor = (Hash, Hash) -> Option<Hash>

  datatype Replayed = Replayed(height: nat, hash: Hash, root: Hash)

  /** Each block of the branch executes on its parent's state to the root its header commits to. */
  predicate Executes(a: Archive, run: Executor, bodies: set<Hash>, lca: Hash, branch: seq<Hash>) {
    forall i :: 0 <= i < |branch| ==> ExecutesOn(a, run, bodies, LastOf(lca, branch[..i]), branch[i])
  }

  predicate ExecutesOn(a: Archive, run: Executor, bodies: set<Hash>, parent: Hash, block: Hash) {
    block in a.headers && block in bodies && run(RootOf(a, parent), block) == Some(RootOf(a, block))
  }

  /** End height of the finalized chunk, saturated when it does not fit in 64 bits. */
  function FinalizedHeight(size: nat, chunk: nat): nat {
    if (chunk + 1) * size > MAX_U64 || chunk * size + 1 > MAX_U64 then MAX_U64 else (chunk + 1) * size
  }

  function LastOf(lca: Hash, branch: seq<Hash>): Hash {
    if branch == [] then lca else branch[|branch| - 1]
  }

  lemma ForkEndsAtHead(a: Archive, current: Hash, head: Hash, lca: Hash, branch: seq<Hash>)
    requires ArchiveOk(a) && Forks(a, current, head, lca, branch)
    ensures LastOf(lca, branch) == head
  {
    ChainExact(a, lca);
    ChainExact(a, head);
  }

  lemma ExecutesSnoc(a: Archive, run: Executor, bodies: set<Hash>, lca: Hash, branch: seq<Hash>, block: Hash)
    requires Executes(a, run, bodies, lca, branch)
    ensures Executes(a, run, bodies, lca, branch + [block]) <==> ExecutesOn(a, run, bodies, LastOf(lca, branch), block)
  {
    var more := branch + [block];
    forall i | 0 <= i <= |branch|
      ensures more[..i] == branch[..i]
    {
    }
    assert branch[..|branch|] == branch && more[|branch|] == block;
    forall i | 0 <= i < |branch|
      ensures ExecutesOn(a, run, bodies, LastOf(lca, more[..i]), more[i])
    {
      assert ExecutesOn(a, run, bodies, LastOf(lca, branch[..i]), branch[i]);
    }
  }

  /** Execute a branch block by block; it stops at the first missing body or disagreeing root. */
  method ReplayBranch(a: Archive, run: Executor, bodies: set<Hash>, lca: Hash, branch: seq<Hash>)
      returns (outcome: Option<Replayed>)
    requires lca in a.headers || lca == a.genesis
    ensures outcome.Some? <==> Executes(a, run, bodies, lca, branch)
    ensures outcome.Some? ==>
      outcome.value == Replayed(HeightOf(a, LastOf(lca, branch)), LastOf(lca, branch), RootOf(a, LastOf(lca, branch)))
  {
    var last := Replayed(HeightOf(a, lca), lca, RootOf(a, lca));
    for i := 0 to |branch|
      invariant var hash := LastOf(lca, branch[..i]); last == Replayed(HeightOf(a, hash), hash, RootOf(a, hash))
      invariant Executes(a, run, bodies, lca, branch[..i])
    {
      var block := branch[i];
      assert branch[..i + 1] == branch[..i] + [block];
      ExecutesSnoc(a, run, bodies, lca, branch[..i], block);
      if block !in a.headers || block !in bodies || run(last.root, block) != Some(a.headers[block].root) {
        assert !ExecutesOn(a, run, bodies, LastOf(lca, branch[..i]), branch[i]);
        return None;
      }
      last := Replayed(a.headers[block].height, block, a.headers[block].root);
    }
    assert branch[..|branch|] == branch;
    return Some(last);
  }

  /** A prefix that reaches into the branch is not shared with the current chain. */
  lemma BranchIsNotShared(head: seq<Hash>, current: seq<Hash>, base: seq<Hash>, branch: seq<Hash>, prefix: seq<Hash>)
    requires head == base + branch && prefix <= head && |prefix| > |base|
    requires forall i :: 0 <= i < |branch| ==> branch[i] !in current
    ensures !(prefix <= current)
  {
    assert prefix[|base|] == branch[0];
  }

  /** There is one fork of two heads: the lowest common ancestor and the path from it. */
  lemma ForkIsUnique(a: Archive, current: Hash, head: Hash, lca: Hash, branch: seq<Hash>, other: Hash, path: seq<Hash>)
    requires ArchiveOk(a) && Forks(a, current, head, lca, branch) && Forks(a, current, head, other, path)
    ensures lca == other && branch == path
  {
    ChainExact(a, lca);
    ChainExact(a, other);
    var h, c, d := Chain(a, head).value, Chain(a, lca).value, Chain(a, other).value;
    if |c| < |d| {
      BranchIsNotShared(h, Chain(a, current).value, c, branch, d);
    } else if |d| < |c| {
      BranchIsNotShared(h, Chain(a, current).value, d, path, c);
    } else {
      assert c == h[..|c|] == d;
      assert branch == h[|c|..] == path;
    }
  }

  /** The branch to the new head leaves the current chain at or above the finalized height, and all of it executes. */
  predicate ReplayableFrom(
    a: Archive, run: Executor, bodies: set<Hash>, current: Hash, head: Hash, size: nat, finalized: Option<nat>,
    lca: Hash, branch: seq<Hash>)
    requires ArchiveOk(a)
  {
    && Forks(a, current, head, lca, branch) && Executes(a, run, bodies, lca, branch)
    && (finalized.Some? ==> HeightOf(a, lca) >= FinalizedHeight(size, finalized.value))
  }

  ghost predicate Replayable(
    a: Archive, run: Executor, bodies: set<Hash>, current: Hash, head: Hash, size: nat, finalized: Option<nat>)
    requires ArchiveOk(a)
  {
    exists lca, branch :: ReplayableFrom(a, run, bodies, current, head, size, finalized, lca, branch)
  }

  /** `replay_to_head`: the finalized floor is enforced before anything is replayed. */
  method ReplayToHead(
    a: Archive, run: Executor, bodies: set<Hash>, current: Hash, head: Hash, size: nat, finalized: Option<nat>)
    returns (outcome: Option<Replayed>)
    requires ArchiveOk(a)
    ensures outcome.Some? <==> Replayable(a, run, bodies, current, head, size, finalized)
    ensures outcome.Some? ==> outcome.value == Replayed(HeightOf(a, head), head, RootOf(a, head))
  {
    var found := FindLcaAndPathTo(a, current, head);
    if found.None? {
      return None;
    }
    var lca, branch := found.value.0, found.value.1;
    forall l, b | ReplayableFrom(a, run, bodies, current, head, size, finalized, l, b)
      ensures l == lca && b == branch
    {
      ForkIsUnique(a, current, head, l, b, lca, branch);
    }
    if finalized.Some? && HeightOf(a, lca) < FinalizedHeight(size, finalized.value) {
      return None;
    }
    ForkEndsAtHead(a, current, head, lca, branch);
    outcome := ReplayBranch(a, run, bodies, lca, branch);
    assert outcome.Some? ==> ReplayableFrom(a, run, bodies, current, head, size, finalized, lca, branch);
  }

  // ----- the engine -----

  /** Genesis and the heights of the canonical branch from the retained anchor on, and nothing else. */
  ghost predicate IndexMatches(a: Archive, head: Hash, index: map<nat, Hash>, anchor: nat)
    requires ArchiveOk(a)
  {
    && Chain(a, head).Some?
    && (forall h: nat :: h in index <==> h < |Chain(a, head).value| && (h == 0 || h >= anchor))
    && (forall h :: h in index ==> index[h] == Chain(a, head).value[h])
  }

  /** The headers that remain when those below the anchor are deleted. */
  function Kept(a: Archive, anchor: nat): Archive {
    a.(headers := map h | h in a.headers && a.headers[h].height >= anchor :: a.headers[h])
  }

  lemma KeptIsOk(a: Archive, anchor: nat)
    requires ArchiveOk(a)
    ensures ArchiveOk(Kept(a, anchor))
    ensures anchor <= 1 ==> Kept(a, anchor) == a
  {
    if anchor <= 1 {
      assert Kept(a, anchor).headers == a.headers;
    }
  }

  /** Once a header of every chain is gone no block but genesis has a complete chain. */
  lemma {:induction false} KeptBreaksChains(a: Archive, anchor: nat, h: Hash)
    requires ArchiveOk(a) && ArchiveOk(Kept(a, anchor)) && anchor > 1 && h != a.genesis
    ensures Chain(Kept(a, anchor), h).None?
    decreases HeightOf(Kept(a, anchor), h)
  {
    var k := Kept(a, anchor);
    if h in k.headers && k.headers[h].parent != a.genesis {
      KeptBreaksChains(a, anchor, k.headers[h].parent);
    }
  }

  /** With a header of the current chain missing no other head can be reached: both walks go down to genesis. */
  lemma MissingHeaderStopsReplay(
    a: Archive, run: Executor, bodies: set<Hash>, current: Hash, head: Hash, size: nat, finalized: Option<nat>)
    requires ArchiveOk(a) && Chain(a, current).None?
    ensures !Replayable(a, run, bodies, current, head, size, finalized)
  {
  }

  /** Both chains reach `height` and have the same block there. */
  predicate AgreeAt(a: Archive, current: Hash, head: Hash, height: nat)
    requires ArchiveOk(a)
  {
    && Chain(a, current).Some? && Chain(a, head).Some?
    && height < |Chain(a, current).value| && height < |Chain(a, head).value|
    && Chain(a, current).value[height] == Chain(a, head).value[height]
  }

  /** The finalized block is the ancestor of `head` at the end of the finalized chunk. */
  predicate HoldsFinal(a: Archive, head: Hash, size: nat, finalized: Option<nat>, block: Hash)
    requires ArchiveOk(a)
  {
    finalized.Some? ==>
      && Chain(a, head).Some?
      && FinalizedHeight(size, finalized.value) < |Chain(a, head).value|
      && Chain(a, head).value[FinalizedHeight(size, finalized.value)] == block
  }

  /** A branch that forks at or above the finalized height still contains the finalized block. */
  lemma ForkKeepsFinal(a: Archive, current: Hash, head: Hash, lca: Hash, branch: seq<Hash>, size: nat,
      finalized: Option<nat>, block: Hash)
    requires ArchiveOk(a) && Forks(a, current, head, lca, branch) && HoldsFinal(a, current, size, finalized, block)
    requires finalized.Some? ==> HeightOf(a, lca) >= FinalizedHeight(size, finalized.value)
    ensures HoldsFinal(a, head, size, finalized, block)
  {
    ChainExact(a, lca);
  }

  lemma ChainStarts(a: Archive, h: Hash)
    requires ArchiveOk(a) && Chain(a, h).Some?
    ensures Chain(a, h).value[0] == a.genesis
  {
    ChainExact(a, h);
  }

  /** Above the anchor the chain of a head is stored with its links. */
  lemma TargetStored(all: Archive, head: Hash, anchor: nat)
    requires ArchiveOk(all) && Chain(all, head).Some?
    ensures var c := Chain(all, head).value;
      && |c| == HeightOf(all, head) + 1 && c[0] == all.genesis && c[|c| - 1] == head
      && (forall i :: anchor < i < |c| ==>
            c[i] in Kept(all, anchor).headers && Kept(all, anchor).headers[c[i]].parent == c[i - 1])
  {
    ChainLinks(all, head);
    ChainHeights(all, head);
  }

  /** `commit_tip`: rewrite the height index from the new head down to the first agreement, and drop the old tail. It
      fails if and only if the new head is below the retained anchor or its chain leaves the old one below it; no header
      at or below the anchor is read. `all` are the stored headers together with the deleted ones. */
  method CommitTip(
    a: Archive, ghost all: Archive, ghost current: Hash, head: Hash, height: nat, index: map<nat, Hash>, anchor: nat)
    returns (outcome: Result<map<nat, Hash>>)
    requires ArchiveOk(all) && a == Kept(all, anchor) && IndexMatches(all, current, index, anchor)
    requires Chain(all, head).Some? && height == HeightOf(all, head) && anchor < |Chain(all, current).value|
    ensures outcome.Ok? <==> AgreeAt(all, current, head, anchor)
    ensures outcome.Ok? ==> IndexMatches(all, head, outcome.value, anchor)
  {
    ghost var target := Chain(all, head).value;
    TargetStored(all, head, anchor);
    ChainStarts(all, current);
    if height < anchor {
      return Err(Corrupt);
    }
    var updated := index;
    var cursor, expected := head, height;
    while expected > 0 && !(expected in index && index[expected] == cursor)
      invariant anchor <= expected < |target| && cursor == target[expected]
      invariant forall h: nat :: expected < h < |target| ==> h in updated && updated[h] == target[h]
      invariant forall h: nat :: h <= expected ==> (h in updated <==> h in index)
      invariant forall h: nat :: h <= expected && h in index ==> updated[h] == index[h]
      decreases expected
    {
      if expected <= anchor {
        return Err(Corrupt);
      }
      updated := updated[expected := cursor];
      cursor := a.headers[cursor].parent;
      expected := expected - 1;
    }
    SharedPrefix(all, current, head, expected);
    return Ok(map h: nat | h in updated && h <= height :: updated[h]);
  }

  // ----- importing blocks -----

  /** The header extends a known block by one height and is not stored yet. */
  predicate Extends(a: Archive, h: Hash, header: Header) {
    && h != a.genesis && h !in a.headers
    && (header.parent == a.genesis || header.parent in a.headers) && header.height == HeightOf(a, header.parent) + 1
  }

  function Added(a: Archive, h: Hash, header: Header): Archive {
    a.(headers := a.headers[h := header])
  }

  /** Every stored block has a known parent. */
  predicate Closed(a: Archive) {
    forall h :: h in a.headers ==> a.headers[h].parent == a.genesis || a.headers[h].parent in a.headers
  }

  lemma AddedIsOk(a: Archive, h: Hash, header: Header)
    requires ArchiveOk(a) && Closed(a) && Extends(a, h, header)
    ensures ArchiveOk(Added(a, h, header)) && Closed(Added(a, h, header))
  {
  }

  /** Storing one more header changes no chain that was already complete. */
  lemma {:induction false} AddedKeepsChain(a: Archive, h: Hash, header: Header, x: Hash)
    requires ArchiveOk(a) && Closed(a) && Extends(a, h, header) && Chain(a, x).Some?
    requires ArchiveOk(Added(a, h, header))
    ensures Chain(Added(a, h, header), x) == Chain(a, x) && HeightOf(Added(a, h, header), x) == HeightOf(a, x)
    ensures RootOf(Added(a, h, header), x) == RootOf(a, x)
    decreases HeightOf(a, x)
  {
    if x != a.genesis {
      AddedKeepsChain(a, h, header, a.headers[x].parent);
    }
  }

  /** The index and the finalized block of a head stay what they are when a block is imported. */
  lemma ImportKeepsHead(
    a: Archive, h: Hash, header: Header, head: Hash, index: map<nat, Hash>, anchor: nat, size: nat,
    finalized: Option<nat>, block: Hash)
    requires ArchiveOk(a) && Closed(a) && Extends(a, h, header) && ArchiveOk(Added(a, h, header))
    requires IndexMatches(a, head, index, anchor) && HoldsFinal(a, head, size, finalized, block)
    ensures IndexMatches(Added(a, h, header), head, index, anchor)
    ensures HoldsFinal(Added(a, h, header), head, size, finalized, block)
  {
    AddedKeepsChain(a, h, header, head);
  }

  /** The ancestor of `h` at `height`, as far as the headers reach. */
  function AncestorAt(a: Archive, h: Hash, height: nat): Hash
    requires ArchiveOk(a)
    ensures HeightOf(a, AncestorAt(a, h, height)) <= HeightOf(a, h)
    decreases HeightOf(a, h)
  {
    if h in a.headers && a.headers[h].height > height then AncestorAt(a, a.headers[h].parent, height) else h
  }

  /** A block above a complete chain extends it by itself. */
  lemma ChildChain(a: Archive, h: Hash, header: Header)
    requires ArchiveOk(a) && Closed(a) && Extends(a, h, header) && ArchiveOk(Added(a, h, header))
    requires Chain(a, header.parent).Some?
    ensures Chain(Added(a, h, header), h) == Some(Chain(a, header.parent).value + [h])
  {
    AddedKeepsChain(a, h, header, header.parent);
  }

  // ----- the state of the engine -----

  /** The stored headers, the head with its height and root, the height index, the finalized chunk and block, the height
      below which headers are deleted, and every header ever imported. */
  datatype ChainState = ChainState(
    archive: Archive, head: Hash, height: nat, root: Hash, index: map<nat, Hash>,
    finalized: Option<nat>, block: Hash, anchor: nat, all: Archive)

  function FloorOf(size: nat, finalized: Option<nat>): nat {
    if finalized.Some? then FinalizedHeight(size, finalized.value) else 0
  }

  /** The fork choice knows exactly the stored blocks that descend from the finalized one. */
  predicate KnownTo(a: Archive, h: Hash, floor: nat, block: Hash)
    requires ArchiveOk(a)
  {
    AncestorAt(a, h, floor) == block
  }

  /** A block is named by the hash of its header: `named` gives the header of a hash. */
  ghost predicate ArchivesOk(named: Hash -> Header, s: ChainState) {
    && ArchiveOk(s.all) && Closed(s.all) && (forall h :: h in s.all.headers ==> s.all.headers[h] == named(h))
    && s.archive == Kept(s.all, s.anchor) && ArchiveOk(s.archive)
  }

  ghost predicate HeadOk(size: nat, s: ChainState)
    requires ArchiveOk(s.all)
  {
    && IndexMatches(s.all, s.head, s.index, s.anchor) && s.anchor <= FloorOf(size, s.finalized)
    && s.height == HeightOf(s.all, s.head) && s.root == RootOf(s.all, s.head)
    && HoldsFinal(s.all, s.head, size, s.finalized, s.block) && (s.finalized.None? ==> s.block == s.all.genesis)
  }

  ghost predicate ChainOk(named: Hash -> Header, size: nat, s: ChainState) {
    ArchivesOk(named, s) && HeadOk(size, s)
  }

  /** A block whose parent is known to the fork choice is above the finalized height, so it was never deleted. */
  lemma KnownIsAboveFloor(named: Hash -> Header, size: nat, s: ChainState, parent: Hash)
    requires ChainOk(named, size, s) && KnownTo(s.archive, parent, FloorOf(size, s.finalized), s.block)
    ensures HeightOf(s.archive, parent) >= FloorOf(size, s.finalized)
  {
    if s.finalized.Some? {
      ChainLinks(s.all, s.head);
      ChainHeights(s.all, s.head);
    }
  }

  function Stored(s: ChainState, h: Hash, header: Header): ChainState {
    s.(archive := Added(s.archive, h, header), all := Added(s.all, h, header))
  }

  lemma StoreKeepsArchives(named: Hash -> Header, s: ChainState, h: Hash)
    requires ArchivesOk(named, s) && Extends(s.archive, h, named(h)) && named(h).height > s.anchor
    ensures Extends(s.all, h, named(h)) && ArchivesOk(named, Stored(s, h, named(h)))
  {
    KeptOfAdded(s.all, h, named(h), s.anchor);
    AddedIsOk(s.all, h, named(h));
    KeptIsOk(Added(s.all, h, named(h)), s.anchor);
  }

  lemma StoreKeepsHead(size: nat, s: ChainState, h: Hash, header: Header)
    requires ArchiveOk(s.all) && Closed(s.all) && Extends(s.all, h, header) && ArchiveOk(Added(s.all, h, header))
    requires HeadOk(size, s)
    ensures HeadOk(size, Stored(s, h, header))
  {
    AddedKeepsChain(s.all, h, header, s.head);
    ImportKeepsHead(s.all, h, header, s.head, s.index, s.anchor, size, s.finalized, s.block);
  }

  /** Storing a block above a known parent keeps everything as it is. */
  lemma StoreKeeps(named: Hash -> Header, size: nat, s: ChainState, h: Hash)
    requires ChainOk(named, size, s) && Extends(s.archive, h, named(h))
    requires KnownTo(s.archive, named(h).parent, FloorOf(size, s.finalized), s.block)
    ensures Extends(s.all, h, named(h)) && ChainOk(named, size, Stored(s, h, named(h)))
  {
    KnownIsAboveFloor(named, size, s, named(h).parent);
    StoreKeepsArchives(named, s, h);
    StoreKeepsHead(size, s, h, named(h));
  }

  /** A child of the head still contains the finalized block. */
  lemma ChildHoldsFinal(size: nat, s: ChainState, h: Hash, header: Header)
    requires ArchiveOk(s.all) && Closed(s.all) && Extends(s.all, h, header) && ArchiveOk(Added(s.all, h, header))
    requires HeadOk(size, s) && header.parent == s.head
    ensures Chain(Added(s.all, h, header), h).Some?
    ensures HoldsFinal(Added(s.all, h, header), h, size, s.finalized, s.block)
  {
    ChildChain(s.all, h, header);
  }

  function PrunedTo(s: ChainState, height: nat): ChainState {
    s.(anchor := height, archive := Kept(s.archive, height),
       index := map h | h in s.index && (h == 0 || h >= height) :: s.index[h])
  }

  /** Deleting the headers and index entries below a height within the finalized chunks keeps the rest. */
  lemma PruneKeeps(named: Hash -> Header, size: nat, s: ChainState, height: nat)
    requires ChainOk(named, size, s) && s.anchor < height <= FloorOf(size, s.finalized)
    ensures ChainOk(named, size, PrunedTo(s, height))
  {
    KeptAgain(s.all, s.anchor, height);
    KeptIsOk(s.all, height);
  }

  class ChainEngine {
    const named: Hash -> Header
    const size: nat
    var archive: Archive
    var bodies: set<Hash>
    var headHash: Hash
    var headHeight: nat
    var headRoot: Hash
    var index: map<nat, Hash>
    var finalized: Option<nat>
    var finalBlock: Hash
    var anchor: nat
    ghost var all: Archive

    ghost function State(): ChainState
      reads this
    {
      ChainState(archive, headHash, headHeight, headRoot, index, finalized, finalBlock, anchor, all)
    }

    ghost predicate Valid()
      reads this
    {
      ChainOk(named, size, State())
    }

    /** The genesis chain. */
    constructor (genesis: Hash, genesisRoot: Hash, chunkSize: nat, headers: Hash -> Header)
      ensures Valid() && all == Archive(map[], genesis, genesisRoot) && headHash == genesis && finalized.None?
    {
      named, size := headers, chunkSize;
      archive, bodies, finalized, anchor := Archive(map[], genesis, genesisRoot), {}, None, 0;
      headHash, headHeight, headRoot, index := genesis, 0, genesisRoot, map[0 := genesis];
      finalBlock := genesis;
      all := Archive(map[], genesis, genesisRoot);
      new;
      KeptIsOk(all, 0);
    }

    /** `import_block`: a valid block above a parent that is stored and known to the fork choice is stored. One that
        extends the head becomes the head; any other leaves head, index and finalized block as they are. */
    method ImportBlock(h: Hash, valid: bool) returns (stored: bool)
      requires Valid()
      modifies `archive, `bodies, `all, `headHash, `headHeight, `headRoot, `index
      ensures Valid()
      ensures stored <==>
        && valid && Extends(old(archive), h, named(h))
        && KnownTo(old(archive), named(h).parent, FloorOf(size, finalized), finalBlock)
      ensures all == if stored then Added(old(all), h, named(h)) else old(all)
      ensures bodies == if stored then old(bodies) + {h} else old(bodies)
      ensures headHash == if stored && named(h).parent == old(headHash) then h else old(headHash)
    {
      var header := named(h);
      if !valid || !Extends(archive, h, header)
         || !KnownTo(archive, header.parent, FloorOf(size, finalized), finalBlock)
      {
        return false;
      }
      StoreBlock(h);
      if header.parent == headHash {
        CommitHead(Replayed(header.height, h, header.root));
      }
      return true;
    }

    method StoreBlock(h: Hash)
      requires Valid() && Extends(archive, h, named(h))
      requires KnownTo(archive, named(h).parent, FloorOf(size, finalized), finalBlock)
      modifies `archive, `bodies, `all
      ensures Valid() && all == Added(old(all), h, named(h)) && bodies == old(bodies) + {h}
      ensures named(h).parent == headHash ==>
        Chain(all, h).Some? && HoldsFinal(all, h, size, finalized, finalBlock)
    {
      StoreKeeps(named, size, State(), h);
      if named(h).parent == headHash {
        ChildHoldsFinal(size, State(), h, named(h));
      }
      all := Added(all, h, named(h));
      archive := Added(archive, h, named(h));
      bodies := bodies + {h};
    }

    /** Pruning deletes the headers and the index entries below the anchor, which stays within the finalized chunks. */
    method RaiseAnchor(height: nat)
      requires Valid()
      modifies `anchor, `archive, `index
      ensures Valid()
      ensures anchor == if old(anchor) < height <= FloorOf(size, finalized) then height else old(anchor)
    {
      if anchor < height <= FloorOf(size, finalized) {
        PruneKeeps(named, size, State(), height);
        anchor := height;
        archive := Kept(archive, height);
        index := map h | h in index && (h == 0 || h >= height) :: index[h];
      }
    }

    /** `commit_materialized_head`: the height index, the head and its state root move together. A head that keeps the
        finalized block never meets the refusals at the retained anchor. */
    method CommitHead(next: Replayed)
      requires Valid() && Chain(all, next.hash).Some?
      requires next == Replayed(HeightOf(all, next.hash), next.hash, RootOf(all, next.hash))
      requires HoldsFinal(all, next.hash, size, finalized, finalBlock)
      modifies `headHash, `headHeight, `headRoot, `index
      ensures Valid() && headHash == next.hash
    {
      FinalCoversAnchor(all, headHash, next.hash, size, finalized, finalBlock, anchor);
      var committed := CommitTip(archive, all, headHash, next.hash, next.height, index, anchor);
      index := committed.value;
      headHash, headHeight, headRoot := next.hash, next.height, next.root;
    }

    /** Finality advances by one chunk of the canonical branch whose proof was authenticated. */
    method FinalizeNext(authentic: bool) returns (done: bool)
      requires Valid()
      modifies `finalized, `finalBlock
      ensures Valid()
      ensures done ==> authentic && finalized == Some(if old(finalized).Some? then old(finalized).value + 1 else 0)
      ensures var next := if old(finalized).Some? then old(finalized).value + 1 else 0;
        done <==> authentic && FinalizedHeight(size, next) <= headHeight
      ensures done ==> finalBlock == index[FinalizedHeight(size, finalized.value)]
      ensures !done ==> finalized == old(finalized) && finalBlock == old(finalBlock)
    {
      if !authentic {
        return false;
      }
      var next := if finalized.Some? then finalized.value + 1 else 0;
      var height := FinalizedHeight(size, next);
      if height > headHeight {
        return false;
      }
      FinalityRises(size, finalized, next);
      FinalIsIndexed(size, State(), next);
      finalized := Some(next);
      finalBlock := index[height];
      return true;
    }

    /** `materialise_to_fork_choice_head`: the head moves exactly when the branch forks at or above the finalized height
        and executes, and the finalized block is then still an ancestor of the head; a refused one changes nothing. Once
        headers are deleted it never moves, because the walk from the current head needs all of them. */
    method MaterialiseTo(head: Hash, run: Executor) returns (moved: bool)
      requires Valid()
      modifies `headHash, `headHeight, `headRoot, `index
      ensures Valid()
      ensures moved <==>
        head != old(headHash) && Replayable(archive, run, bodies, old(headHash), head, size, finalized)
      ensures anchor > 1 ==> !moved
      ensures moved ==> headHash == head && headRoot == RootOf(all, head)
      ensures !moved ==> headHash == old(headHash) && index == old(index)
    {
      if head == headHash {
        return false;
      }
      var replayed := ReplayToHead(archive, run, bodies, headHash, head, size, finalized);
      if replayed.None? {
        PrunedNeverReplays(named, size, State(), run, bodies, head);
        return false;
      }
      ReplayedKeepsFinal(named, size, State(), run, bodies, head);
      CommitHead(replayed.value);
      return true;
    }
  }

  lemma FinalIsIndexed(size: nat, s: ChainState, next: nat)
    requires ArchiveOk(s.all) && HeadOk(size, s) && FinalizedHeight(size, next) <= s.height
    requires FloorOf(size, s.finalized) <= FinalizedHeight(size, next)
    ensures FinalizedHeight(size, next) in s.index
    ensures HoldsFinal(s.all, s.head, size, Some(next), s.index[FinalizedHeight(size, next)])
  {
    ChainLinks(s.all, s.head);
  }

  /** Deleted headers break the chain of the current head, so no branch can be replayed. */
  lemma PrunedNeverReplays(
    named: Hash -> Header, size: nat, s: ChainState, run: Executor, bodies: set<Hash>, head: Hash)
    requires ChainOk(named, size, s)
    ensures s.anchor > 1 ==>
      Chain(s.archive, s.head).None? && !Replayable(s.archive, run, bodies, s.head, head, size, s.finalized)
  {
    if s.anchor > 1 {
      ChainLinks(s.all, s.head);
      KeptBreaksChains(s.all, s.anchor, s.head);
      MissingHeaderStopsReplay(s.archive, run, bodies, s.head, head, size, s.finalized);
    }
  }

  lemma ReplayedKeepsFinal(
    named: Hash -> Header, size: nat, s: ChainState, run: Executor, bodies: set<Hash>, head: Hash)
    requires ChainOk(named, size, s)
    requires Replayable(s.archive, run, bodies, s.head, head, size, s.finalized)
    ensures s.anchor <= 1 && s.archive == s.all
    ensures Chain(s.all, head).Some? && HoldsFinal(s.all, head, size, s.finalized, s.block)
  {
    var lca, branch :| ReplayableFrom(s.archive, run, bodies, s.head, head, size, s.finalized, lca, branch);
    PrunedNeverReplays(named, size, s, run, bodies, head);
    KeptIsOk(s.all, s.anchor);
    ForkKeepsFinal(s.all, s.head, head, lca, branch, size, s.finalized, s.block);
  }

  lemma KeptOfAdded(all: Archive, h: Hash, header: Header, anchor: nat)
    requires header.height >= anchor
    ensures Kept(Added(all, h, header), anchor) == Added(Kept(all, anchor), h, header)
  {
    assert Kept(Added(all, h, header), anchor).headers == Added(Kept(all, anchor), h, header).headers;
  }

  lemma KeptAgain(all: Archive, low: nat, high: nat)
    requires low <= high
    ensures Kept(Kept(all, low), high) == Kept(all, high)
  {
    assert Kept(Kept(all, low), high).headers == Kept(all, high).headers;
  }

  lemma FinalityRises(size: nat, finalized: Option<nat>, next: nat)
    requires finalized.Some? ==> next == finalized.value + 1
    ensures finalized.Some? ==> FinalizedHeight(size, finalized.value) <= FinalizedHeight(size, next)
  {
    if finalized.Some? {
      assert (next + 1) * size == (finalized.value + 1) * size + size;
      assert next * size == finalized.value * size + size;
    }
  }

  /** Two heads that both hold the finalized block agree at every height up to it. */
  lemma FinalCoversAnchor(
    a: Archive, current: Hash, head: Hash, size: nat, finalized: Option<nat>, block: Hash, anchor: nat)
    requires ArchiveOk(a) && Chain(a, current).Some? && Chain(a, head).Some?
    requires HoldsFinal(a, current, size, finalized, block) && HoldsFinal(a, head, size, finalized, block)
    requires anchor <= FloorOf(size, finalized)
    ensures AgreeAt(a, current, head, anchor)
  {
    SharedPrefix(a, current, head, FloorOf(size, finalized));
  }

  /** Two chains that agree at a height agree everywhere below it. */
  lemma SharedPrefix(a: Archive, current: Hash, head: Hash, height: nat)
    requires ArchiveOk(a) && Chain(a, current).Some? && Chain(a, head).Some? && height < |Chain(a, head).value|
    requires height == 0 || (height < |Chain(a, current).value|
      && Chain(a, current).value[height] == Chain(a, head).value[height])
    ensures height < |Chain(a, current).value|
    ensures forall h :: 0 <= h <= height ==> Chain(a, current).value[h] == Chain(a, head).value[h]
  {
    ChainExact(a, current);
    ChainExact(a, head);
    var c, d := Chain(a, current).value, Chain(a, head).value;
    assert c[..height + 1] == d[..height + 1];
    forall h | 0 <= h <= height
      ensures c[h] == d[h]
    {
      assert c[..height + 1][h] == c[h] && d[..height + 1][h] == d[h];
    }
  }
}

/** Building a run of the network event by event, and the smallest run in which a value is locked in. */
module NetworkRuns {
  import opened Types
  import opened Stake
  import opened SigningJournal
  import opened Certificates
  import opened Pacemaker
  import opened Session
  import opened JournalGrowth
  import opened SessionInvariant
  import opened SigningSteps
  import opened NodeSteps
  import opened Agreement
  import opened Context
  import opened Network
  import opened LockIn

  // ----- runs -----

  /** The run passes through `mid` and ends in `w`. */
  ghost predicate Passes(
    x: Setting, faulty: set<nat>, worlds: seq<World>, events: seq<Event>, m: nat, mid: World, w: World)
  {
    IsNetworkRun(x, faulty, worlds, events) && m < |worlds| && worlds[m] == mid && worlds[|worlds| - 1] == w
  }

  ghost predicate RunVia(x: Setting, faulty: set<nat>, mid: World, w: World) {
    exists worlds, events, m: nat :: Passes(x, faulty, worlds, events, m, mid, w)
  }

  const START: World := World(map[], [])

  lemma RunStarts(x: Setting, faulty: set<nat>)
    ensures RunVia(x, faulty, START, START)
  {
    var worlds: seq<World>, events: seq<Event>, m: nat := [START], [], 0;
    assert Passes(x, faulty, worlds, events, m, START, START);
  }

  lemma RunGoesOn(x: Setting, faulty: set<nat>, mid: World, w: World, e: Event, t: World)
    requires RunVia(x, faulty, mid, w) && Network.Next(x, faulty, w, e, t)
    ensures RunVia(x, faulty, mid, t) && RunVia(x, faulty, t, t)
  {
    var worlds, events, m: nat :| Passes(x, faulty, worlds, events, m, mid, w);
    PassesOn(x, faulty, worlds, events, m, mid, w, e, t);
  }

  lemma PassesOn(
    x: Setting, faulty: set<nat>, worlds: seq<World>, events: seq<Event>, m: nat, mid: World, w: World, e: Event,
      t: World)
    requires Passes(x, faulty, worlds, events, m, mid, w) && Network.Next(x, faulty, w, e, t)
    ensures RunVia(x, faulty, mid, t) && RunVia(x, faulty, t, t)
  {
    var more, also := worlds + [t], events + [e];
    RunExtends(x, faulty, worlds, events, e, t);
    Appended(worlds, t, m);
    PassesHere(x, faulty, more, also, m);
    PassesHere(x, faulty, more, also, |worlds|);
  }

  lemma Appended(worlds: seq<World>, t: World, m: nat)
    requires m < |worlds|
    ensures var more := worlds + [t]; more[m] == worlds[m] && more[|worlds|] == t && more[|more| - 1] == t
  {
  }

  lemma PassesHere(x: Setting, faulty: set<nat>, worlds: seq<World>, events: seq<Event>, m: nat)
    requires IsNetworkRun(x, faulty, worlds, events) && m < |worlds|
    ensures RunVia(x, faulty, worlds[m], worlds[|worlds| - 1])
  {
    assert Passes(x, faulty, worlds, events, m, worlds[m], worlds[|worlds| - 1]);
  }

  lemma RunExtends(x: Setting, faulty: set<nat>, worlds: seq<World>, events: seq<Event>, e: Event, t: World)
    requires IsNetworkRun(x, faulty, worlds, events) && Network.Next(x, faulty, worlds[|events|], e, t)
    ensures IsNetworkRun(x, faulty, worlds + [t], events + [e])
  {
    OneMoreEvent((a: World, b: Event, c: World) => Network.Next(x, faulty, a, b, c), worlds, events, e, t);
  }

  lemma OneMoreEvent(step: (World, Event, World) -> bool, worlds: seq<World>, events: seq<Event>, e: Event, t: World)
    requires |worlds| == |events| + 1 && step(worlds[|events|], e, t)
    requires forall i {:trigger events[i]} :: 0 <= i < |events| ==> step(worlds[i], events[i], worlds[i + 1])
    ensures var more, also := worlds + [t], events + [e];
      more[0] == worlds[0]
      && forall i {:trigger also[i]} :: 0 <= i < |also| ==> step(more[i], also[i], more[i + 1])
  {
    var more, also := worlds + [t], events + [e];
    forall i | 0 <= i < |also|
      ensures step(more[i], also[i], more[i + 1])
    {
      if i < |events| {
        assert step(worlds[i], events[i], worlds[i + 1]);
      }
    }
  }

  lemma EndIsReached(x: Setting, faulty: set<nat>, mid: World, w: World)
    requires RunVia(x, faulty, mid, w)
    ensures RunVia(x, faulty, w, w)
  {
    var worlds, events, m: nat :| Passes(x, faulty, worlds, events, m, mid, w);
    PassesHere(x, faulty, worlds, events, |worlds| - 1);
  }

  lemma EndKeepsInv(x: Setting, faulty: set<nat>, mid: World, w: World)
    requires RunVia(x, faulty, mid, w)
    ensures NetworkInv(x, faulty, w)
  {
    var worlds, events, m: nat :| Passes(x, faulty, worlds, events, m, mid, w);
    NetworkRunKeepsInv(x, faulty, worlds, events, |worlds| - 1);
  }

  /** The network with validator 0 alone opened. */
  function Alone(n: Node, log: seq<Entry>): World {
    World(map[0 := n], log)
  }

  lemma OpensAlone(x: Setting, faulty: set<nat>, target: Hash)
    requires SettingOk(x, 0) && 0 !in faulty
    ensures var s := OpenedSession(RulesOf(x, 0), target, None, 0, 1, 1);
      RunVia(x, faulty, Alone(Node(s, s, s, EMPTY), []), Alone(Node(s, s, s, EMPTY), []))
  {
    var s := OpenedSession(RulesOf(x, 0), target, None, 0, 1, 1);
    var e := OpenSession(0, target, None, 0, 1, 1);
    RunStarts(x, faulty);
    assert Opened(RulesOf(x, 0), e) == s;
    RunGoesOn(x, faulty, START, START, e, Alone(Node(s, s, s, EMPTY), []));
  }

  /** Validator 0 makes a step that signs nothing. */
  lemma ActsAlone(x: Setting, faulty: set<nat>, mid: World, n: Node, log: seq<Entry>, l: Label, m: Node)
    requires RunVia(x, faulty, mid, Alone(n, log)) && UpdateStep(RulesOf(x, 0), n, l, m)
    requires LabelUnforged(ConfigOf(x, faulty), log, n.work.ballot, l)
    ensures RunVia(x, faulty, mid, Alone(m, log))
  {
    var w, t := Alone(n, log), Alone(m, log);
    SilentUpdate(RulesOf(x, 0), n, l, m);
    assert t.nodes == w.nodes[0 := m];
    assert Network.Next(x, faulty, w, Act(0, l), t);
    RunGoesOn(x, faulty, mid, w, Act(0, l), t);
  }

  /** Validator 0 signs. */
  lemma SignsAlone(x: Setting, faulty: set<nat>, mid: World, n: Node, log: seq<Entry>, l: Label, m: Node)
    requires RunVia(x, faulty, mid, Alone(n, log)) && SignStep(RulesOf(x, 0), n, l, m)
    ensures var next := LogAfter(log, 0, Emitted(RulesOf(x, 0), n, l));
      RunVia(x, faulty, mid, Alone(m, next)) && RunVia(x, faulty, Alone(m, next), Alone(m, next))
  {
    var w, t := Alone(n, log), Alone(m, LogAfter(log, 0, Emitted(RulesOf(x, 0), n, l)));
    assert t.nodes == w.nodes[0 := m];
    assert Network.Next(x, faulty, w, Act(0, l), t);
    RunGoesOn(x, faulty, mid, w, Act(0, l), t);
  }
}

/** The busy flag of a server, replicated to the nodes of its cluster. Instants and
    durations are in nanoseconds; each call reads the clock once, unless its steps are apart. */
module Busy {
  import opened Wrappers

  const SECOND := 1_000_000_000

  /** The flag, the deadline of the running timer, and the expiry shown to callers. */
  datatype Node = Node(busy: bool, timer: Option<int>, expires: Option<int>)

  /** A broadcast carries the expiry in whole seconds. */
  datatype Message = BusyUntil(unix: int) | NotBusy

  function Cleared(): Node {
    Node(false, None, None)
  }

  function BusyFor(now: int, dur: int): Node {
    Node(true, Some(now + dur), Some(now + dur))
  }

  /** At least one second. */
  function AtLeastSecond(dur: int): int {
    if dur < SECOND then SECOND else dur
  }

  function Unix(t: int): int {
    t / SECOND
  }

  function Received(node: Node, m: Message, now: int): Node {
    match m
    case NotBusy => Cleared()
    case BusyUntil(unix) =>
      var dur := unix * SECOND - now;
      if dur > 0 then BusyFor(now, dur) else node
  }

  /** The timer callback, run as soon as its deadline is reached. */
  function Fired(node: Node, now: int): Node {
    if node.timer.Some? && node.timer.value <= now then Cleared() else node
  }

  /** The three fields tell the same story, and the node is not busy past its expiry. */
  predicate Sound(node: Node, now: int) {
    && (node.busy <==> node.timer.Some?)
    && node.timer == node.expires
    && (node.busy ==> now < node.expires.value)
  }

  lemma UnixBounds(t: int)
    ensures Unix(t) * SECOND <= t < Unix(t) * SECOND + SECOND
  {
  }

  /** A setting of a second or more lasts exactly that long, a shorter one a second; the node changes nothing else, and
      no other node notices before the message comes. */
  lemma SettingLasts(c: Cluster, i: nat, dur: int)
    requires WellFormed(c) && i < |c.nodes| && c.applied[i] == |c.changes|
    ensures var c', end := Next(c, Set(i, dur)), Some(c.now + if dur >= 1_000_000_000 then dur else 1_000_000_000);
            && c'.nodes == c.nodes[i := Node(true, end, end)] && c'.now == c.now
            && c'.changes == c.changes + [Change(i, end)]
  {
  }

  /** The minimum of one second makes sure that a broadcast delivered at once is in time. */
  lemma PromptBroadcastApplies(receiver: Node, now: int, dur: int)
    ensures Received(receiver, BusyUntil(Unix(now + AtLeastSecond(dur))), now).busy
  {
    UnixBounds(now + AtLeastSecond(dur));
  }

  /** A receiver in time gets an expiry less than a second before the origin's, never after. */
  lemma ReceiverExpiry(receiver: Node, now: int, expires: int)
    requires now < Unix(expires) * SECOND
    ensures var r := Received(receiver, BusyUntil(Unix(expires)), now);
            r.busy && Sound(r, now) && expires - SECOND < r.expires.value <= expires
  {
    UnixBounds(expires);
  }

  // ---------- a cluster with totally ordered delivery ----------

  /** One change, in the order all nodes see: the exact expiry, or none when cleared. */
  datatype Change = Change(origin: nat, expires: Option<int>)

  /** applied[i] is the number of changes that node i made or received so far. */
  datatype Cluster = Cluster(now: int, nodes: seq<Node>, changes: seq<Change>, applied: seq<nat>)

  datatype Event =
    | Set(node: nat, dur: int)
    | Clear(node: nat)
    | Deliver(node: nat)
    | Advance(elapsed: nat)

  predicate WellFormed(c: Cluster) {
    && |c.nodes| == |c.applied|
    && (forall i :: 0 <= i < |c.applied| ==> c.applied[i] <= |c.changes|)
  }

  function Broadcast(change: Change): Message {
    if change.expires.None? then NotBusy else BusyUntil(Unix(change.expires.value))
  }

  /** A node that has caught up makes a change of its own. */
  function Make(c: Cluster, i: nat, node: Node): (c': Cluster)
    requires WellFormed(c)
    ensures WellFormed(c') && |c'.nodes| == |c.nodes|
  {
    if i < |c.nodes| && c.applied[i] == |c.changes| then
      Cluster(c.now, c.nodes[i := node], c.changes + [Change(i, node.expires)], c.applied[i := |c.changes| + 1])
    else c
  }

  function Next(c: Cluster, e: Event): (c': Cluster)
    requires WellFormed(c)
    ensures WellFormed(c') && |c'.nodes| == |c.nodes|
  {
    match e
    case Set(i, dur) => Make(c, i, BusyFor(c.now, AtLeastSecond(dur)))
    case Clear(i) => Make(c, i, Cleared())
    case Deliver(i) =>
      if i < |c.nodes| && c.applied[i] < |c.changes| then
        var node := Received(c.nodes[i], Broadcast(c.changes[c.applied[i]]), c.now);
        c.(nodes := c.nodes[i := node], applied := c.applied[i := c.applied[i] + 1])
      else c
    case Advance(dur) =>
      c.(now := c.now + dur,
         nodes := seq(|c.nodes|, i requires 0 <= i < |c.nodes| => Fired(c.nodes[i], c.now + dur)))
  }

  function Run(c: Cluster, events: seq<Event>): (c': Cluster)
    requires WellFormed(c)
    ensures WellFormed(c') && |c'.nodes| == |c.nodes|
    decreases |events|
  {
    if events == [] then c else Run(Next(c, events[0]), events[1..])
  }

  function Idle(n: nat, now: int): (c: Cluster)
    ensures WellFormed(c) && |c.nodes| == n
  {
    Cluster(now, seq(n, i => Cleared()), [], seq(n, i => 0))
  }

  /** Each node's fields agree and no node is busy past its expiry, in every reachable state. */
  lemma {:induction false} NodesStaySound(c: Cluster, events: seq<Event>)
    requires WellFormed(c) && forall i :: 0 <= i < |c.nodes| ==> Sound(c.nodes[i], c.now)
    ensures forall i :: 0 <= i < |Run(c, events).nodes| ==> Sound(Run(c, events).nodes[i], Run(c, events).now)
    decreases |events|
  {
    if events != [] {
      var c' := Next(c, events[0]);
      forall i | 0 <= i < |c'.nodes| ensures Sound(c'.nodes[i], c'.now) {
        assert Sound(c.nodes[i], c.now);
      }
      NodesStaySound(c', events[1..]);
    }
  }

  // ---------- agreement ----------

  /** When a change ends at a node: exactly at its origin, truncated elsewhere. */
  function EndsAt(change: Change, i: nat): Option<int> {
    if change.expires.None? || change.origin == i then change.expires
    else Some(Unix(change.expires.value) * SECOND)
  }

  /** What a node shows if it follows the last of the first k changes. */
  function View(c: Cluster, i: nat, k: nat): Node
    requires k <= |c.changes|
  {
    if k == 0 then Cleared()
    else
      var end := EndsAt(c.changes[k - 1], i);
      if end.Some? && c.now < end.value then Node(true, end, end) else Cleared()
  }

  ghost predicate Following(c: Cluster)
    requires WellFormed(c)
  {
    forall i :: 0 <= i < |c.nodes| ==> c.nodes[i] == View(c, i, c.applied[i])
  }

  /** The origins of changes a node has yet to receive are other nodes. */
  ghost predicate OthersAhead(c: Cluster)
    requires WellFormed(c)
  {
    forall i, k :: 0 <= i < |c.nodes| && c.applied[i] <= k < |c.changes| ==> c.changes[k].origin != i
  }

  /** A busy message reaches a node before its truncated expiry, or finds the node idle. */
  predicate InTime(c: Cluster, e: Event)
    requires WellFormed(c)
  {
    e.Deliver? && e.node < |c.nodes| && c.applied[e.node] < |c.changes| ==>
      var change := c.changes[c.applied[e.node]];
      change.expires.None? || c.now < Unix(change.expires.value) * SECOND || !c.nodes[e.node].busy
  }

  lemma MakeKeepsFollowing(c: Cluster, i: nat, node: Node)
    requires WellFormed(c) && Following(c) && OthersAhead(c)
    requires node == Cleared()
             || (node.expires.Some? && c.now < node.expires.value && node == Node(true, node.expires, node.expires))
    ensures Following(Make(c, i, node)) && OthersAhead(Make(c, i, node))
  {
    var c' := Make(c, i, node);
    if c' != c {
      forall j | 0 <= j < |c'.nodes| ensures c'.nodes[j] == View(c', j, c'.applied[j]) {
        assert c.nodes[j] == View(c, j, c.applied[j]);
      }
    }
  }

  /** A delivery keeps the receiver in step exactly when it is in time: a late message is
      ignored, so a node still busy from before stays busy until its older expiry. */
  lemma DeliveryFollowsIffInTime(c: Cluster, i: nat)
    requires WellFormed(c) && Following(c) && OthersAhead(c)
    ensures OthersAhead(Next(c, Deliver(i)))
    ensures Following(Next(c, Deliver(i))) <==> InTime(c, Deliver(i))
  {
    var c' := Next(c, Deliver(i));
    if i < |c.nodes| && c.applied[i] < |c.changes| {
      assert c.nodes[i] == View(c, i, c.applied[i]);
      assert c.changes[c.applied[i]].origin != i;
      forall j | 0 <= j < |c.nodes| && j != i ensures c'.nodes[j] == View(c', j, c'.applied[j]) {
        assert c.nodes[j] == View(c, j, c.applied[j]);
      }
      assert c'.nodes[i] == View(c', i, c'.applied[i]) <==> InTime(c, Deliver(i));
    }
  }

  lemma AdvanceKeepsFollowing(c: Cluster, dur: nat)
    requires WellFormed(c) && Following(c) && OthersAhead(c)
    ensures Following(Next(c, Advance(dur))) && OthersAhead(Next(c, Advance(dur)))
  {
    var c' := Next(c, Advance(dur));
    forall j | 0 <= j < |c'.nodes| ensures c'.nodes[j] == View(c', j, c'.applied[j]) {
      assert c.nodes[j] == View(c, j, c.applied[j]);
    }
  }

  ghost predicate AllInTime(c: Cluster, events: seq<Event>)
    requires WellFormed(c)
    decreases |events|
  {
    events != [] ==> InTime(c, events[0]) && AllInTime(Next(c, events[0]), events[1..])
  }

  lemma {:induction false} RunFollows(c: Cluster, events: seq<Event>)
    requires WellFormed(c) && Following(c) && OthersAhead(c) && AllInTime(c, events)
    ensures Following(Run(c, events)) && OthersAhead(Run(c, events))
    decreases |events|
  {
    if events != [] {
      match events[0] {
        case Set(i, dur) => MakeKeepsFollowing(c, i, BusyFor(c.now, AtLeastSecond(dur)));
        case Clear(i) => MakeKeepsFollowing(c, i, Cleared());
        case Deliver(i) => DeliveryFollowsIffInTime(c, i);
        case Advance(dur) => AdvanceKeepsFollowing(c, dur);
      }
      RunFollows(Next(c, events[0]), events[1..]);
    }
  }

  /** After any run with all deliveries in time, two nodes that received every change agree,
      outside the last second before the exact expiry of the last change. */
  lemma CaughtUpNodesAgree(n: nat, start: int, events: seq<Event>, i: nat, j: nat)
    requires AllInTime(Idle(n, start), events) && i < n && j < n
    requires var c := Run(Idle(n, start), events); c.applied[i] == c.applied[j] == |c.changes|
    ensures var c := Run(Idle(n, start), events);
            c.nodes[i].busy == c.nodes[j].busy ||
            (|c.changes| > 0 &&
             var last := c.changes[|c.changes| - 1];
             last.expires.Some? && Unix(last.expires.value) * SECOND <= c.now < last.expires.value)
    ensures var c := Run(Idle(n, start), events);
            c.nodes[i].busy && c.nodes[j].busy ==>
              c.nodes[i].expires.Some? && c.nodes[j].expires.Some? &&
              -SECOND < c.nodes[i].expires.value - c.nodes[j].expires.value < SECOND
  {
    var c := Run(Idle(n, start), events);
    assert Following(Idle(n, start)) && OthersAhead(Idle(n, start));
    RunFollows(Idle(n, start), events);
    assert c.nodes[i] == View(c, i, |c.changes|) && c.nodes[j] == View(c, j, |c.changes|);
    if |c.changes| > 0 && c.changes[|c.changes| - 1].expires.Some? {
      UnixBounds(c.changes[|c.changes| - 1].expires.value);
    }
  }

  /** Two settings, the second one shorter and delivered late: the receiver stays busy long
      after the origin is free. */
  lemma LateMessageDiverges()
    ensures var c := Run(Idle(2, 0),
                [Set(0, 100 * SECOND), Deliver(1), Set(0, SECOND), Advance(2 * SECOND), Deliver(1)]);
            c.applied == [2, 2] && |c.changes| == 2 && !c.nodes[0].busy && c.nodes[1].busy
  {
    var c0 := Idle(2, 0);
    assert c0.nodes == [Cleared(), Cleared()] && c0.applied == [0, 0];
    var c1 := Next(c0, Set(0, 100 * SECOND));
    var c2 := Next(c1, Deliver(1));
    var c3 := Next(c2, Set(0, SECOND));
    var c4 := Next(c3, Advance(2 * SECOND));
    var c5 := Next(c4, Deliver(1));
    assert c2.nodes[1] == BusyFor(0, 100 * SECOND);
    assert c4.nodes == [Cleared(), BusyFor(0, 100 * SECOND)];
    var e := [Set(0, 100 * SECOND), Deliver(1), Set(0, SECOND), Advance(2 * SECOND), Deliver(1)];
    assert Run(c0, e) == Run(c1, e[1..]);
    assert Run(c1, e[1..]) == Run(c2, e[1..][1..]) && e[1..][1..] == e[2..];
    assert Run(c2, e[2..]) == Run(c3, e[2..][1..]) && e[2..][1..] == e[3..];
    assert Run(c3, e[3..]) == Run(c4, e[3..][1..]) && e[3..][1..] == e[4..];
    assert Run(c4, e[4..]) == Run(c5, e[4..][1..]) && e[4..][1..] == [];
  }

  /** Two nodes set at the same moment, neither knowing of the other's setting yet: each ends with the
      expiry of the other, cut to seconds, and these agree exactly if they fall into the same second. */
  lemma ConcurrentSettingsCross(now: int, dur0: int, dur1: int)
    ensures var set0, set1 := BusyFor(now, AtLeastSecond(dur0)), BusyFor(now, AtLeastSecond(dur1));
            var node0 := Received(set0, BusyUntil(Unix(set1.expires.value)), now);
            var node1 := Received(set1, BusyUntil(Unix(set0.expires.value)), now);
            && node0.busy && node0.expires == Some(Unix(set1.expires.value) * SECOND)
            && node1.busy && node1.expires == Some(Unix(set0.expires.value) * SECOND)
            && (node0 == node1 <==> Unix(set0.expires.value) == Unix(set1.expires.value))
  {
    UnixBounds(now + AtLeastSecond(dur0));
    UnixBounds(now + AtLeastSecond(dur1));
  }

  // ---------- the timer callback as a step of its own ----------

  /** launched counts callbacks of timers that reached their deadline but have not run yet;
      expired says that the current timer is one of them. */
  datatype Racing = Racing(now: int, node: Node, expired: bool, launched: nat)

  datatype RaceEvent = RSet(dur: int) | RClear | RTick(elapsed: nat) | RExpire | RCallback

  function RaceNext(r: Racing, e: RaceEvent): Racing {
    match e
    case RSet(dur) => r.(node := BusyFor(r.now, AtLeastSecond(dur)), expired := false)
    case RClear => r.(node := Cleared(), expired := false)
    case RTick(dur) => r.(now := r.now + dur)
    case RExpire =>
      if r.node.timer.Some? && !r.expired && r.node.timer.value <= r.now
      then r.(expired := true, launched := r.launched + 1) else r
    case RCallback =>
      if r.launched > 0 then r.(node := Cleared(), expired := false, launched := r.launched - 1) else r
  }

  function RaceRun(r: Racing, events: seq<RaceEvent>): Racing
    decreases |events|
  {
    if events == [] then r else RaceRun(RaceNext(r, events[0]), events[1..])
  }

  predicate FieldsAgree(node: Node) {
    (node.busy <==> node.timer.Some?) && node.timer == node.expires
  }

  /** Callbacks of stopped timers running late, each in one piece, keep the fields in agreement. */
  lemma {:induction false} RaceKeepsFields(r: Racing, events: seq<RaceEvent>)
    requires FieldsAgree(r.node)
    ensures FieldsAgree(RaceRun(r, events).node)
    decreases |events|
  {
    if events != [] {
      RaceKeepsFields(RaceNext(r, events[0]), events[1..]);
    }
  }

  predicate Undisturbed(events: seq<RaceEvent>) {
    forall i :: 0 <= i < |events| ==> !events[i].RSet? && !events[i].RClear?
  }

  /** A setting holds until its expiry when no callback was launched and not yet run. */
  lemma {:induction false} SettingHolds(r: Racing, until: int, events: seq<RaceEvent>)
    requires r.node == Node(true, Some(until), Some(until)) && Undisturbed(events)
    requires r.launched == 0 && !r.expired
    ensures RaceRun(r, events).now < until ==> RaceRun(r, events).node == r.node
    decreases |events|
  {
    if events != [] {
      var r' := RaceNext(r, events[0]);
      if r'.expired {
        TimeOnlyPasses(r', events[1..]);
      } else {
        SettingHolds(r', until, events[1..]);
      }
    }
  }

  lemma {:induction false} TimeOnlyPasses(r: Racing, events: seq<RaceEvent>)
    ensures RaceRun(r, events).now >= r.now
    decreases |events|
  {
    if events != [] {
      TimeOnlyPasses(RaceNext(r, events[0]), events[1..]);
    }
  }

  /** And only then: with a callback still to run, the next setting can end at once. */
  lemma StaleCallbackCutsShort(r: Racing, dur: int)
    ensures var after := RaceNext(RaceNext(r, RSet(dur)), RCallback);
            (after.node.busy <==> r.launched == 0) && after.now == r.now
  {
  }

  /** A timer launches its callback once, no earlier than its deadline; a new timer does so whatever is still to run,
      and a cleared one does not. */
  lemma TimersLaunchOnce(r: Racing, dur: int, elapsed: nat)
    ensures var due := RaceNext(RaceNext(r, RSet(dur)), RTick(elapsed));
            var after := RaceNext(due, RExpire);
            && after.launched == r.launched + (if elapsed >= AtLeastSecond(dur) then 1 else 0)
            && after.node == due.node && after.now == r.now + elapsed && RaceNext(after, RExpire) == after
    ensures RaceNext(RaceNext(r, RClear), RExpire) == RaceNext(r, RClear)
    ensures RaceNext(r, RClear).node == Cleared() && RaceNext(r, RClear).launched == r.launched
  {
  }

  /** A callback launched runs once, and takes back whatever setting is there. */
  lemma CallbackRuns(r: Racing)
    ensures var after := RaceNext(r, RCallback);
            if r.launched == 0 then after == r
            else after.node == Cleared() && after.launched == r.launched - 1 && RaceNext(after, RExpire) == after
  {
  }

  /** What happens to a node on its own, told as the events of a cluster of one: time passing is followed by the
      launch and the callback of a timer that is due. */
  function Promptly(e: Event): seq<RaceEvent> {
    match e
    case Set(_, dur) => [RSet(dur)]
    case Clear(_) => [RClear]
    case Deliver(_) => []
    case Advance(elapsed) => [RTick(elapsed), RExpire, RCallback]
  }

  function AllPromptly(events: seq<Event>): seq<RaceEvent>
    decreases |events|
  {
    if events == [] then [] else Promptly(events[0]) + AllPromptly(events[1..])
  }

  lemma {:induction false} RaceRunConcat(r: Racing, a: seq<RaceEvent>, b: seq<RaceEvent>)
    ensures RaceRun(r, a + b) == RaceRun(RaceRun(r, a), b)
    decreases |a|
  {
    if a == [] {
      assert a + b == b;
    } else {
      assert (a + b)[1..] == a[1..] + b;
      RaceRunConcat(RaceNext(r, a[0]), a[1..], b);
    }
  }

  /** The node of a cluster of one, which has always caught up with its own changes. */
  predicate OneNode(c: Cluster) {
    |c.nodes| == |c.applied| == 1 && c.applied[0] == |c.changes|
  }

  predicate IsNode(r: Racing, c: Cluster)
    requires OneNode(c)
  {
    r.now == c.now && r.node == c.nodes[0] && !r.expired && r.launched == 0
  }

  predicate OfNode(e: Event) {
    (e.Set? || e.Clear? ==> e.node == 0) && !e.Deliver?
  }

  lemma PromptStep(r: Racing, c: Cluster, e: Event)
    requires OneNode(c) && IsNode(r, c) && OfNode(e)
    ensures OneNode(Next(c, e)) && IsNode(RaceRun(r, Promptly(e)), Next(c, e))
  {
    var events := Promptly(e);
    if e.Advance? {
      var ticked := RaceNext(r, RTick(e.elapsed));
      assert events[1..] == [RExpire, RCallback] && events[1..][1..] == [RCallback] && [RCallback][1..] == [];
      assert RaceRun(r, events) == RaceRun(ticked, [RExpire, RCallback])
             == RaceRun(RaceNext(ticked, RExpire), [RCallback])
             == RaceRun(RaceNext(RaceNext(ticked, RExpire), RCallback), []);
    } else {
      assert events[1..] == [];
      assert RaceRun(r, events) == RaceRun(RaceNext(r, events[0]), []);
    }
  }

  /** As long as every callback runs as soon as its timer is due, the node does what it does where callbacks are no
      steps of their own. */
  lemma {:induction false} PromptCallbacksRefine(r: Racing, c: Cluster, events: seq<Event>)
    requires OneNode(c) && IsNode(r, c) && forall i :: 0 <= i < |events| ==> OfNode(events[i])
    ensures OneNode(Run(c, events)) && IsNode(RaceRun(r, AllPromptly(events)), Run(c, events))
    decreases |events|
  {
    if events != [] {
      PromptStep(r, c, events[0]);
      PromptCallbacksRefine(RaceRun(r, Promptly(events[0])), Next(c, events[0]), events[1..]);
      RaceRunConcat(r, Promptly(events[0]), AllPromptly(events[1..]));
    }
  }

  // ---------- the callback without the lock: every load and store a step of its own ----------

  datatype Timer = Timer(id: nat, deadline: int)

  // the steps of a setting, in their order; clearing and the callback do the first five, and
  // stop a timer only if the check has found one
  const CHECK_TIMER := 0
  const STOP_TIMER := 1
  const FORGET_TIMER := 2
  const FORGET_EXPIRY := 3
  const NOT_BUSY := 4
  const SET_BUSY := 5
  const SET_EXPIRY := 6
  const START_TIMER := 7
  const STORE_TIMER := 8

  /** The caller holding the mutex: its next step, the duration it sets, or none if it clears, and
      the timer it has started. */
  datatype Holder = Holder(next: nat, dur: Option<int>, started: Option<Timer>)

  predicate Released(holder: Holder) {
    holder.next > if holder.dur.Some? then STORE_TIMER else NOT_BUSY
  }

  /** The fields, the timers that run, and the next step of each callback that was launched. A process that has
      stopped a nil timer has crashed. */
  datatype Torn = Torn(now: int, busy: bool, timer: Option<Timer>, expires: Option<int>, running: set<Timer>,
                       nextId: nat, holder: Holder, callbacks: seq<nat>, crashed: bool)

  /** A setting is at least a second long, or as long as a received message has left: more than nothing. */
  datatype TornEvent =
    | BeginSet(dur: int)
    | BeginClear
    | HolderSteps
    | Launch(timer: Timer)
    | CallbackSteps(index: nat)
    | Tick(elapsed: nat)

  /** The steps that callers and callbacks share. */
  function AfterClearing(t: Torn, step: nat): Torn {
    if step == CHECK_TIMER then t
    else if step == STOP_TIMER then
      if t.timer.Some? then t.(running := t.running - {t.timer.value}) else t.(crashed := true)
    else if step == FORGET_TIMER then t.(timer := None)
    else if step == FORGET_EXPIRY then t.(expires := None)
    else t.(busy := false)
  }

  /** Both clocks are read when they are needed. */
  function AfterSetting(t: Torn, step: nat, dur: int): Torn {
    if step == SET_BUSY then t.(busy := true)
    else if step == SET_EXPIRY then t.(expires := Some(t.now + dur))
    else if step == START_TIMER then
      var started := Timer(t.nextId, t.now + dur);
      t.(running := t.running + {started}, nextId := t.nextId + 1, holder := t.holder.(started := Some(started)))
    else t.(timer := t.holder.started)
  }

  function StepAfter(t: Torn, step: nat): nat {
    if step == CHECK_TIMER && t.timer.None? then FORGET_TIMER else step + 1
  }

  function HolderStepped(t: Torn): Torn {
    var step := t.holder.next;
    var t' := if step <= NOT_BUSY then AfterClearing(t, step) else AfterSetting(t, step, t.holder.dur.GetOr(0));
    t'.(holder := t'.holder.(next := StepAfter(t, step)))
  }

  function CallbackStepped(t: Torn, i: nat): Torn
    requires i < |t.callbacks|
  {
    var step := t.callbacks[i];
    AfterClearing(t, step).(callbacks := t.callbacks[i := StepAfter(t, step)])
  }

  /** The mutex keeps two callers apart, but not a callback from a caller or from another callback. */
  function TornNext(t: Torn, e: TornEvent): Torn {
    if t.crashed then t
    else
      match e
      case BeginSet(dur) => if Released(t.holder) && dur > 0 then t.(holder := Holder(0, Some(dur), None)) else t
      case BeginClear => if Released(t.holder) then t.(holder := Holder(0, None, None)) else t
      case HolderSteps => if Released(t.holder) then t else HolderStepped(t)
      case Launch(timer) =>
        if timer in t.running && timer.deadline <= t.now
        then t.(running := t.running - {timer}, callbacks := t.callbacks + [CHECK_TIMER]) else t
      case CallbackSteps(i) => if i < |t.callbacks| && t.callbacks[i] <= NOT_BUSY then CallbackStepped(t, i) else t
      case Tick(dur) => t.(now := t.now + dur)
  }

  function TornRun(t: Torn, events: seq<TornEvent>): Torn
    decreases |events|
  {
    if events == [] then t else TornRun(TornNext(t, events[0]), events[1..])
  }

  function TornIdle(now: int): Torn {
    Torn(now, false, None, None, {}, 0, Holder(NOT_BUSY + 1, None, None), [], false)
  }

  /** Has some callback still to do this step? */
  predicate CallbackOwes(t: Torn, step: nat) {
    exists i :: 0 <= i < |t.callbacks| && t.callbacks[i] <= step
  }

  predicate HolderOwes(t: Torn, step: nat) {
    !Released(t.holder) && t.holder.next <= step
  }

  /** The caller is past one step, and not yet past another. */
  predicate Between(t: Torn, done: nat, owed: nat) {
    !Released(t.holder) && done < t.holder.next <= owed
  }

  /** A timer that runs and does not end before the expiry. */
  predicate Covers(t: Torn, timer: Option<Timer>, expires: int) {
    timer.Some? && timer.value in t.running && expires <= timer.value.deadline
  }

  /** Busy implies an expiry, and an expiry implies a running timer for it, each unless somebody has
      still to take the former back or to set the latter. */
  predicate Chained(t: Torn) {
    && (t.busy && !CallbackOwes(t, NOT_BUSY) && !HolderOwes(t, SET_EXPIRY) ==> t.expires.Some?)
    && (t.expires.Some? && !CallbackOwes(t, FORGET_EXPIRY) && !HolderOwes(t, STORE_TIMER) ==>
          Covers(t, t.timer, t.expires.value))
    && (Between(t, FORGET_TIMER, STORE_TIMER) ==> t.timer.None?)
    && (Between(t, FORGET_EXPIRY, SET_EXPIRY) ==> t.expires.None?)
    && (Between(t, SET_EXPIRY, START_TIMER) && t.expires.Some? ==> t.expires.value <= t.now + t.holder.dur.GetOr(0))
    && (Between(t, START_TIMER, STORE_TIMER) && t.expires.Some? && !CallbackOwes(t, FORGET_EXPIRY) ==>
          Covers(t, t.holder.started, t.expires.value))
  }

  lemma CallbackKeepsChained(t: Torn, i: nat)
    requires Chained(t) && !t.crashed && i < |t.callbacks| && t.callbacks[i] <= NOT_BUSY
    ensures Chained(CallbackStepped(t, i))
  {
    var t' := CallbackStepped(t, i);
    StillOwed(t, i, FORGET_EXPIRY);
    StillOwed(t, i, NOT_BUSY);
  }

  /** A callback still owes a step until it has done it. */
  lemma StillOwed(t: Torn, i: nat, step: nat)
    requires i < |t.callbacks| && t.callbacks[i] <= NOT_BUSY && step > STOP_TIMER
    ensures CallbackOwes(t, step) && t.callbacks[i] != step ==> CallbackOwes(CallbackStepped(t, i), step)
    ensures t.callbacks[i] < step ==> CallbackOwes(CallbackStepped(t, i), step)
  {
    var t' := CallbackStepped(t, i);
    assert t'.callbacks[i] == StepAfter(t, t.callbacks[i]);
    if CallbackOwes(t, step) && t.callbacks[i] != step {
      var j :| 0 <= j < |t.callbacks| && t.callbacks[j] <= step;
      assert t'.callbacks[j] <= step;
    }
  }

  lemma LaunchKeepsChained(t: Torn, timer: Timer)
    requires Chained(t)
    ensures Chained(TornNext(t, Launch(timer)))
  {
    var t' := TornNext(t, Launch(timer));
    if t' != t {
      assert t'.callbacks[|t.callbacks|] == CHECK_TIMER;
    }
  }

  lemma HolderKeepsChained(t: Torn)
    requires Chained(t) && !Released(t.holder)
    ensures Chained(HolderStepped(t))
  {
    var t' := HolderStepped(t);
    assert CallbackOwes(t', NOT_BUSY) == CallbackOwes(t, NOT_BUSY);
    assert CallbackOwes(t', FORGET_EXPIRY) == CallbackOwes(t, FORGET_EXPIRY);
  }

  lemma NextKeepsChained(t: Torn, e: TornEvent)
    requires Chained(t)
    ensures Chained(TornNext(t, e))
  {
    if !t.crashed {
      match e {
        case Launch(timer) => LaunchKeepsChained(t, timer);
        case CallbackSteps(i) =>
          if i < |t.callbacks| && t.callbacks[i] <= NOT_BUSY {
            CallbackKeepsChained(t, i);
          }
        case HolderSteps =>
          if !Released(t.holder) {
            HolderKeepsChained(t);
          }
        case _ =>
      }
    }
  }

  lemma {:induction false} RunStaysChained(t: Torn, events: seq<TornEvent>)
    requires Chained(t)
    ensures Chained(TornRun(t, events))
    decreases |events|
  {
    if events != [] {
      NextKeepsChained(t, events[0]);
      RunStaysChained(TornNext(t, events[0]), events[1..]);
    }
  }

  /** The mutex: while a caller holds it, nothing but its own steps moves it on; a setting or clearing begins only when
      it is free, and a setting only for a time. */
  lemma HolderIsAlone(t: Torn, e: TornEvent)
    requires !t.crashed
    ensures !Released(t.holder) && !e.HolderSteps? ==> TornNext(t, e).holder == t.holder
    ensures Released(t.holder) ==>
              TornNext(t, e).holder ==
                if e.BeginClear? then Holder(CHECK_TIMER, None, None)
                else if e.BeginSet? && e.dur > 0 then Holder(CHECK_TIMER, Some(e.dur), None)
                else t.holder
  {
  }

  /** A callback is launched by a running timer at or after its deadline, which then runs no more. */
  lemma OnlyDueTimersLaunch(t: Torn, timer: Timer)
    requires !t.crashed
    ensures var after := TornNext(t, Launch(timer));
            if timer in t.running && timer.deadline <= t.now
            then after.callbacks == t.callbacks + [CHECK_TIMER] && timer !in after.running else after == t
  {
  }

  /** A callback that has done its last step does no more. */
  lemma CallbackEnds(t: Torn, i: nat)
    requires i < |t.callbacks| && t.callbacks[i] > NOT_BUSY
    ensures TornNext(t, CallbackSteps(i)) == t
  {
  }

  /** So every timer ever started launches at most one callback. */
  lemma {:induction false} OneCallbackPerTimer(t: Torn, events: seq<TornEvent>)
    requires |t.callbacks| + |t.running| <= t.nextId
    ensures |TornRun(t, events).callbacks| <= TornRun(t, events).nextId
    decreases |events|
  {
    if events != [] {
      StepCountsCallbacks(t, events[0]);
      OneCallbackPerTimer(TornNext(t, events[0]), events[1..]);
    }
  }

  lemma ClearingCounts(t: Torn, step: nat)
    ensures var t' := AfterClearing(t, step);
            |t'.running| <= |t.running| && t'.nextId == t.nextId && t'.callbacks == t.callbacks
  {
    if t.timer.Some? {
      FewerTimers(t.running - {t.timer.value}, t.running);
    }
  }

  lemma SettingCounts(t: Torn, step: nat, dur: int)
    ensures var t' := AfterSetting(t, step, dur);
            |t'.running| - t'.nextId <= |t.running| - t.nextId && t'.callbacks == t.callbacks
  {
    var started := Timer(t.nextId, t.now + dur);
    assert |t.running + {started}| <= |t.running| + 1;
  }

  lemma StepCountsCallbacks(t: Torn, e: TornEvent)
    requires |t.callbacks| + |t.running| <= t.nextId
    ensures var t' := TornNext(t, e); |t'.callbacks| + |t'.running| <= t'.nextId
  {
    match e {
      case HolderSteps =>
        ClearingCounts(t, t.holder.next);
        SettingCounts(t, t.holder.next, t.holder.dur.GetOr(0));
      case CallbackSteps(i) =>
        if i < |t.callbacks| {
          ClearingCounts(t, t.callbacks[i]);
        }
      case Launch(timer) =>
        if timer in t.running {
          assert |t.running - {timer}| == |t.running| - 1;
        }
      case _ =>
    }
  }

  lemma FewerTimers(some: set<Timer>, all: set<Timer>)
    requires some <= all
    ensures |some| <= |all|
  {
    assert |all - some| == |all| - |some|;
  }

  /** Nobody is in the middle of anything. */
  predicate Quiet(t: Torn) {
    Released(t.holder) && forall i :: 0 <= i < |t.callbacks| ==> t.callbacks[i] > NOT_BUSY
  }

  /** What remains however the steps of callers and callbacks interleave: whenever nobody is in the middle of
      anything, a busy node shows an expiry, and for an expiry there is a stored timer that runs and ends no
      earlier. So a busy node has a timer that is still going to free it. */
  lemma BusyNodesHaveTimers(start: int, events: seq<TornEvent>)
    requires Quiet(TornRun(TornIdle(start), events))
    ensures var t := TornRun(TornIdle(start), events);
            && (t.busy ==> t.expires.Some?)
            && (t.expires.Some? ==>
                  t.timer.Some? && t.timer.value in t.running && t.expires.value <= t.timer.value.deadline)
  {
    RunStaysChained(TornIdle(start), events);
  }

  // ---------- what does not remain ----------

  ghost predicate Reachable(t: Torn) {
    exists start, events :: t == TornRun(TornIdle(start), events)
  }

  lemma {:induction false} TornRunSnoc(t: Torn, events: seq<TornEvent>, e: TornEvent)
    ensures TornRun(t, events + [e]) == TornNext(TornRun(t, events), e)
    decreases |events|
  {
    if events == [] {
      assert [e][1..] == [];
    } else {
      assert (events + [e])[1..] == events[1..] + [e];
      TornRunSnoc(TornNext(t, events[0]), events[1..], e);
    }
  }

  lemma ReachesNext(t: Torn, e: TornEvent) returns (t': Torn)
    requires Reachable(t)
    ensures Reachable(t') && t' == TornNext(t, e)
  {
    var start, events :| t == TornRun(TornIdle(start), events);
    TornRunSnoc(TornIdle(start), events, e);
    t' := TornNext(t, e);
  }

  /** A setting begins and comes to its expiry, undisturbed. */
  lemma SettingReaches(t: Torn, dur: int) returns (t': Torn)
    requires Reachable(t) && !t.crashed && Released(t.holder) && dur > 0
    ensures Reachable(t') && t'.holder == Holder(SET_EXPIRY, Some(dur), None)
    ensures t' == t.(busy := true, timer := None, expires := None, holder := t'.holder,
                     running := if t.timer.Some? then t.running - {t.timer.value} else t.running)
  {
    t' := ReachesNext(t, BeginSet(dur));
    t' := ReachesNext(t', HolderSteps);
    if t.timer.Some? {
      t' := ReachesNext(t', HolderSteps);
    }
    assert t'.holder.next == FORGET_TIMER;
    t' := ReachesNext(t', HolderSteps);
    t' := ReachesNext(t', HolderSteps);
    t' := ReachesNext(t', HolderSteps);
    t' := ReachesNext(t', HolderSteps);
  }

  /** The rest of a setting, undisturbed. */
  lemma ExpiryReaches(t: Torn) returns (t': Torn)
    requires Reachable(t) && !t.crashed && t.holder.next == SET_EXPIRY && t.holder.dur.Some?
    ensures Reachable(t') && t'.holder.next == STORE_TIMER + 1 && t'.holder.dur == t.holder.dur
    ensures var timer := Timer(t.nextId, t.now + t.holder.dur.value);
            t' == t.(expires := Some(timer.deadline), timer := Some(timer), running := t.running + {timer},
                     nextId := t.nextId + 1, holder := t'.holder)
  {
    t' := ReachesNext(t, HolderSteps);
    t' := ReachesNext(t', HolderSteps);
    t' := ReachesNext(t', HolderSteps);
  }

  /** The only callback runs, finding no timer. */
  lemma CallbackReaches(t: Torn) returns (t': Torn)
    requires Reachable(t) && !t.crashed && t.timer.None? && t.callbacks == [CHECK_TIMER]
    ensures Reachable(t') && t' == t.(expires := None, busy := false, callbacks := [NOT_BUSY + 1])
  {
    t' := ReachesNext(t, CallbackSteps(0));
    t' := ReachesNext(t', CallbackSteps(0));
    t' := ReachesNext(t', CallbackSteps(0));
    t' := ReachesNext(t', CallbackSteps(0));
    assert t'.callbacks == [NOT_BUSY + 1];
  }

  lemma IdleReached() returns (t: Torn)
    ensures Reachable(t) && t == TornIdle(0)
  {
    assert TornRun(TornIdle(0), []) == TornIdle(0);
    t := TornIdle(0);
  }

  /** A setting for a second, whose timer has just been launched. */
  lemma TimerLaunched() returns (t: Torn)
    ensures Reachable(t) && t.busy && t.timer == Some(Timer(0, SECOND)) && t.now == SECOND
    ensures Released(t.holder) && !t.crashed && t.callbacks == [CHECK_TIMER] && t.running == {} && t.nextId == 1
  {
    t := IdleReached();
    t := SettingReaches(t, SECOND);
    t := ExpiryReaches(t);
    t := ReachesNext(t, Tick(SECOND));
    t := ReachesNext(t, Launch(Timer(0, SECOND)));
    assert t.running == {};
  }

  /** So the converses fail: the callback in between, a node ends up free, though a setting was
      just made, and shows an expiry and has a timer. */
  lemma TornSetting() returns (t: Torn)
    ensures Reachable(t) && Quiet(t) && t.now == SECOND
    ensures !t.busy && t.expires == Some(2 * SECOND) && t.timer.Some? && t.timer.value.deadline == 2 * SECOND
  {
    t := TimerLaunched();
    t := SettingReaches(t, SECOND);
    t := CallbackReaches(t);
    t := ExpiryReaches(t);
  }

  /** With the expiry set before the callback forgets it, it ends up free with a running timer and no expiry. */
  lemma TornExpiry() returns (t: Torn)
    ensures Reachable(t) && Quiet(t) && t.now == SECOND
    ensures !t.busy && t.expires.None? && t.timer == Some(Timer(1, 2 * SECOND)) && t.timer.value in t.running
  {
    t := TimerLaunched();
    t := SettingReaches(t, SECOND);
    t := ReachesNext(t, HolderSteps);
    t := CallbackReaches(t);
    t := ReachesNext(t, HolderSteps);
    t := ReachesNext(t, HolderSteps);
  }

  /** A received setting so short that its callback is done before its timer is stored leaves a free node with a
      timer that has fired. */
  lemma DeadTimer() returns (t: Torn)
    ensures Reachable(t) && Quiet(t)
    ensures !t.busy && t.expires.None? && t.timer.Some?
    ensures t.timer.value !in t.running && t.timer.value.deadline <= t.now
  {
    t := IdleReached();
    t := SettingReaches(t, 1);
    t := ReachesNext(t, HolderSteps);
    t := ReachesNext(t, HolderSteps);
    t := ReachesNext(t, Tick(1));
    t := ReachesNext(t, Launch(Timer(0, 1)));
    assert t.running == {};
    t := CallbackReaches(t);
    t := ReachesNext(t, HolderSteps);
  }

  /** Between the two readings of the clock in a setting time passes: a node is busy after the expiry it shows. */
  lemma BusyPastExpiry(delay: nat) returns (t: Torn)
    ensures Reachable(t) && Quiet(t) && t.busy && t.timer.Some?
    ensures t.expires == Some(SECOND) && t.timer.value == Timer(0, SECOND + delay) && t.now == SECOND + delay
  {
    t := IdleReached();
    t := SettingReaches(t, SECOND);
    t := ReachesNext(t, HolderSteps);
    t := ReachesNext(t, Tick(delay));
    t := ReachesNext(t, HolderSteps);
    t := ReachesNext(t, HolderSteps);
    t := ReachesNext(t, Tick(SECOND));
  }

  /** A caller that has found a timer loses it to the callback, and stops a nil timer. */
  lemma NilTimerStopped() returns (t: Torn)
    ensures Reachable(t) && t.crashed
  {
    t := TimerLaunched();
    t := ReachesNext(t, BeginClear);
    t := ReachesNext(t, HolderSteps);
    t := ReachesNext(t, CallbackSteps(0));
    t := ReachesNext(t, CallbackSteps(0));
    t := ReachesNext(t, CallbackSteps(0));
    t := ReachesNext(t, HolderSteps);
  }

  // ---------- the object itself ----------

  class BusyFlag {
    const clustered: bool
    var busy: bool
    var timer: Option<int>
    var expires: Option<int>

    ghost function Model(): Node
      reads this
    {
      Node(busy, timer, expires)
    }

    constructor (clustered: bool)
      ensures Model() == Cleared() && this.clustered == clustered
    {
      this.clustered := clustered;
      busy, timer, expires := false, None, None;
    }

    /** The server is marked busy, for at least a second; the message goes to the cluster. */
    method Set(now: int, duration: int) returns (sent: Option<Message>)
      modifies this
      ensures Model() == BusyFor(now, AtLeastSecond(duration))
      ensures expires == Some(now + if duration >= 1_000_000_000 then duration else 1_000_000_000)
      ensures sent == if clustered then Some(BusyUntil(Unix(now + AtLeastSecond(duration)))) else None
    {
      var dur := duration;
      if dur < SECOND {
        dur := SECOND;
      }
      SetWithoutNotify(now, dur);
      sent := if clustered then Some(BusyUntil(expires.value / SECOND)) else None;
    }

    method SetWithoutNotify(now: int, dur: int)
      modifies this
      ensures Model() == BusyFor(now, dur)
    {
      ClearWithoutNotify();
      busy := true;
      expires := Some(now + dur);
      timer := Some(now + dur);
    }

    method Clear() returns (sent: Option<Message>)
      modifies this
      ensures Model() == Cleared()
      ensures sent == if clustered then Some(NotBusy) else None
    {
      ClearWithoutNotify();
      sent := if clustered then Some(NotBusy) else None;
    }

    method ClearWithoutNotify()
      modifies this
      ensures Model() == Cleared()
    {
      timer := None;
      expires := None;
      busy := false;
    }

    method ClusterEventChanged(m: Message, now: int)
      modifies this
      ensures Model() == Received(old(Model()), m, now)
    {
      match m {
        case BusyUntil(unix) =>
          var dur := unix * SECOND - now;
          if dur > 0 {
            SetWithoutNotify(now, dur);
          }
        case NotBusy =>
          ClearWithoutNotify();
      }
    }

    /** The runtime's timer: the callback runs when the deadline is reached. */
    method RunTimer(now: int)
      modifies this
      ensures Model() == Fired(old(Model()), now)
    {
      if timer.Some? && timer.value <= now {
        ClearWithoutNotify();
      }
    }
  }
}

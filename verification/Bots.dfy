/** Deactivating the bots of a user, and the bots of these bots, page by page; and collecting lists
    page by page. */
module Bots {
  import opened Lists
  import opened Wrappers

  datatype Bot = Bot(userId: string, ownerId: string, active: bool)

  const DISABLE_PER_PAGE := 20

  /** A page of a list. */
  function Page<T>(s: seq<T>, page: nat, perPage: nat): (r: seq<T>)
    requires perPage > 0
    ensures |r| <= perPage
  {
    assert page * perPage + perPage == (page + 1) * perPage;
    s[Min(page * perPage, |s|)..Min(page * perPage + perPage, |s|)]
  }

  // ---------- the bot store; bots are kept in the order in which they are listed ----------

  predicate Listed(b: Bot, ownerId: string) {
    b.active && (ownerId == "" || b.ownerId == ownerId)
  }

  /** The ids of the active bots of an owner; no owner stands for all. */
  function ActiveBots(bots: seq<Bot>, ownerId: string): seq<string> {
    if bots == [] then []
    else (if Listed(bots[0], ownerId) then [bots[0].userId] else []) + ActiveBots(bots[1..], ownerId)
  }

  function Deactivated(bots: seq<Bot>, ids: set<string>): seq<Bot> {
    seq(|bots|, i requires 0 <= i < |bots| => if bots[i].userId in ids then bots[i].(active := false) else bots[i])
  }

  predicate UniqueIds(bots: seq<Bot>) {
    forall i, j :: 0 <= i < j < |bots| ==> bots[i].userId != bots[j].userId
  }

  function Without(ids: seq<string>, gone: set<string>): seq<string> {
    if ids == [] then [] else (if ids[0] in gone then [] else [ids[0]]) + Without(ids[1..], gone)
  }

  /** Deactivating bots removes exactly these from the list. */
  lemma {:induction false} DeactivatedList(bots: seq<Bot>, ids: set<string>, ownerId: string)
    ensures ActiveBots(Deactivated(bots, ids), ownerId) == Without(ActiveBots(bots, ownerId), ids)
  {
    if bots != [] {
      DeactivatedList(bots[1..], ids, ownerId);
      var done := Deactivated(bots, ids);
      assert done[1..] == Deactivated(bots[1..], ids);
      var rest := ActiveBots(bots[1..], ownerId);
      if Listed(bots[0], ownerId) {
        assert ([bots[0].userId] + rest)[1..] == rest;
        assert Listed(done[0], ownerId) <==> bots[0].userId !in ids;
      } else {
        assert !Listed(done[0], ownerId);
        assert [] + rest == rest;
      }
    }
  }

  /** The list holds the listed bots and no others. */
  lemma {:induction false} ListHolds(bots: seq<Bot>, ownerId: string, i: nat)
    requires i < |bots| && Listed(bots[i], ownerId)
    ensures bots[i].userId in ActiveBots(bots, ownerId)
  {
    if i > 0 {
      assert bots[1..][i - 1] == bots[i];
      ListHolds(bots[1..], ownerId, i - 1);
    }
  }

  lemma {:induction false} HeldIsListed(bots: seq<Bot>, ownerId: string, id: string) returns (i: nat)
    requires id in ActiveBots(bots, ownerId)
    ensures i < |bots| && bots[i].userId == id && Listed(bots[i], ownerId)
  {
    if Listed(bots[0], ownerId) && bots[0].userId == id {
      i := 0;
    } else {
      var j := HeldIsListed(bots[1..], ownerId, id);
      i := j + 1;
    }
  }

  /** The list of an owner has exactly that owner's active bots, and the list without an owner all active bots. */
  lemma ListedIff(bots: seq<Bot>, ownerId: string, id: string)
    ensures id in ActiveBots(bots, ownerId) <==>
            exists i :: 0 <= i < |bots| && bots[i].userId == id && bots[i].active &&
              (ownerId != "" ==> bots[i].ownerId == ownerId)
  {
    if id in ActiveBots(bots, ownerId) {
      var i := HeldIsListed(bots, ownerId, id);
    }
    forall i: nat | i < |bots| && bots[i].userId == id && Listed(bots[i], ownerId)
      ensures id in ActiveBots(bots, ownerId)
    {
      ListHolds(bots, ownerId, i);
    }
  }

  lemma {:induction false} ListIsDistinct(bots: seq<Bot>, ownerId: string)
    requires UniqueIds(bots)
    ensures Distinct(ActiveBots(bots, ownerId))
  {
    if bots != [] {
      ListIsDistinct(bots[1..], ownerId);
      var rest := ActiveBots(bots[1..], ownerId);
      forall j | 0 <= j < |rest| ensures rest[j] != bots[0].userId {
        var i := HeldIsListed(bots[1..], ownerId, rest[j]);
        assert bots[i + 1].userId == rest[j];
      }
    }
  }

  // ---------- disabling all bots of a user ----------

  /** What goes wrong at some moment: owners whose list cannot be read, bots whose deactivation fails before
      their own bots are looked at, and bots that cannot be marked as inactive afterwards. */
  datatype Faults = Faults(unread: set<string>, before: set<string>, after: set<string>)

  /** The bots, and the number of moments gone by, which tells the faults apart. */
  datatype World = World(bots: seq<Bot>, moment: nat) {
    function Later(): World {
      World(bots, moment + 1)
    }

    function Mark(id: string): World {
      World(Deactivated(bots, {id}), moment + 1)
    }
  }

  /** A call has ended, with or without an error, or is still running. */
  datatype Outcome = Ended(world: World, ok: bool) | StillRunning

  function FirstPage(bots: seq<Bot>, ownerId: string): seq<string> {
    Page(ActiveBots(bots, ownerId), 0, DISABLE_PER_PAGE)
  }

  /** Some bots were deactivated. */
  ghost predicate Shrinks(before: seq<Bot>, after: seq<Bot>) {
    && |after| == |before|
    && (forall i :: 0 <= i < |before| ==> after[i] == before[i] || after[i] == before[i].(active := false))
  }

  /** Disabling the bots of an owner, followed for n rounds, those of calls within calls included. */
  function Disabled(w: World, ownerId: string, faults: nat -> Faults, n: nat): (r: Outcome)
    ensures r.Ended? ==> Shrinks(w.bots, r.world.bots) && r.world.moment > w.moment
    decreases n, 0
  {
    if n == 0 then StillRunning
    else if ownerId in faults(w.moment).unread then Ended(w.Later(), false)
    else
      var page := FirstPage(w.bots, ownerId);
      var r := PageDisabled(w.Later(), page, faults, n - 1);
      if r.Ended? && |page| == DISABLE_PER_PAGE then Disabled(r.world, ownerId, faults, n - 1) else r
  }

  /** Deactivating one bot: its user first, with all the bots it owns, and then its own row. */
  function Updated(w: World, id: string, faults: nat -> Faults, n: nat): (r: Outcome)
    ensures r.Ended? ==> Shrinks(w.bots, r.world.bots) && r.world.moment > w.moment
    decreases n, 1
  {
    if id in faults(w.moment).before then Ended(w.Later(), false)
    else
      var r := Disabled(w.Later(), id, faults, n);
      if r.StillRunning? then r
      else if id in faults(r.world.moment).after then Ended(r.world.Later(), false)
      else Ended(r.world.Mark(id), true)
  }

  function PageDisabled(w: World, ids: seq<string>, faults: nat -> Faults, n: nat): (r: Outcome)
    ensures r.Ended? ==> Shrinks(w.bots, r.world.bots) && r.world.moment >= w.moment && r.ok
    decreases n, 2 + |ids|
  {
    if ids == [] then Ended(w, true)
    else
      var r := Updated(w, ids[0], faults, n);
      if r.StillRunning? then r else PageDisabled(r.world, ids[1..], faults, n)
  }

  // ---------- who owns whom ----------

  /** The call for an owner calls itself for a bot. */
  predicate Calls(bots: seq<Bot>, f: Faults, ownerId: string, i: nat)
    requires i < |bots|
  {
    ownerId !in f.unread && Listed(bots[i], ownerId) && bots[i].userId !in f.before
  }

  ghost predicate Child(bots: seq<Bot>, f: Faults, ownerId: string, id: string) {
    exists i: nat :: i < |bots| && Calls(bots, f, ownerId, i) && bots[i].userId == id
  }

  ghost predicate IsPath(bots: seq<Bot>, f: Faults, p: seq<string>) {
    forall k :: 0 < k < |p| ==> Child(bots, f, p[k - 1], p[k])
  }

  ghost predicate IsPathTo(bots: seq<Bot>, f: Faults, p: seq<string>, from: string, to: string) {
    |p| > 0 && p[0] == from && p[|p| - 1] == to && IsPath(bots, f, p)
  }

  /** From the call for an owner, calls within calls come to that for another. */
  ghost predicate Reaches(bots: seq<Bot>, f: Faults, from: string, to: string) {
    exists p :: IsPathTo(bots, f, p, from, to)
  }

  ghost predicate OnCycle(bots: seq<Bot>, f: Faults, id: string) {
    exists c :: Child(bots, f, id, c) && Reaches(bots, f, c, id)
  }

  lemma ReachesItself(bots: seq<Bot>, f: Faults, id: string)
    ensures Reaches(bots, f, id, id)
  {
    assert IsPathTo(bots, f, [id], id, id);
  }

  lemma ReachesFromChild(bots: seq<Bot>, f: Faults, from: string, child: string, to: string)
    requires Child(bots, f, from, child) && Reaches(bots, f, child, to)
    ensures Reaches(bots, f, from, to)
  {
    var p :| IsPathTo(bots, f, p, child, to);
    var q := [from] + p;
    forall k | 0 < k < |q| ensures Child(bots, f, q[k - 1], q[k]) {
      assert q[k] == p[k - 1];
      assert k > 1 ==> q[k - 1] == p[k - 2];
    }
    assert IsPathTo(bots, f, q, from, to);
  }

  lemma ReachesOn(bots: seq<Bot>, f: Faults, from: string, to: string, child: string)
    requires Reaches(bots, f, from, to) && Child(bots, f, to, child)
    ensures Reaches(bots, f, from, child)
  {
    var p :| IsPathTo(bots, f, p, from, to);
    var q := p + [child];
    forall k | 0 < k < |q| ensures Child(bots, f, q[k - 1], q[k]) {
      assert q[k - 1] == p[k - 1];
    }
    assert IsPathTo(bots, f, q, from, child);
  }

  /** Everything that the calls of a set come to is in the set. */
  ghost predicate Closed(bots: seq<Bot>, f: Faults, ids: set<string>) {
    forall i: nat, id :: i < |bots| && id in ids && Calls(bots, f, id, i) ==> bots[i].userId in ids
  }

  lemma ClosedHolds(bots: seq<Bot>, f: Faults, ids: set<string>, from: string, to: string)
    requires Closed(bots, f, ids) && from in ids && Reaches(bots, f, from, to)
    ensures to in ids
  {
    var p :| IsPathTo(bots, f, p, from, to);
    PathStaysIn(bots, f, ids, p, |p| - 1);
  }

  lemma {:induction false} PathStaysIn(bots: seq<Bot>, f: Faults, ids: set<string>, p: seq<string>, k: nat)
    requires Closed(bots, f, ids) && IsPath(bots, f, p) && k < |p| && p[0] in ids
    ensures p[k] in ids
  {
    if k > 0 {
      PathStaysIn(bots, f, ids, p, k - 1);
      assert Child(bots, f, p[k - 1], p[k]);
    }
  }

  ghost function Ids(bots: seq<Bot>): set<string> {
    set i | 0 <= i < |bots| :: bots[i].userId
  }

  /** All that is reached, which is finite. */
  ghost function Reached(bots: seq<Bot>, f: Faults, from: string): set<string> {
    set id | id in Ids(bots) + {from} && Reaches(bots, f, from, id)
  }

  lemma ReachedIs(bots: seq<Bot>, f: Faults, from: string, to: string)
    ensures to in Reached(bots, f, from) <==> Reaches(bots, f, from, to)
  {
    if Reaches(bots, f, from, to) {
      assert Closed(bots, f, Ids(bots) + {from});
      ClosedHolds(bots, f, Ids(bots) + {from}, from, to);
    }
  }

  lemma ReachedIsClosed(bots: seq<Bot>, f: Faults, from: string)
    ensures Closed(bots, f, Reached(bots, f, from)) && from in Reached(bots, f, from)
  {
    ReachesItself(bots, f, from);
    ReachedIs(bots, f, from, from);
    var ids := Reached(bots, f, from);
    forall i: nat, id | i < |bots| && id in ids && Calls(bots, f, id, i) ensures bots[i].userId in ids {
      assert Child(bots, f, id, bots[i].userId);
      ReachesOn(bots, f, from, id, bots[i].userId);
      ReachedIs(bots, f, from, bots[i].userId);
    }
  }

  // ---------- fewer active bots ----------

  lemma ChildOfFewer(bots: seq<Bot>, fewer: seq<Bot>, f: Faults, ownerId: string, id: string)
    requires Shrinks(bots, fewer) && Child(fewer, f, ownerId, id)
    ensures Child(bots, f, ownerId, id)
  {
    var i: nat :| i < |fewer| && Calls(fewer, f, ownerId, i) && fewer[i].userId == id;
    assert Calls(bots, f, ownerId, i) && bots[i].userId == id;
  }

  lemma ReachesInFewer(bots: seq<Bot>, fewer: seq<Bot>, f: Faults, from: string, to: string)
    requires Shrinks(bots, fewer) && Reaches(fewer, f, from, to)
    ensures Reaches(bots, f, from, to)
  {
    var p :| IsPathTo(fewer, f, p, from, to);
    forall k | 0 < k < |p| ensures Child(bots, f, p[k - 1], p[k]) {
      ChildOfFewer(bots, fewer, f, p[k - 1], p[k]);
    }
    assert IsPathTo(bots, f, p, from, to);
  }

  // ---------- what a call that has ended leaves behind, the same faults persisting ----------

  function Persistent(f: Faults): nat -> Faults {
    (moment: nat) => f
  }

  predicate Works(f: Faults, id: string) {
    id !in f.before && id !in f.after
  }

  /** The active bots of an owner whose deactivation always fails. */
  ghost function Stuck(bots: seq<Bot>, ownerId: string, f: Faults): set<string> {
    set i | 0 <= i < |bots| && Listed(bots[i], ownerId) && !Works(f, bots[i].userId) :: bots[i].userId
  }

  /** The bot is on a list that one of these calls reads. */
  ghost predicate OnSomeList(bots: seq<Bot>, f: Faults, ids: set<string>, i: nat)
    requires i < |bots|
  {
    exists o :: o in ids && o !in f.unread && Listed(bots[i], o)
  }

  // What calls leave behind is told by the list of the owners for whom a call has ended, in the order of
  // the ends: a call ends after the calls it makes.

  ghost predicate EndInOrder(bots: seq<Bot>, f: Faults, log: seq<string>) {
    forall k, i: nat :: 0 <= k < |log| && i < |bots| && Calls(bots, f, log[k], i) ==> bots[i].userId in log[..k]
  }

  ghost predicate AllMarked(bots: seq<Bot>, after: seq<Bot>, f: Faults, log: seq<string>)
    requires |after| == |bots|
  {
    forall o, i: nat :: o in log && i < |bots| && o !in f.unread && Listed(bots[i], o) && Works(f, bots[i].userId) ==>
      !after[i].active
  }

  ghost predicate OnlyMarked(bots: seq<Bot>, after: seq<Bot>, f: Faults, ids: set<string>, log: seq<string>)
    requires |after| == |bots|
  {
    forall i: nat :: i < |bots| && bots[i].active && !after[i].active ==>
      Works(f, bots[i].userId) && bots[i].userId in log && OnSomeList(bots, f, ids, i)
  }

  ghost predicate FewStuck(bots: seq<Bot>, f: Faults, o: string) {
    o in f.unread || |Stuck(bots, o, f)| < DISABLE_PER_PAGE
  }

  /** The calls of the list, all among the given ones, lead from the bots before to those after. */
  ghost predicate Explains(bots: seq<Bot>, after: seq<Bot>, f: Faults, ids: set<string>, log: seq<string>) {
    && Shrinks(bots, after)
    && EndInOrder(bots, f, log)
    && AllMarked(bots, after, f, log)
    && OnlyMarked(bots, after, f, ids, log)
    && (forall o :: o in log ==> o in ids && FewStuck(bots, f, o))
  }

  lemma ShrinksFurther(a: seq<Bot>, b: seq<Bot>, c: seq<Bot>)
    requires Shrinks(a, b) && Shrinks(b, c)
    ensures Shrinks(a, c)
  {
  }

  lemma EndInOrderJoined(a: seq<Bot>, b: seq<Bot>, f: Faults, ids: set<string>, log: seq<string>, more: seq<string>)
    requires Shrinks(a, b) && OnlyMarked(a, b, f, ids, log)
    requires EndInOrder(a, f, log) && EndInOrder(b, f, more)
    ensures EndInOrder(a, f, log + more)
  {
    var both := log + more;
    forall k, i: nat | 0 <= k < |both| && i < |a| && Calls(a, f, both[k], i) ensures a[i].userId in both[..k] {
      if k < |log| {
        assert both[..k] == log[..k];
      } else {
        assert both[..k] == log + more[..k - |log|] && both[k] == more[k - |log|];
        if b[i].active {
          assert Calls(b, f, more[k - |log|], i);
        }
      }
    }
  }

  lemma AllMarkedJoined(a: seq<Bot>, b: seq<Bot>, c: seq<Bot>, f: Faults, log: seq<string>, more: seq<string>)
    requires Shrinks(a, b) && Shrinks(b, c)
    requires AllMarked(a, b, f, log) && AllMarked(b, c, f, more)
    ensures AllMarked(a, c, f, log + more)
  {
    forall o, i: nat | o in log + more && i < |a| && o !in f.unread && Listed(a[i], o) && Works(f, a[i].userId)
      ensures !c[i].active
    {
      if o !in log && b[i].active {
        assert o in more && Listed(b[i], o);
      }
    }
  }

  lemma OnlyMarkedJoined(a: seq<Bot>, b: seq<Bot>, c: seq<Bot>, f: Faults, ids: set<string>, log: seq<string>,
                         more: seq<string>)
    requires Shrinks(a, b) && Shrinks(b, c)
    requires OnlyMarked(a, b, f, ids, log) && OnlyMarked(b, c, f, ids, more)
    ensures OnlyMarked(a, c, f, ids, log + more)
  {
    forall i: nat | i < |a| && a[i].active && !c[i].active
      ensures Works(f, a[i].userId) && a[i].userId in log + more && OnSomeList(a, f, ids, i)
    {
      if b[i].active {
        assert OnSomeList(b, f, ids, i);
        var o :| o in ids && o !in f.unread && Listed(b[i], o);
        assert Listed(a[i], o);
      }
    }
  }

  lemma SameStuck(a: seq<Bot>, b: seq<Bot>, f: Faults, ids: set<string>, log: seq<string>, o: string)
    requires Shrinks(a, b) && OnlyMarked(a, b, f, ids, log)
    ensures Stuck(a, o, f) == Stuck(b, o, f)
  {
    forall i: nat | i < |a| && !Works(f, a[i].userId) ensures a[i] == b[i] {
    }
    forall id | id in Stuck(a, o, f) ensures id in Stuck(b, o, f) {
      var i: nat :| i < |a| && Listed(a[i], o) && !Works(f, a[i].userId) && a[i].userId == id;
      assert Listed(b[i], o);
    }
    forall id | id in Stuck(b, o, f) ensures id in Stuck(a, o, f) {
      var i: nat :| i < |b| && Listed(b[i], o) && !Works(f, b[i].userId) && b[i].userId == id;
      assert Listed(a[i], o);
    }
  }

  lemma ExplainsJoined(a: seq<Bot>, b: seq<Bot>, c: seq<Bot>, f: Faults, ids: set<string>, log: seq<string>,
                       more: seq<string>)
    requires Explains(a, b, f, ids, log) && Explains(b, c, f, ids, more)
    ensures Explains(a, c, f, ids, log + more)
  {
    ShrinksFurther(a, b, c);
    EndInOrderJoined(a, b, f, ids, log, more);
    AllMarkedJoined(a, b, c, f, log, more);
    OnlyMarkedJoined(a, b, c, f, ids, log, more);
    forall o | o in log + more ensures o in ids && FewStuck(a, f, o) {
      SameStuck(a, b, f, ids, log, o);
    }
  }

  lemma ClosedInFewer(bots: seq<Bot>, fewer: seq<Bot>, f: Faults, ids: set<string>)
    requires Shrinks(bots, fewer) && Closed(bots, f, ids)
    ensures Closed(fewer, f, ids)
  {
    forall i: nat, id | i < |fewer| && id in ids && Calls(fewer, f, id, i) ensures fewer[i].userId in ids {
      assert Calls(bots, f, id, i);
    }
  }

  /** The bots to be deactivated are on the lists that are read. */
  ghost predicate FromLists(bots: seq<Bot>, f: Faults, ids: set<string>, page: seq<string>) {
    forall i: nat :: i < |bots| && bots[i].active && bots[i].userId in page ==> OnSomeList(bots, f, ids, i)
  }

  lemma FromListsInFewer(bots: seq<Bot>, fewer: seq<Bot>, f: Faults, ids: set<string>, page: seq<string>)
    requires Shrinks(bots, fewer) && FromLists(bots, f, ids, page)
    ensures FromLists(fewer, f, ids, page)
  {
    forall i: nat | i < |fewer| && fewer[i].active && fewer[i].userId in page ensures OnSomeList(fewer, f, ids, i) {
      assert OnSomeList(bots, f, ids, i);
      var o :| o in ids && o !in f.unread && Listed(bots[i], o);
      assert Listed(fewer[i], o);
    }
  }

  lemma MarkExplained(a: seq<Bot>, b: seq<Bot>, f: Faults, ids: set<string>, log: seq<string>, id: string)
    requires Explains(a, b, f, ids, log) && id in log && Works(f, id) && FromLists(a, f, ids, [id])
    ensures Explains(a, Deactivated(b, {id}), f, ids, log)
  {
    var c := Deactivated(b, {id});
    assert Shrinks(b, c);
    ShrinksFurther(a, b, c);
    forall i: nat | i < |a| && a[i].active && !c[i].active
      ensures Works(f, a[i].userId) && a[i].userId in log && OnSomeList(a, f, ids, i)
    {
      assert a[i].userId == id || !b[i].active;
    }
  }

  lemma NothingExplained(bots: seq<Bot>, f: Faults, ids: set<string>)
    ensures Explains(bots, bots, f, ids, [])
  {
  }

  lemma UnreadExplained(bots: seq<Bot>, f: Faults, ids: set<string>, o: string)
    requires o in f.unread && o in ids
    ensures Explains(bots, bots, f, ids, [o])
  {
  }

  /** A page that is not full brings the call to its end. */
  lemma LastPageExplained(a: seq<Bot>, b: seq<Bot>, f: Faults, ids: set<string>, log: seq<string>, o: string)
    requires Explains(a, b, f, ids, log) && o in ids && |FirstPage(a, o)| < DISABLE_PER_PAGE
    requires forall id :: id in FirstPage(a, o) && id !in f.before ==> id in log
    requires forall i: nat :: i < |a| && a[i].userId in FirstPage(a, o) && Works(f, a[i].userId) ==> !b[i].active
    ensures Explains(a, b, f, ids, log + [o])
  {
    var both := log + [o];
    forall i: nat | i < |a| && Listed(a[i], o) ensures a[i].userId in FirstPage(a, o) {
      ListHolds(a, o, i);
    }
    forall k, i: nat | 0 <= k < |both| && i < |a| && Calls(a, f, both[k], i) ensures a[i].userId in both[..k] {
      assert both[..k] == log[..k];
      assert k == |log| ==> log[..k] == log;
    }
    StuckFitPage(a, f, o);
  }

  lemma StuckFitPage(bots: seq<Bot>, f: Faults, o: string)
    ensures Stuck(bots, o, f) <= Elements(ActiveBots(bots, o))
    ensures |Stuck(bots, o, f)| <= |ActiveBots(bots, o)|
  {
    var list := ActiveBots(bots, o);
    forall id | id in Stuck(bots, o, f) ensures id in Elements(list) {
      var i: nat :| i < |bots| && Listed(bots[i], o) && bots[i].userId == id;
      ListHolds(bots, o, i);
    }
    SubsetSize(Stuck(bots, o, f), Elements(list));
    ElementCount(list);
  }

  lemma {:induction false} DisabledLog(w: World, o: string, f: Faults, n: nat, ids: set<string>)
    returns (log: seq<string>)
    requires UniqueIds(w.bots) && Disabled(w, o, Persistent(f), n).Ended?
    requires Closed(w.bots, f, ids) && o in ids
    ensures Explains(w.bots, Disabled(w, o, Persistent(f), n).world.bots, f, ids, log) && o in log
    decreases n, 0
  {
    if o in f.unread {
      log := [o];
      UnreadExplained(w.bots, f, ids, o);
    } else {
      var page := FirstPage(w.bots, o);
      PageIsListed(w.bots, f, ids, o);
      var first := PageLog(w.Later(), page, f, n - 1, ids);
      var r := PageDisabled(w.Later(), page, Persistent(f), n - 1);
      if |page| < DISABLE_PER_PAGE {
        LastPageExplained(w.bots, r.world.bots, f, ids, first, o);
        log := first + [o];
      } else {
        ClosedInFewer(w.bots, r.world.bots, f, ids);
        var rest := DisabledLog(r.world, o, f, n - 1, ids);
        var after := Disabled(r.world, o, Persistent(f), n - 1).world.bots;
        ExplainsJoined(w.bots, r.world.bots, after, f, ids, first, rest);
        log := first + rest;
      }
    }
  }

  /** The bots of a page are listed, and the calls made for them stay in a closed set. */
  lemma PageIsListed(bots: seq<Bot>, f: Faults, ids: set<string>, o: string)
    requires UniqueIds(bots) && Closed(bots, f, ids) && o in ids && o !in f.unread
    ensures FromLists(bots, f, ids, FirstPage(bots, o))
    ensures forall id :: id in FirstPage(bots, o) && id !in f.before ==> id in ids
  {
    var page := FirstPage(bots, o);
    assert forall id :: id in page ==> id in ActiveBots(bots, o);
    forall i: nat | i < |bots| && bots[i].active && bots[i].userId in page ensures OnSomeList(bots, f, ids, i) {
      var j := HeldIsListed(bots, o, bots[i].userId);
      assert i == j;
    }
    forall id | id in page && id !in f.before ensures id in ids {
      var j := HeldIsListed(bots, o, id);
      assert Calls(bots, f, o, j);
    }
  }

  lemma {:induction false} UpdatedLog(w: World, id: string, f: Faults, n: nat, ids: set<string>)
    returns (log: seq<string>)
    requires UniqueIds(w.bots) && Updated(w, id, Persistent(f), n).Ended? && Closed(w.bots, f, ids)
    requires FromLists(w.bots, f, ids, [id]) && (id !in f.before ==> id in ids)
    ensures Explains(w.bots, Updated(w, id, Persistent(f), n).world.bots, f, ids, log)
    ensures id !in f.before ==> id in log
    ensures Works(f, id) ==> forall i: nat :: i < |w.bots| && w.bots[i].userId == id ==>
              !Updated(w, id, Persistent(f), n).world.bots[i].active
    decreases n, 1
  {
    if id in f.before {
      log := [];
      NothingExplained(w.bots, f, ids);
    } else {
      log := DisabledLog(w.Later(), id, f, n, ids);
      var r := Disabled(w.Later(), id, Persistent(f), n);
      if id !in f.after {
        MarkExplained(w.bots, r.world.bots, f, ids, log, id);
      }
    }
  }

  lemma {:induction false} PageLog(w: World, page: seq<string>, f: Faults, n: nat, ids: set<string>)
    returns (log: seq<string>)
    requires UniqueIds(w.bots) && PageDisabled(w, page, Persistent(f), n).Ended? && Closed(w.bots, f, ids)
    requires FromLists(w.bots, f, ids, page) && (forall id :: id in page && id !in f.before ==> id in ids)
    ensures Explains(w.bots, PageDisabled(w, page, Persistent(f), n).world.bots, f, ids, log)
    ensures forall id :: id in page && id !in f.before ==> id in log
    ensures forall i: nat :: i < |w.bots| && w.bots[i].userId in page && Works(f, w.bots[i].userId) ==>
              !PageDisabled(w, page, Persistent(f), n).world.bots[i].active
    decreases n, 2 + |page|
  {
    if page == [] {
      log := [];
      NothingExplained(w.bots, f, ids);
    } else {
      var first := UpdatedLog(w, page[0], f, n, ids);
      var w' := Updated(w, page[0], Persistent(f), n).world;
      ClosedInFewer(w.bots, w'.bots, f, ids);
      FromListsInFewer(w.bots, w'.bots, f, ids, page[1..]);
      var rest := PageLog(w', page[1..], f, n, ids);
      ExplainsJoined(w.bots, w'.bots, PageDisabled(w', page[1..], Persistent(f), n).world.bots, f, ids, first, rest);
      log := first + rest;
    }
  }

  lemma LogIsClosed(bots: seq<Bot>, f: Faults, log: seq<string>, k: nat)
    requires EndInOrder(bots, f, log) && k <= |log|
    ensures Closed(bots, f, Elements(log[..k]))
  {
    forall i: nat, id | i < |bots| && id in Elements(log[..k]) && Calls(bots, f, id, i)
      ensures bots[i].userId in Elements(log[..k])
    {
      var j :| 0 <= j < k && log[..k][j] == id;
      assert log[j] == id;
      var m :| 0 <= m < j && log[..j][m] == bots[i].userId;
      assert log[..k][m] == bots[i].userId;
    }
  }

  lemma {:induction false} LogHasNoCycle(bots: seq<Bot>, f: Faults, log: seq<string>, k: nat)
    requires EndInOrder(bots, f, log) && k < |log|
    ensures !OnCycle(bots, f, log[k])
    decreases k
  {
    if OnCycle(bots, f, log[k]) {
      var c :| Child(bots, f, log[k], c) && Reaches(bots, f, c, log[k]);
      LogIsClosed(bots, f, log, k);
      var m :| 0 <= m < k && log[..k][m] == c;
      assert c in Elements(log[..k]);
      ClosedHolds(bots, f, Elements(log[..k]), c, log[k]);
      var j :| 0 <= j < k && log[..k][j] == log[k];
      LogHasNoCycle(bots, f, log, j);
    }
  }

  /** Nothing that is reached lies on a cycle. */
  ghost predicate NoCycles(bots: seq<Bot>, f: Faults, o: string) {
    forall id :: Reaches(bots, f, o, id) ==> !OnCycle(bots, f, id)
  }

  ghost predicate FewStuckReached(bots: seq<Bot>, f: Faults, o: string) {
    forall id :: Reaches(bots, f, o, id) ==> FewStuck(bots, f, id)
  }

  lemma EndedHasNoCycle(w: World, o: string, f: Faults, n: nat)
    requires UniqueIds(w.bots) && Disabled(w, o, Persistent(f), n).Ended?
    ensures NoCycles(w.bots, f, o) && FewStuckReached(w.bots, f, o)
  {
    ReachedIsClosed(w.bots, f, o);
    var log := DisabledLog(w, o, f, n, Reached(w.bots, f, o));
    forall id | Reaches(w.bots, f, o, id) ensures !OnCycle(w.bots, f, id) && FewStuck(w.bots, f, id) {
      var k := ReachedIsLogged(w.bots, f, log, o, id);
      LogHasNoCycle(w.bots, f, log, k);
    }
  }

  lemma ReachedIsLogged(bots: seq<Bot>, f: Faults, log: seq<string>, o: string, id: string) returns (k: nat)
    requires EndInOrder(bots, f, log) && o in log && Reaches(bots, f, o, id)
    ensures k < |log| && log[k] == id
  {
    LogIsClosed(bots, f, log, |log|);
    assert log[..|log|] == log;
    ClosedHolds(bots, f, Elements(log), o, id);
    k :| 0 <= k < |log| && log[k] == id;
  }

  // ---------- when a call ends, whatever fails ----------

  lemma ChildReachesLess(bots: seq<Bot>, f: Faults, o: string, c: string)
    requires Child(bots, f, o, c) && !OnCycle(bots, f, o)
    ensures Reached(bots, f, c) < Reached(bots, f, o)
    ensures |Reached(bots, f, c)| < |Reached(bots, f, o)|
  {
    var below, all := Reached(bots, f, c), Reached(bots, f, o);
    forall id | id in below ensures id in all {
      ReachesFromChild(bots, f, o, c, id);
      ReachedIs(bots, f, o, id);
    }
    ReachedIs(bots, f, c, o);
    ReachedIsClosed(bots, f, o);
    assert o !in below;
    SubsetSize(below + {o}, all);
  }

  lemma NoCyclesBelow(bots: seq<Bot>, f: Faults, o: string, c: string)
    requires Child(bots, f, o, c) && NoCycles(bots, f, o)
    ensures NoCycles(bots, f, c)
  {
    forall id | Reaches(bots, f, c, id) ensures !OnCycle(bots, f, id) {
      ReachesFromChild(bots, f, o, c, id);
    }
  }

  lemma NoCyclesInFewer(bots: seq<Bot>, fewer: seq<Bot>, f: Faults, o: string)
    requires Shrinks(bots, fewer) && NoCycles(bots, f, o)
    ensures NoCycles(fewer, f, o)
  {
    forall id | Reaches(fewer, f, o, id) ensures !OnCycle(fewer, f, id) {
      ReachesInFewer(bots, fewer, f, o, id);
      if OnCycle(fewer, f, id) {
        var c :| Child(fewer, f, id, c) && Reaches(fewer, f, c, id);
        ChildOfFewer(bots, fewer, f, id, c);
        ReachesInFewer(bots, fewer, f, c, id);
      }
    }
  }

  lemma ReachedInFewer(bots: seq<Bot>, fewer: seq<Bot>, f: Faults, o: string)
    requires Shrinks(bots, fewer)
    ensures |Reached(fewer, f, o)| <= |Reached(bots, f, o)|
  {
    forall id | id in Reached(fewer, f, o) ensures id in Reached(bots, f, o) {
      ReachesInFewer(bots, fewer, f, o, id);
      ReachedIs(bots, f, o, id);
    }
    SubsetSize(Reached(fewer, f, o), Reached(bots, f, o));
  }

  lemma {:induction false} ListFits(bots: seq<Bot>, o: string)
    ensures |ActiveBots(bots, o)| <= |bots|
  {
    if bots != [] {
      ListFits(bots[1..], o);
    }
  }

  /** These faults are always there; others may come and go. */
  ghost predicate AtLeast(faults: nat -> Faults, f: Faults) {
    forall t: nat :: f.unread <= faults(t).unread && f.before <= faults(t).before
  }

  /** Each full page that is met within n rounds leaves fewer active bots on its list. */
  ghost predicate Progresses(w: World, o: string, faults: nat -> Faults, n: nat)
    decreases n, 0
  {
    n > 0 && o !in faults(w.moment).unread ==>
      var page := FirstPage(w.bots, o);
      var r := PageDisabled(w.Later(), page, faults, n - 1);
      && PageProgresses(w.Later(), page, faults, n - 1)
      && (r.Ended? && |page| == DISABLE_PER_PAGE ==>
            |ActiveBots(r.world.bots, o)| < |ActiveBots(w.bots, o)| && Progresses(r.world, o, faults, n - 1))
  }

  ghost predicate PageProgresses(w: World, ids: seq<string>, faults: nat -> Faults, n: nat)
    decreases n, 2 + |ids|
  {
    ids != [] ==>
      var r := Updated(w, ids[0], faults, n);
      && (ids[0] !in faults(w.moment).before ==> Progresses(w.Later(), ids[0], faults, n))
      && (r.Ended? ==> PageProgresses(r.world, ids[1..], faults, n))
  }

  /** Rounds that are enough for calls within calls of some depth, for a number of bots. */
  function Enough(depth: nat, size: nat): nat {
    if depth == 0 then 0 else Enough(depth - 1, size) + size + 1
  }

  /** The bots of a page whose own bots are looked at, with what is below them. */
  ghost predicate Shallow(bots: seq<Bot>, f: Faults, ids: seq<string>, depth: nat) {
    forall id :: id in ids && id !in f.before ==> NoCycles(bots, f, id) && |Reached(bots, f, id)| <= depth
  }

  lemma ShallowInFewer(bots: seq<Bot>, fewer: seq<Bot>, f: Faults, ids: seq<string>, depth: nat)
    requires Shrinks(bots, fewer) && Shallow(bots, f, ids, depth)
    ensures Shallow(fewer, f, ids, depth)
  {
    forall id | id in ids && id !in f.before ensures NoCycles(fewer, f, id) && |Reached(fewer, f, id)| <= depth {
      NoCyclesInFewer(bots, fewer, f, id);
      ReachedInFewer(bots, fewer, f, id);
    }
  }

  lemma FirstPageIsShallow(bots: seq<Bot>, f: Faults, o: string, depth: nat)
    requires NoCycles(bots, f, o) && |Reached(bots, f, o)| <= depth + 1 && o !in f.unread
    ensures Shallow(bots, f, FirstPage(bots, o), depth)
  {
    ReachesItself(bots, f, o);
    forall id | id in FirstPage(bots, o) && id !in f.before
      ensures NoCycles(bots, f, id) && |Reached(bots, f, id)| <= depth
    {
      var i := HeldIsListed(bots, o, id);
      assert Calls(bots, f, o, i) && Child(bots, f, o, id);
      NoCyclesBelow(bots, f, o, id);
      ChildReachesLess(bots, f, o, id);
    }
  }

  lemma SomethingReached(bots: seq<Bot>, f: Faults, o: string)
    ensures |Reached(bots, f, o)| > 0
  {
    ReachedIsClosed(bots, f, o);
  }

  /** Without cycles, and as long as every full page loses a bot, the call ends: within as many rounds as the
      list is long, but for what is below. */
  lemma {:induction false} ProgressTerminates(w: World, o: string, faults: nat -> Faults, f: Faults, depth: nat, n: nat)
    requires AtLeast(faults, f) && NoCycles(w.bots, f, o) && Progresses(w, o, faults, n)
    requires |Reached(w.bots, f, o)| <= depth + 1
    requires n > Enough(depth, |w.bots|) + |ActiveBots(w.bots, o)|
    ensures Disabled(w, o, faults, n).Ended?
    decreases n, 0
  {
    if o !in faults(w.moment).unread {
      var page := FirstPage(w.bots, o);
      FirstPageIsShallow(w.bots, f, o, depth);
      PageTerminates(w.Later(), page, faults, f, depth, n - 1);
      var r := PageDisabled(w.Later(), page, faults, n - 1);
      if |page| == DISABLE_PER_PAGE {
        NoCyclesInFewer(w.bots, r.world.bots, f, o);
        ReachedInFewer(w.bots, r.world.bots, f, o);
        ProgressTerminates(r.world, o, faults, f, depth, n - 1);
      }
    }
  }

  lemma {:induction false} PageTerminates(w: World, ids: seq<string>, faults: nat -> Faults, f: Faults, depth: nat,
                                          n: nat)
    requires AtLeast(faults, f) && Shallow(w.bots, f, ids, depth) && PageProgresses(w, ids, faults, n)
    requires n >= Enough(depth, |w.bots|)
    ensures PageDisabled(w, ids, faults, n).Ended?
    decreases n, 2 + |ids|
  {
    if ids != [] {
      if ids[0] !in faults(w.moment).before {
        SomethingReached(w.bots, f, ids[0]);
        ListFits(w.bots, ids[0]);
        ProgressTerminates(w.Later(), ids[0], faults, f, depth - 1, n);
      }
      var r := Updated(w, ids[0], faults, n);
      ShallowInFewer(w.bots, r.world.bots, f, ids[1..], depth);
      PageTerminates(r.world, ids[1..], faults, f, depth, n);
    }
  }

  // ---------- few stuck bots are enough for progress ----------

  lemma {:induction false} NotMoreListed(a: seq<Bot>, b: seq<Bot>, o: string)
    requires Shrinks(a, b)
    ensures |ActiveBots(b, o)| <= |ActiveBots(a, o)|
  {
    if a != [] {
      assert a[0] == b[0] || b[0] == a[0].(active := false);
      TailShrinks(a, b);
      NotMoreListed(a[1..], b[1..], o);
    }
  }

  lemma TailShrinks(a: seq<Bot>, b: seq<Bot>)
    requires Shrinks(a, b) && a != []
    ensures Shrinks(a[1..], b[1..])
  {
    forall i | 0 <= i < |a[1..]| ensures b[1..][i] == a[1..][i] || b[1..][i] == a[1..][i].(active := false) {
      assert a[1..][i] == a[i + 1] && b[1..][i] == b[i + 1];
    }
  }

  lemma {:induction false} FewerListed(a: seq<Bot>, b: seq<Bot>, o: string, i: nat)
    requires Shrinks(a, b) && i < |a| && Listed(a[i], o) && !b[i].active
    ensures |ActiveBots(b, o)| < |ActiveBots(a, o)|
  {
    TailShrinks(a, b);
    if i == 0 {
      NotMoreListed(a[1..], b[1..], o);
    } else {
      assert a[1..][i - 1] == a[i] && b[1..][i - 1] == b[i];
      FewerListed(a[1..], b[1..], o, i - 1);
      assert a[0] == b[0] || b[0] == a[0].(active := false);
    }
  }

  lemma FullPageHasOther(bots: seq<Bot>, f: Faults, o: string) returns (i: nat)
    requires UniqueIds(bots) && |Stuck(bots, o, f)| < DISABLE_PER_PAGE && |FirstPage(bots, o)| == DISABLE_PER_PAGE
    ensures i < |bots| && Listed(bots[i], o) && bots[i].userId in FirstPage(bots, o) && Works(f, bots[i].userId)
  {
    var page, list := FirstPage(bots, o), ActiveBots(bots, o);
    ListIsDistinct(bots, o);
    assert forall k :: 0 <= k < |page| ==> page[k] == list[k];
    ElementCount(page);
    if forall id :: id in page ==> !Works(f, id) {
      forall id | id in Elements(page) ensures id in Stuck(bots, o, f) {
        var j := HeldIsListed(bots, o, id);
      }
      SubsetSize(Elements(page), Stuck(bots, o, f));
    }
    var id :| id in page && Works(f, id);
    i := HeldIsListed(bots, o, id);
  }

  ghost predicate FewStuckIn(bots: seq<Bot>, f: Faults, ids: set<string>) {
    Closed(bots, f, ids) && forall o :: o in ids ==> FewStuck(bots, f, o)
  }

  lemma FewStuckAfterwards(a: seq<Bot>, b: seq<Bot>, f: Faults, ids: set<string>, log: seq<string>)
    requires Explains(a, b, f, ids, log) && FewStuckIn(a, f, ids)
    ensures FewStuckIn(b, f, ids)
  {
    ClosedInFewer(a, b, f, ids);
    forall o | o in ids ensures FewStuck(b, f, o) {
      SameStuck(a, b, f, ids, log, o);
    }
  }

  lemma {:induction false} FewStuckProgress(w: World, o: string, f: Faults, n: nat, ids: set<string>)
    requires UniqueIds(w.bots) && FewStuckIn(w.bots, f, ids) && o in ids
    ensures Progresses(w, o, Persistent(f), n)
    decreases n, 0
  {
    if n > 0 && o !in f.unread {
      var page := FirstPage(w.bots, o);
      PageIsListed(w.bots, f, ids, o);
      FewStuckPage(w.Later(), page, f, n - 1, ids);
      var r := PageDisabled(w.Later(), page, Persistent(f), n - 1);
      if r.Ended? && |page| == DISABLE_PER_PAGE {
        var log := PageLog(w.Later(), page, f, n - 1, ids);
        var i := FullPageHasOther(w.bots, f, o);
        FewerListed(w.bots, r.world.bots, o, i);
        FewStuckAfterwards(w.bots, r.world.bots, f, ids, log);
        FewStuckProgress(r.world, o, f, n - 1, ids);
      }
    }
  }

  lemma {:induction false} FewStuckPage(w: World, page: seq<string>, f: Faults, n: nat, ids: set<string>)
    requires UniqueIds(w.bots) && FewStuckIn(w.bots, f, ids)
    requires FromLists(w.bots, f, ids, page) && (forall id :: id in page && id !in f.before ==> id in ids)
    ensures PageProgresses(w, page, Persistent(f), n)
    decreases n, 2 + |page|
  {
    if page != [] {
      if page[0] !in f.before {
        FewStuckProgress(w.Later(), page[0], f, n, ids);
      }
      var r := Updated(w, page[0], Persistent(f), n);
      if r.Ended? {
        var log := UpdatedLog(w, page[0], f, n, ids);
        FewStuckAfterwards(w.bots, r.world.bots, f, ids, log);
        FromListsInFewer(w.bots, r.world.bots, f, ids, page[1..]);
        FewStuckPage(r.world, page[1..], f, n, ids);
      }
    }
  }

  // ---------- main results ----------

  /** With the same faults persisting, disabling the bots of an owner ends if and only if nobody the calls come to
      lies on a cycle of calls, and each of them has fewer than a page of bots that cannot be deactivated. */
  lemma DisablingEndsIff(w: World, o: string, f: Faults)
    requires UniqueIds(w.bots)
    ensures (exists n :: Disabled(w, o, Persistent(f), n).Ended?) <==>
            NoCycles(w.bots, f, o) && FewStuckReached(w.bots, f, o)
  {
    if n :| Disabled(w, o, Persistent(f), n).Ended? {
      EndedHasNoCycle(w, o, f, n);
    }
    if NoCycles(w.bots, f, o) && FewStuckReached(w.bots, f, o) {
      var ids := Reached(w.bots, f, o);
      ReachedIsClosed(w.bots, f, o);
      var n := Enough(|ids|, |w.bots|) + |ActiveBots(w.bots, o)| + 1;
      FewStuckProgress(w, o, f, n, ids);
      ProgressTerminates(w, o, Persistent(f), f, |ids|, n);
    }
  }

  /** It reports an error exactly if the list cannot be read; bots that cannot be deactivated are no error. */
  lemma {:induction false} DisabledOkIff(w: World, o: string, f: Faults, n: nat)
    requires Disabled(w, o, Persistent(f), n).Ended?
    ensures Disabled(w, o, Persistent(f), n).ok <==> o !in f.unread
    decreases n
  {
    if o !in f.unread {
      var page := FirstPage(w.bots, o);
      if |page| == DISABLE_PER_PAGE {
        DisabledOkIff(PageDisabled(w.Later(), page, Persistent(f), n - 1).world, o, f, n - 1);
      }
    }
  }

  /** Once the call has ended, exactly these are inactive now: the bots that can be deactivated, and are on
      the list of somebody the calls came to. */
  lemma DisabledOutcome(w: World, o: string, f: Faults, n: nat, i: nat)
    requires UniqueIds(w.bots) && Disabled(w, o, Persistent(f), n).Ended? && i < |w.bots|
    ensures var after := Disabled(w, o, Persistent(f), n).world.bots;
            |after| == |w.bots| &&
            after[i] == if Works(f, w.bots[i].userId) && OnSomeList(w.bots, f, Reached(w.bots, f, o), i)
                        then w.bots[i].(active := false) else w.bots[i]
    ensures Disabled(w, o, Persistent(f), n).ok <==> o !in f.unread
  {
    DisabledOkIff(w, o, f, n);
    var bots, after, ids := w.bots, Disabled(w, o, Persistent(f), n).world.bots, Reached(w.bots, f, o);
    ReachedIsClosed(bots, f, o);
    var log := DisabledLog(w, o, f, n, ids);
    if Works(f, bots[i].userId) && OnSomeList(bots, f, ids, i) {
      var x :| x in ids && x !in f.unread && Listed(bots[i], x);
      var k := ReachedIsLogged(bots, f, log, o, x);
      assert !after[i].active;
    }
  }

  /** Likewise the deactivation of one bot: the bot, and the bots of whom the call for it came to. */
  lemma UpdatedOutcome(w: World, id: string, f: Faults, n: nat, i: nat)
    requires UniqueIds(w.bots) && Updated(w, id, Persistent(f), n).Ended? && i < |w.bots|
    ensures var after := Updated(w, id, Persistent(f), n).world.bots;
            |after| == |w.bots| &&
            after[i] == if id !in f.before && Works(f, w.bots[i].userId) &&
                           (w.bots[i].userId == id || OnSomeList(w.bots, f, Reached(w.bots, f, id), i))
                        then w.bots[i].(active := false) else w.bots[i]
    ensures Updated(w, id, Persistent(f), n).ok <==> Works(f, id)
  {
    if id !in f.before {
      DisabledOutcome(w.Later(), id, f, n, i);
    }
  }

  // ---------- without faults ----------

  const NOTHING_FAILS := Faults({}, {}, {})

  /** If nothing fails, the call ends if and only if no bot it comes to, and not the owner itself, lies on a cycle
      of owners, each owning the next. */
  lemma DisablingEndsIffNoCycle(w: World, o: string)
    requires UniqueIds(w.bots)
    ensures (exists n :: Disabled(w, o, Persistent(NOTHING_FAILS), n).Ended?) <==> NoCycles(w.bots, NOTHING_FAILS, o)
  {
    forall id ensures FewStuck(w.bots, NOTHING_FAILS, id) {
      assert Stuck(w.bots, id, NOTHING_FAILS) == {};
    }
    DisablingEndsIff(w, o, NOTHING_FAILS);
  }

  /** Each bot has one owner, so whoever owns a bot on a cycle is on it too. */
  lemma OwnerIsOnCycle(bots: seq<Bot>, f: Faults, o: string, id: string)
    requires UniqueIds(bots) && "" !in Ids(bots) && o != ""
    requires Child(bots, f, o, id) && OnCycle(bots, f, id)
    ensures OnCycle(bots, f, o)
  {
    var c :| Child(bots, f, id, c) && Reaches(bots, f, c, id);
    var p :| IsPathTo(bots, f, p, c, id);
    var owner := if |p| == 1 then id else p[|p| - 2];
    assert Child(bots, f, owner, id);
    assert owner in Ids(bots) by {
      assert |p| > 2 ==> Child(bots, f, p[|p| - 3], p[|p| - 2]);
    }
    SameOwner(bots, f, o, owner, id);
    if |p| > 1 {
      assert IsPathTo(bots, f, p[..|p| - 1], c, o);
      ReachesFromChild(bots, f, id, c, o);
    }
  }

  lemma SameOwner(bots: seq<Bot>, f: Faults, a: string, b: string, id: string)
    requires UniqueIds(bots) && a != "" && b != "" && Child(bots, f, a, id) && Child(bots, f, b, id)
    ensures a == b
  {
    var i: nat :| i < |bots| && Calls(bots, f, a, i) && bots[i].userId == id;
    var j: nat :| j < |bots| && Calls(bots, f, b, j) && bots[j].userId == id;
    assert i == j;
  }

  lemma {:induction false} PathComesFromCycle(bots: seq<Bot>, f: Faults, p: seq<string>, k: nat)
    requires UniqueIds(bots) && "" !in Ids(bots) && IsPath(bots, f, p) && k < |p| && p[0] != ""
    requires OnCycle(bots, f, p[k])
    ensures OnCycle(bots, f, p[0])
  {
    if k > 0 {
      assert Child(bots, f, p[k - 1], p[k]);
      assert k > 1 ==> Child(bots, f, p[k - 2], p[k - 1]);
      OwnerIsOnCycle(bots, f, p[k - 1], p[k]);
      PathComesFromCycle(bots, f, p, k - 1);
    }
  }

  /** So a named owner comes to a cycle only by being on it. */
  lemma NoCyclesIff(bots: seq<Bot>, f: Faults, o: string)
    requires UniqueIds(bots) && "" !in Ids(bots) && o != ""
    ensures NoCycles(bots, f, o) <==> !OnCycle(bots, f, o)
  {
    ReachesItself(bots, f, o);
    forall id | Reaches(bots, f, o, id) && OnCycle(bots, f, id) ensures OnCycle(bots, f, o) {
      var p :| IsPathTo(bots, f, p, o, id);
      PathComesFromCycle(bots, f, p, |p| - 1);
    }
  }

  lemma UsersAreOnNoCycle(bots: seq<Bot>, f: Faults, o: string)
    requires UniqueIds(bots) && "" !in Ids(bots) && o != "" && o !in Ids(bots)
    ensures NoCycles(bots, f, o)
  {
    if OnCycle(bots, f, o) {
      var c :| Child(bots, f, o, c) && Reaches(bots, f, c, o);
      assert Closed(bots, f, Ids(bots));
      ClosedHolds(bots, f, Ids(bots), c, o);
    }
    NoCyclesIff(bots, f, o);
  }

  /** In particular the call always ends for a user who is no bot. */
  lemma DisablingEndsForUsers(w: World, o: string)
    requires UniqueIds(w.bots) && "" !in Ids(w.bots) && o != "" && o !in Ids(w.bots)
    ensures exists n :: Disabled(w, o, Persistent(NOTHING_FAILS), n).Ended?
  {
    UsersAreOnNoCycle(w.bots, NOTHING_FAILS, o);
    DisablingEndsIffNoCycle(w, o);
  }

  /** A user turned into a bot owns itself; deactivating it never ends. */
  lemma SelfOwnedBot(n: nat)
    ensures Disabled(World([Bot("b", "b", true)], 0), "b", Persistent(NOTHING_FAILS), n).StillRunning?
  {
    var bots := [Bot("b", "b", true)];
    assert Calls(bots, NOTHING_FAILS, "b", 0) && bots[0].userId == "b";
    assert Child(bots, NOTHING_FAILS, "b", "b");
    ReachesItself(bots, NOTHING_FAILS, "b");
    if Disabled(World(bots, 0), "b", Persistent(NOTHING_FAILS), n).Ended? {
      EndedHasNoCycle(World(bots, 0), "b", NOTHING_FAILS, n);
    }
  }

  /** The bots of a user's bot are deactivated with it. */
  lemma BotOfBot(x: string, y: string, u: string)
    requires "" !in {x, y, u} && |{x, y, u}| == 3
    ensures var w := World([Bot(x, u, true), Bot(y, x, true)], 0);
            exists n :: Disabled(w, u, Persistent(NOTHING_FAILS), n).Ended? &&
              Disabled(w, u, Persistent(NOTHING_FAILS), n).world.bots == [Bot(x, u, false), Bot(y, x, false)]
  {
    var w := World([Bot(x, u, true), Bot(y, x, true)], 0);
    DisablingEndsForUsers(w, u);
    var n :| Disabled(w, u, Persistent(NOTHING_FAILS), n).Ended?;
    assert Listed(w.bots[0], u) && Listed(w.bots[1], x) && Calls(w.bots, NOTHING_FAILS, u, 0);
    assert Child(w.bots, NOTHING_FAILS, u, x);
    ReachesItself(w.bots, NOTHING_FAILS, u);
    ReachesOn(w.bots, NOTHING_FAILS, u, u, x);
    ReachedIs(w.bots, NOTHING_FAILS, u, u);
    ReachedIs(w.bots, NOTHING_FAILS, u, x);
    DisabledOutcome(w, u, NOTHING_FAILS, n, 0);
    DisabledOutcome(w, u, NOTHING_FAILS, n, 1);
  }

  // ---------- bots that cannot be deactivated ----------

  /** Once a call whose list can be read has ended, of the owner's bots exactly those are still active whose
      deactivation always fails. */
  lemma DisablingLeavesStuck(w: World, o: string, f: Faults, n: nat)
    requires UniqueIds(w.bots) && o !in f.unread && Disabled(w, o, Persistent(f), n).Ended?
    ensures Elements(ActiveBots(Disabled(w, o, Persistent(f), n).world.bots, o)) == Stuck(w.bots, o, f)
  {
    var bots, after := w.bots, Disabled(w, o, Persistent(f), n).world.bots;
    ReachedIsClosed(bots, f, o);
    forall i: nat | i < |bots| ensures Listed(after[i], o) <==> Listed(bots[i], o) && !Works(f, bots[i].userId) {
      DisabledOutcome(w, o, f, n, i);
      assert Listed(bots[i], o) ==> OnSomeList(bots, f, Reached(bots, f, o), i);
    }
    forall id | id in ActiveBots(after, o) ensures id in Stuck(bots, o, f) {
      var i := HeldIsListed(after, o, id);
    }
    forall id | id in Stuck(bots, o, f) ensures id in ActiveBots(after, o) {
      var i: nat :| i < |bots| && Listed(bots[i], o) && !Works(f, bots[i].userId) && bots[i].userId == id;
      ListHolds(after, o, i);
    }
  }

  /** Twenty active bots of a user, none of which can be marked as inactive: the loop never ends. */
  lemma TwentyStuckBots(n: nat)
    ensures var bots := BotsOf("owner", 20);
            UniqueIds(bots) &&
            Disabled(World(bots, 0), "owner", Persistent(NoneMarked(bots, "owner")), n).StillRunning?
  {
    var bots := BotsOf("owner", 20);
    var f := NoneMarked(bots, "owner");
    StuckBots("owner", 20);
    if Disabled(World(bots, 0), "owner", Persistent(f), n).Ended? {
      EndedHasNoCycle(World(bots, 0), "owner", f, n);
      ReachesItself(bots, f, "owner");
    }
  }

  /** With nineteen it ends. */
  lemma NineteenStuckBots()
    ensures var bots := BotsOf("owner", 19);
            exists n :: Disabled(World(bots, 0), "owner", Persistent(NoneMarked(bots, "owner")), n).Ended?
  {
    var bots := BotsOf("owner", 19);
    var f := NoneMarked(bots, "owner");
    StuckBots("owner", 19);
    forall id ensures FewStuck(bots, f, id) {
      StuckFitPage(bots, f, id);
      ListFits(bots, id);
    }
    UsersAreOnNoCycle(bots, f, "owner");
    DisablingEndsIff(World(bots, 0), "owner", f);
  }

  /** Some active bots of an owner, with ids that are no names of users. */
  function BotsOf(owner: string, count: nat): seq<Bot> {
    seq(count, (i: nat) => Bot(seq(i + 1, _ => 'x'), owner, true))
  }

  function NoneMarked(bots: seq<Bot>, owner: string): Faults {
    Faults({}, {}, Elements(ActiveBots(bots, owner)))
  }

  lemma StuckBots(owner: string, count: nat)
    ensures var bots := BotsOf(owner, count);
            && UniqueIds(bots) && |Stuck(bots, owner, NoneMarked(bots, owner))| == count
            && (forall id :: id in Ids(bots) ==> id != "" && id[0] == 'x')
  {
    var bots := BotsOf(owner, count);
    forall i, j | 0 <= i < j < |bots| ensures bots[i].userId != bots[j].userId {
      assert |bots[i].userId| == i + 1 && |bots[j].userId| == j + 1;
    }
    var ids, f := ActiveBots(bots, owner), NoneMarked(bots, owner);
    AllListed(bots, owner);
    ListIsDistinct(bots, owner);
    ElementCount(ids);
    forall id | id in Elements(ids) ensures id in Stuck(bots, owner, f) {
      var i := HeldIsListed(bots, owner, id);
    }
    StuckFitPage(bots, f, owner);
    SubsetSize(Elements(ids), Stuck(bots, owner, f));
  }

  lemma {:induction false} AllListed(bots: seq<Bot>, ownerId: string)
    requires forall i :: 0 <= i < |bots| ==> Listed(bots[i], ownerId)
    ensures |ActiveBots(bots, ownerId)| == |bots|
  {
    if bots != [] {
      AllListed(bots[1..], ownerId);
    }
  }

  /** A bot that owns no active bots is taken from the lists, and nothing else. */
  lemma PlainBotUpdated(w: World, id: string, faults: nat -> Faults, n: nat, ownerId: string)
    requires ActiveBots(w.bots, id) == [] && Updated(w, id, faults, n).Ended? && Updated(w, id, faults, n).ok
    ensures ActiveBots(Updated(w, id, faults, n).world.bots, ownerId) == Without(ActiveBots(w.bots, ownerId), {id})
  {
    assert FirstPage(w.bots, id) == [];
    assert Disabled(w.Later(), id, faults, n).world.bots == w.bots;
    DeactivatedList(w.bots, {id}, ownerId);
  }

  // ---------- more rounds ----------

  /** A call that has ended within some rounds ends in the same way when followed for longer. */
  lemma {:induction false} MoreRoundsAgree(w: World, o: string, faults: nat -> Faults, n: nat)
    requires Disabled(w, o, faults, n).Ended?
    ensures Disabled(w, o, faults, n + 1) == Disabled(w, o, faults, n)
    decreases n, 0
  {
    if o !in faults(w.moment).unread {
      var page := FirstPage(w.bots, o);
      MoreRoundsForPage(w.Later(), page, faults, n - 1);
      if |page| == DISABLE_PER_PAGE {
        MoreRoundsAgree(PageDisabled(w.Later(), page, faults, n - 1).world, o, faults, n - 1);
      }
    }
  }

  lemma {:induction false} MoreRoundsForPage(w: World, ids: seq<string>, faults: nat -> Faults, n: nat)
    requires PageDisabled(w, ids, faults, n).Ended?
    ensures PageDisabled(w, ids, faults, n + 1) == PageDisabled(w, ids, faults, n)
    decreases n, 2 + |ids|
  {
    if ids != [] {
      if ids[0] !in faults(w.moment).before {
        MoreRoundsAgree(w.Later(), ids[0], faults, n);
      }
      assert Updated(w, ids[0], faults, n + 1) == Updated(w, ids[0], faults, n);
      MoreRoundsForPage(Updated(w, ids[0], faults, n).world, ids[1..], faults, n);
    }
  }

  // ---------- the loops ----------

  /** One round of the loop, for a call that ends. */
  lemma RoundOfCall(w: World, o: string, faults: nat -> Faults, n: nat)
    requires Disabled(w, o, faults, n).Ended?
    ensures n > 0
    ensures o in faults(w.moment).unread ==> Disabled(w, o, faults, n) == Ended(w.Later(), false)
    ensures o !in faults(w.moment).unread ==>
              var page := FirstPage(w.bots, o);
              var r := PageDisabled(w.Later(), page, faults, n - 1);
              r.Ended? &&
              Disabled(w, o, faults, n) ==
                if |page| == DISABLE_PER_PAGE then Disabled(r.world, o, faults, n - 1) else Ended(r.world, true)
  {
  }

  class BotStore {
    var bots: seq<Bot>
    var moment: nat

    constructor (bots: seq<Bot>)
      ensures this.bots == bots && moment == 0
    {
      this.bots, moment := bots, 0;
    }

    function Now(): World
      reads this
    {
      World(bots, moment)
    }

    /** Deactivates a bot: its user, with all the bots it owns, and then its own row. */
    method UpdateBotActive(botUserId: string, faults: nat -> Faults, ghost n: nat) returns (ok: bool)
      requires Updated(Now(), botUserId, faults, n).Ended?
      modifies this
      ensures Ended(Now(), ok) == Updated(old(Now()), botUserId, faults, n)
      decreases n, 1
    {
      var fault := faults(moment);
      moment := moment + 1;
      if botUserId in fault.before {
        return false;
      }
      var _ := DisableUserBots(botUserId, faults, n);
      fault := faults(moment);
      moment := moment + 1;
      if botUserId in fault.after {
        return false;
      }
      bots := Deactivated(bots, {botUserId});
      ok := true;
    }

    /** One pass of the loop over a page. */
    method DisablePage(page: seq<string>, faults: nat -> Faults, ghost n: nat)
      requires PageDisabled(Now(), page, faults, n).Ended?
      modifies this
      ensures Ended(Now(), true) == PageDisabled(old(Now()), page, faults, n)
      decreases n, 2 + |page|
    {
      ghost var goal := PageDisabled(Now(), page, faults, n);
      var i := 0;
      assert page[0..] == page;
      while i < |page|
        invariant 0 <= i <= |page| && PageDisabled(Now(), page[i..], faults, n) == goal
      {
        assert page[i..][1..] == page[i + 1..];
        var _ := UpdateBotActive(page[i], faults, n);
        i := i + 1;
      }
    }

    /** Deactivates the bots of a user, always on the first page of those still active, until a
        page is not full or cannot be read. The call has to end within some number of rounds. */
    method DisableUserBots(userId: string, faults: nat -> Faults, ghost n: nat) returns (ok: bool)
      requires Disabled(Now(), userId, faults, n).Ended?
      modifies this
      ensures Ended(Now(), ok) == Disabled(old(Now()), userId, faults, n)
      decreases n, 0
    {
      ghost var goal := Disabled(Now(), userId, faults, n);
      ghost var left: nat := n;
      while true
        invariant left <= n && goal.Ended? && Disabled(Now(), userId, faults, left) == goal
        decreases left
      {
        RoundOfCall(Now(), userId, faults, left);
        var fault := faults(moment);
        moment := moment + 1;
        if userId in fault.unread {
          return false;
        }
        var userBots := FirstPage(bots, userId);
        left := left - 1;
        DisablePage(userBots, faults, left);
        if |userBots| == DISABLE_PER_PAGE {
          continue;
        }
        break;
      }
      ok := true;
    }
  }

  /** The loops that gather all bots of an owner and all system administrators: the pages
      joined are the whole list. */
  method CollectPages<T>(list: seq<T>, perPage: nat) returns (all: seq<T>, fetches: nat)
    requires perPage > 0
    ensures all == list
    ensures fetches == |list| / perPage + 1
  {
    all, fetches := [], 0;
    var page := 0;
    while true
      invariant fetches == page && page * perPage <= |list| && all == list[..page * perPage]
      decreases |list| - page * perPage
    {
      var items := Page(list, page, perPage);
      fetches := fetches + 1;
      PageFollows(list, page, perPage);
      all := all + items;
      if |items| < perPage {
        LastPage(|list|, page, perPage);
        assert all == list;
        break;
      }
      page := page + 1;
    }
  }

  lemma PageFollows<T>(list: seq<T>, page: nat, perPage: nat)
    requires perPage > 0 && page * perPage <= |list|
    ensures list[..page * perPage] + Page(list, page, perPage) == list[..Min((page + 1) * perPage, |list|)]
    ensures |Page(list, page, perPage)| == Min(perPage, |list| - page * perPage)
    ensures (page + 1) * perPage == page * perPage + perPage
  {
  }

  lemma LastPage(n: nat, page: nat, perPage: nat)
    requires perPage > 0 && page * perPage <= n < page * perPage + perPage
    ensures n / perPage == page
  {
    var q := n / perPage;
    assert q * perPage <= n < q * perPage + perPage;
    if q > page {
      PagesBefore(page, q, perPage);
    } else if q < page {
      PagesBefore(q, page, perPage);
    }
  }

  lemma PagesBefore(page: nat, later: nat, perPage: nat)
    requires page < later
    ensures page * perPage + perPage <= later * perPage
  {
    assert (later - page - 1) * perPage >= 0;
    assert later * perPage == page * perPage + perPage + (later - page - 1) * perPage;
  }
}

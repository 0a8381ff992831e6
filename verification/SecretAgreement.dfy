/** Servers of a cluster agree on one secret through a table whose save is insert-only.
    K is the type of the key: the post-action cookie secret or the asymmetric signing key. */
module SecretAgreement {
  import opened Wrappers

  /** What decoding the value of the row yields: a document with its key or without, null, or an error. */
  datatype Stored<+K> = Document(key: K) | Keyless | NullDocument | Malformed

  /** Which keys are accepted, and whether a document without its key is dereferenced: it is for
      the signing key; for the cookie secret the server succeeds without a secret. */
  datatype Kind<!K> = Kind(accepts: K -> bool, keylessPanics: bool)

  /** Where a server is in the ensure function; the last three say how its last call ended. */
  datatype Status<+K> =
    | Idle
    | Generating
    | Saving(candidate: K)
    | Rereading
    | Succeeded
    | Failed
    | Panicked

  datatype Server<+K> = Server(key: Option<K>, status: Status<K>)

  /** An insert can be refused or fail without effect, fail after taking effect, or work. */
  datatype SaveFault = NoFault | FailsBefore | FailsAfter

  /** The atomic operations of one server. A read fails on a store error, and also when a
      replica does not show the row yet. */
  datatype Operation<+K> =
    | Read(fails: bool)
    | Generate(candidate: Option<K>)
    | Save(fault: SaveFault)
    | Reread(fails: bool)
    | Crash

  /** The document found or inserted is taken into use. */
  function Choose<K>(kind: Kind<K>, server: Server<K>, found: Stored<K>): Server<K>
    requires found.Document? || found.Keyless?
  {
    if found.Keyless? then server.(status := if kind.keylessPanics then Panicked else Succeeded)
    else if kind.accepts(found.key) then Server(Some(found.key), Succeeded)
    else server.(status := Failed)
  }

  predicate CanCall<K>(server: Server<K>) {
    server.status.Idle? || server.status.Succeeded? || server.status.Failed?
  }

  function Insert<K>(row: Option<Stored<K>>, key: K): Option<Stored<K>> {
    if row.None? then Some(Document(key)) else row
  }

  /** One operation of one server on its own state and the row; an operation that is not
      the next one of the server's program changes nothing. */
  function Operate<K>(kind: Kind<K>, server: Server<K>, row: Option<Stored<K>>, op: Operation<K>)
    : (Server<K>, Option<Stored<K>>)
  {
    match op
    case Read(fails) =>
      if !CanCall(server) then (server, row)
      else if server.key.Some? then (server.(status := Succeeded), row)
      else if fails || row.None? || row.value.NullDocument? then (server.(status := Generating), row)
      else if row.value.Malformed? then (server.(status := Failed), row)
      else (Choose(kind, server, row.value), row)
    case Generate(candidate) =>
      if !server.status.Generating? then (server, row)
      else if candidate.Some? && kind.accepts(candidate.value) then (server.(status := Saving(candidate.value)), row)
      else (server.(status := Failed), row)
    case Save(fault) =>
      if !server.status.Saving? then (server, row)
      else
        var key := server.status.candidate;
        var row' := if fault.FailsBefore? then row else Insert(row, key);
        if fault.NoFault? && row.None? then (Choose(kind, server, Document(key)), row')
        else (server.(status := Rereading), row')
    case Reread(fails) =>
      if !server.status.Rereading? then (server, row)
      else if fails || row.None? || row.value.Malformed? then (server.(status := Failed), row)
      else if row.value.NullDocument? then (server.(status := Panicked), row)
      else (Choose(kind, server, row.value), row)
    case Crash => (Server(None, Idle), row)
  }

  // ---------- any number of servers ----------

  datatype Cluster<+K> = Cluster(row: Option<Stored<K>>, servers: map<string, Server<K>>)

  datatype Event<+K> = Event(server: string, op: Operation<K>)

  function ServerOf<K>(c: Cluster<K>, id: string): Server<K> {
    if id in c.servers then c.servers[id] else Server(None, Idle)
  }

  function Next<K>(kind: Kind<K>, c: Cluster<K>, e: Event<K>): Cluster<K> {
    var (server, row) := Operate(kind, ServerOf(c, e.server), c.row, e.op);
    Cluster(row, c.servers[e.server := server])
  }

  function Run<K>(kind: Kind<K>, c: Cluster<K>, events: seq<Event<K>>): Cluster<K>
    decreases |events|
  {
    if events == [] then c else Run(kind, Next(kind, c, events[0]), events[1..])
  }

  /** A cluster that has just started: no server holds a key, the row is whatever it is. */
  function Booted<K>(row: Option<Stored<K>>): Cluster<K> {
    Cluster(row, map[])
  }

  ghost predicate GeneratedIn<K>(events: seq<Event<K>>, key: K) {
    exists i :: 0 <= i < |events| && events[i].op == Generate(Some(key))
  }

  /** Every key in use is the stored one. */
  ghost predicate Agreed<K>(kind: Kind<K>, c: Cluster<K>) {
    forall id :: ServerOf(c, id).key.Some? ==>
      c.row == Some(Document(ServerOf(c, id).key.value)) && kind.accepts(ServerOf(c, id).key.value)
  }

  lemma {:induction false} RunConcat<K>(kind: Kind<K>, c: Cluster<K>, a: seq<Event<K>>, b: seq<Event<K>>)
    ensures Run(kind, c, a + b) == Run(kind, Run(kind, c, a), b)
    decreases |a|
  {
    if a == [] {
      assert a + b == b;
    } else {
      assert (a + b)[1..] == a[1..] + b;
      RunConcat(kind, Next(kind, c, a[0]), a[1..], b);
    }
  }

  lemma NextKeepsAgreement<K>(kind: Kind<K>, c: Cluster<K>, e: Event<K>)
    requires Agreed(kind, c)
    ensures Agreed(kind, Next(kind, c, e))
    ensures c.row.Some? ==> Next(kind, c, e).row == c.row
  {
    var c' := Next(kind, c, e);
    forall id | ServerOf(c', id).key.Some?
      ensures c'.row == Some(Document(ServerOf(c', id).key.value)) && kind.accepts(ServerOf(c', id).key.value)
    {
      assert ServerOf(c, id).key.Some? ==> c.row == Some(Document(ServerOf(c, id).key.value));
    }
  }

  /** Once a row is there it stays, whatever the servers do. */
  lemma {:induction false} RowIsWrittenOnce<K>(kind: Kind<K>, c: Cluster<K>, events: seq<Event<K>>)
    requires c.row.Some?
    ensures Run(kind, c, events).row == c.row
    decreases |events|
  {
    if events != [] {
      RowIsWrittenOnce(kind, Next(kind, c, events[0]), events[1..]);
    }
  }

  lemma {:induction false} RunKeepsAgreement<K>(kind: Kind<K>, c: Cluster<K>, events: seq<Event<K>>)
    requires Agreed(kind, c)
    ensures Agreed(kind, Run(kind, c, events))
    decreases |events|
  {
    if events != [] {
      NextKeepsAgreement(kind, c, events[0]);
      RunKeepsAgreement(kind, Next(kind, c, events[0]), events[1..]);
    }
  }

  /** For any number of servers and any interleaving of their operations, with store errors
      and crashes: two servers that hold a key hold the same one, and it is the stored one. */
  lemma ServersAgree<K>(kind: Kind<K>, row: Option<Stored<K>>, events: seq<Event<K>>, s: string, t: string)
    requires ServerOf(Run(kind, Booted(row), events), s).key.Some?
    requires ServerOf(Run(kind, Booted(row), events), t).key.Some?
    ensures ServerOf(Run(kind, Booted(row), events), s).key == ServerOf(Run(kind, Booted(row), events), t).key
    ensures Run(kind, Booted(row), events).row ==
            Some(Document(ServerOf(Run(kind, Booted(row), events), s).key.value))
  {
    RunKeepsAgreement(kind, Booted(row), events);
  }

  /** A key once in use is the only key ever in use afterwards: later servers, and servers
      that crash and start again, end with the same one. */
  lemma KeyIsForever<K>(kind: Kind<K>, row: Option<Stored<K>>, before: seq<Event<K>>, after: seq<Event<K>>, s: string,
                        t: string)
    requires ServerOf(Run(kind, Booted(row), before), s).key.Some?
    requires ServerOf(Run(kind, Booted(row), before + after), t).key.Some?
    ensures ServerOf(Run(kind, Booted(row), before + after), t).key ==
            ServerOf(Run(kind, Booted(row), before), s).key
  {
    var middle := Run(kind, Booted(row), before);
    RunKeepsAgreement(kind, Booted(row), before);
    RunConcat(kind, Booted(row), before, after);
    RunKeepsAgreement(kind, middle, after);
    RowIsWrittenOnce(kind, middle, after);
  }

  // ---------- where the key comes from ----------

  /** Every key a server is about to save was generated in this run. */
  ghost predicate Traced<K>(c: Cluster<K>, row0: Option<Stored<K>>, past: seq<Event<K>>) {
    && (forall id :: ServerOf(c, id).status.Saving? ==> GeneratedIn(past, ServerOf(c, id).status.candidate))
    && (c.row != row0 ==> row0.None? && c.row.value.Document? && GeneratedIn(past, c.row.value.key))
  }

  lemma NextIsTraced<K>(kind: Kind<K>, c: Cluster<K>, row0: Option<Stored<K>>, past: seq<Event<K>>, e: Event<K>)
    requires Traced(c, row0, past)
    ensures Traced(Next(kind, c, e), row0, past + [e])
  {
    var c' := Next(kind, c, e);
    assert forall key :: GeneratedIn(past, key) ==> GeneratedIn(past + [e], key) by {
      forall key | GeneratedIn(past, key) ensures GeneratedIn(past + [e], key) {
        var i :| 0 <= i < |past| && past[i].op == Generate(Some(key));
        assert (past + [e])[i].op == Generate(Some(key));
      }
    }
    assert (past + [e])[|past|] == e;
    assert c.row != row0 ==> c'.row == c.row;
    forall id | ServerOf(c', id).status.Saving?
      ensures GeneratedIn(past + [e], ServerOf(c', id).status.candidate)
    {
      if id != e.server || ServerOf(c', id) == ServerOf(c, id) {
        assert ServerOf(c', id) == ServerOf(c, id);
      }
    }
  }

  lemma {:induction false} RunIsTraced<K>(kind: Kind<K>, c: Cluster<K>, row0: Option<Stored<K>>, past: seq<Event<K>>,
                                          events: seq<Event<K>>)
    requires Traced(c, row0, past)
    ensures Traced(Run(kind, c, events), row0, past + events)
    decreases |events|
  {
    if events == [] {
      assert past + events == past;
    } else {
      NextIsTraced(kind, c, row0, past, events[0]);
      RunIsTraced(kind, Next(kind, c, events[0]), row0, past + [events[0]], events[1..]);
      assert past + [events[0]] + events[1..] == past + events;
    }
  }

  /** A key in use was already stored before the cluster started, or one of its servers
      generated it. */
  lemma KeyWasGeneratedOrStored<K>(kind: Kind<K>, row: Option<Stored<K>>, events: seq<Event<K>>, s: string)
    requires ServerOf(Run(kind, Booted(row), events), s).key.Some?
    ensures row == Some(Document(ServerOf(Run(kind, Booted(row), events), s).key.value)) ||
            (row.None? && GeneratedIn(events, ServerOf(Run(kind, Booted(row), events), s).key.value))
  {
    RunKeepsAgreement(kind, Booted(row), events);
    RunIsTraced(kind, Booted(row), row, [], events);
    assert [] + events == events;
  }

  // ---------- progress ----------

  /** The row, if any, decodes to an acceptable key. */
  predicate Usable<K>(kind: Kind<K>, row: Option<Stored<K>>) {
    row.Some? ==> row.value.Document? && kind.accepts(row.value.key)
  }

  ghost predicate Sound<K>(kind: Kind<K>, c: Cluster<K>) {
    && Usable(kind, c.row)
    && (forall id :: ServerOf(c, id).status.Saving? ==> kind.accepts(ServerOf(c, id).status.candidate))
    && (forall id :: !ServerOf(c, id).status.Panicked?)
    && (forall id :: ServerOf(c, id).key.Some? ==> ServerOf(c, id).status.Succeeded?)
  }

  lemma {:induction false} RunStaysSound<K>(kind: Kind<K>, c: Cluster<K>, events: seq<Event<K>>)
    requires Sound(kind, c)
    ensures Sound(kind, Run(kind, c, events))
    decreases |events|
  {
    if events != [] {
      var c', e := Next(kind, c, events[0]), events[0];
      assert !ServerOf(c, e.server).status.Panicked?;
      assert ServerOf(c, e.server).status.Saving? ==> kind.accepts(ServerOf(c, e.server).status.candidate);
      assert ServerOf(c, e.server).key.Some? ==> ServerOf(c, e.server).status.Succeeded?;
      forall id ensures ServerOf(c', id).status.Saving? ==> kind.accepts(ServerOf(c', id).status.candidate)
                ensures !ServerOf(c', id).status.Panicked?
                ensures ServerOf(c', id).key.Some? ==> ServerOf(c', id).status.Succeeded?
      {
        assert id != e.server ==> ServerOf(c', id) == ServerOf(c, id);
      }
      RunStaysSound(kind, c', events[1..]);
    }
  }

  /** The rows that make a server dereference nil. */
  predicate Dereferenced<K>(kind: Kind<K>, row: Option<Stored<K>>) {
    row.Some? && (row.value.NullDocument? || (row.value.Keyless? && kind.keylessPanics))
  }

  /** What the second read brings, whatever the row is: a key exactly when the row decodes to an
      acceptable one, a nil dereference exactly when it decodes to null or to a document whose missing
      key is dereferenced, and success without a key exactly when that is not. */
  lemma RereadOutcome<K>(kind: Kind<K>, server: Server<K>, row: Option<Stored<K>>)
    requires server.status.Rereading? && server.key.None? && row.Some?
    ensures var after := Operate(kind, server, row, Reread(false)).0;
            && (after.key.Some? <==> Usable(kind, row))
            && (after.status.Panicked? <==> Dereferenced(kind, row))
            && (after.status.Succeeded? && after.key.None? <==> row.value.Keyless? && !kind.keylessPanics)
  {
  }

  predicate NoneOf<K>(events: seq<Event<K>>, id: string) {
    forall i :: 0 <= i < |events| ==> events[i].server != id
  }

  lemma {:induction false} OthersLeaveServerAlone<K>(kind: Kind<K>, c: Cluster<K>, events: seq<Event<K>>, id: string)
    requires NoneOf(events, id)
    ensures ServerOf(Run(kind, c, events), id) == ServerOf(c, id)
    decreases |events|
  {
    if events != [] {
      OthersLeaveServerAlone(kind, Next(kind, c, events[0]), events[1..], id);
    }
  }

  /** The other servers' events, then one of the given server. */
  function Advance<K>(kind: Kind<K>, c: Cluster<K>, others: seq<Event<K>>, id: string, op: Operation<K>): Cluster<K> {
    Next(kind, Run(kind, c, others), Event(id, op))
  }

  lemma AdvanceOutcome<K>(kind: Kind<K>, c: Cluster<K>, others: seq<Event<K>>, id: string, op: Operation<K>)
    returns (row: Option<Stored<K>>)
    requires Sound(kind, c) && NoneOf(others, id)
    ensures Sound(kind, Advance(kind, c, others, id, op))
    ensures Usable(kind, row) && (c.row.Some? ==> row == c.row)
    ensures ServerOf(Advance(kind, c, others, id, op), id) == Operate(kind, ServerOf(c, id), row, op).0
    ensures Advance(kind, c, others, id, op).row == Operate(kind, ServerOf(c, id), row, op).1
  {
    var c1 := Run(kind, c, others);
    RunStaysSound(kind, c, others);
    OthersLeaveServerAlone(kind, c, others, id);
    if c.row.Some? {
      RowIsWrittenOnce(kind, c, others);
    }
    assert Run(kind, c1, [Event(id, op)]) == Run(kind, Next(kind, c1, Event(id, op)), []);
    RunStaysSound(kind, c1, [Event(id, op)]);
    row := c1.row;
  }

  predicate HasKey<K>(server: Server<K>) {
    server.status.Succeeded? && server.key.Some?
  }

  /** After n of its four operations a server has a key, or is at its n-th waiting point. */
  predicate OnTrack<K>(server: Server<K>, n: nat) {
    || HasKey(server)
    || (server.key.None? &&
        match n
        case 0 => CanCall(server)
        case 1 => server.status.Generating?
        case 2 => server.status.Saving?
        case 3 => server.status.Rereading?
        case _ => false)
  }

  predicate GoesWell<K>(kind: Kind<K>, row: Option<Stored<K>>, op: Operation<K>, n: nat) {
    match n
    case 0 => op.Read?
    case 1 => op.Generate? && op.candidate.Some? && kind.accepts(op.candidate.value)
    case 2 => op.Save?
    case 3 => op == Reread(false) && row.Some?
    case _ => false
  }

  lemma AdvanceStaysOnTrack<K>(kind: Kind<K>, c: Cluster<K>, others: seq<Event<K>>, id: string, op: Operation<K>,
                               n: nat)
    requires Sound(kind, c) && NoneOf(others, id) && !op.Crash? && OnTrack(ServerOf(c, id), n)
    requires HasKey(ServerOf(c, id)) || GoesWell(kind, Run(kind, c, others).row, op, n)
    ensures Sound(kind, Advance(kind, c, others, id, op))
    ensures OnTrack(ServerOf(Advance(kind, c, others, id, op), id), n + 1)
    ensures HasKey(ServerOf(c, id)) ==> HasKey(ServerOf(Advance(kind, c, others, id, op), id))
  {
    var row := AdvanceOutcome(kind, c, others, id, op);
    assert ServerOf(c, id).status.Saving? ==> kind.accepts(ServerOf(c, id).status.candidate);
  }

  /** An insert that has any effect, its own or that of losing, leaves a row behind for good. */
  lemma SaveLeavesRow<K>(kind: Kind<K>, c: Cluster<K>, others: seq<Event<K>>, id: string, fault: SaveFault,
                         later: seq<Event<K>>)
    requires ServerOf(c, id).status.Saving? && NoneOf(others, id)
    requires !fault.FailsBefore? || Run(kind, c, others).row.Some?
    ensures Run(kind, Advance(kind, c, others, id, Save(fault)), later).row.Some?
  {
    OthersLeaveServerAlone(kind, c, others, id);
    RowIsWrittenOnce(kind, Advance(kind, c, others, id, Save(fault)), later);
  }

  lemma NoRowFails<K>(kind: Kind<K>, c: Cluster<K>, others: seq<Event<K>>, id: string)
    requires ServerOf(c, id) == Server(None, Rereading) && NoneOf(others, id) && Run(kind, c, others).row.None?
    ensures ServerOf(Advance(kind, c, others, id, Reread(false)), id) == Server(None, Failed)
  {
    OthersLeaveServerAlone(kind, c, others, id);
  }

  lemma LostInsert<K>(kind: Kind<K>, c: Cluster<K>, others: seq<Event<K>>, id: string)
    requires ServerOf(c, id).status.Saving? && ServerOf(c, id).key.None? && NoneOf(others, id)
    ensures ServerOf(Advance(kind, c, others, id, Save(FailsBefore)), id) == Server(None, Rereading)
  {
    OthersLeaveServerAlone(kind, c, others, id);
  }

  /** The two last operations of a call. */
  lemma InsertAndReread<K>(kind: Kind<K>, c: Cluster<K>, id: string, fault: SaveFault, others: seq<Event<K>>,
                           later: seq<Event<K>>)
    requires Sound(kind, c) && OnTrack(ServerOf(c, id), 2) && NoneOf(others, id) && NoneOf(later, id)
    ensures var saved := Advance(kind, c, others, id, Save(fault));
            var ended := ServerOf(Advance(kind, saved, later, id, Reread(false)), id);
            if HasKey(ServerOf(c, id)) || !fault.FailsBefore? || Run(kind, saved, later).row.Some? then HasKey(ended)
            else ended == Server(None, Failed)
  {
    var saved := Advance(kind, c, others, id, Save(fault));
    AdvanceStaysOnTrack(kind, c, others, id, Save(fault), 2);
    if !HasKey(ServerOf(c, id)) {
      if fault.FailsBefore? {
        LostInsert(kind, c, others, id);
      } else {
        SaveLeavesRow(kind, c, others, id, fault, later);
      }
    }
    if HasKey(ServerOf(saved, id)) || Run(kind, saved, later).row.Some? {
      AdvanceStaysOnTrack(kind, saved, later, id, Reread(false), 3);
    } else {
      NoRowFails(kind, saved, later, id);
    }
  }

  /** A call ends with a key whatever the other servers do in between, and even if its first read fails, as long as
      generating and the second read work, and unless the insert fails without effect and nobody else has inserted a
      key by the time of the second read. A server whose insert lost is no worse off. */
  lemma CallEndsWithKey<K>(kind: Kind<K>, c: Cluster<K>, id: string, candidate: K, readFails: bool, fault: SaveFault,
                           others: seq<seq<Event<K>>>)
    requires Sound(kind, c) && CanCall(ServerOf(c, id)) && kind.accepts(candidate)
    requires |others| == 4 && forall i :: 0 <= i < 4 ==> NoneOf(others[i], id)
    ensures var c1 := Advance(kind, c, others[0], id, Read(readFails));
            var c2 := Advance(kind, c1, others[1], id, Generate(Some(candidate)));
            var c3 := Advance(kind, c2, others[2], id, Save(fault));
            var ended := ServerOf(Advance(kind, c3, others[3], id, Reread(false)), id);
            if HasKey(ServerOf(c2, id)) || !fault.FailsBefore? || Run(kind, c3, others[3]).row.Some? then HasKey(ended)
            else ended == Server(None, Failed)
  {
    var c1 := Advance(kind, c, others[0], id, Read(readFails));
    AdvanceStaysOnTrack(kind, c, others[0], id, Read(readFails), 0);
    var c2 := Advance(kind, c1, others[1], id, Generate(Some(candidate)));
    AdvanceStaysOnTrack(kind, c1, others[1], id, Generate(Some(candidate)), 1);
    InsertAndReread(kind, c2, id, fault, others[2], others[3]);
  }

  // ---------- nil dereferences ----------

  ghost predicate NobodyPanicked<K>(c: Cluster<K>) {
    forall id :: !ServerOf(c, id).status.Panicked?
  }

  lemma {:induction false} HarmlessRowsNeverPanic<K>(kind: Kind<K>, c: Cluster<K>, events: seq<Event<K>>)
    requires NobodyPanicked(c) && !Dereferenced(kind, c.row)
    ensures NobodyPanicked(Run(kind, c, events))
    decreases |events|
  {
    if events != [] {
      var c', e := Next(kind, c, events[0]), events[0];
      assert !ServerOf(c, e.server).status.Panicked?;
      forall id ensures !ServerOf(c', id).status.Panicked? {
        assert id != e.server ==> ServerOf(c', id) == ServerOf(c, id);
      }
      HarmlessRowsNeverPanic(kind, c', events[1..]);
    }
  }

  /** Does this run from this row make some server dereference nil? */
  ghost predicate Panics<K>(kind: Kind<K>, row: Option<Stored<K>>, events: seq<Event<K>>) {
    exists id :: ServerOf(Run(kind, Booted(row), events), id).status.Panicked?
  }

  /** A server's call by itself: it reads, generates, loses the insert and reads again. */
  function LosingCall<K>(candidate: K): seq<Event<K>> {
    [Event("s", Read(false)), Event("s", Generate(Some(candidate))), Event("s", Save(NoFault)),
            Event("s", Reread(false))]
  }

  /** The row already holding null, a server whose first read worked generates a key, loses
      the insert, and dereferences nil after the second read. */
  lemma NullRowPanics<K>(kind: Kind<K>, candidate: K)
    requires kind.accepts(candidate)
    ensures ServerOf(Run(kind, Booted(Some(NullDocument)), LosingCall(candidate)), "s").status.Panicked?
  {
    var c0 := Booted<K>(Some(NullDocument));
    var e := LosingCall(candidate);
    var c1 := Next(kind, c0, e[0]);
    var c2 := Next(kind, c1, e[1]);
    var c3 := Next(kind, c2, e[2]);
    assert e[1..][1..] == e[2..] && e[2..][1..] == e[3..] && e[3..][1..] == [];
    assert Run(kind, c0, e) == Run(kind, c1, e[1..]) == Run(kind, c2, e[2..]) == Run(kind, c3, e[3..]);
    assert Run(kind, c3, e[3..]) == Next(kind, c3, e[3]);
  }

  /** A stored document without its key: the first read that works ends the call, with a nil
      dereference or without a key although it succeeds. */
  lemma KeylessRowEndsCall<K>(kind: Kind<K>)
    ensures var server := ServerOf(Run(kind, Booted(Some(Keyless)), [Event("s", Read(false))]), "s");
            server == Server(None, if kind.keylessPanics then Panicked else Succeeded)
  {
    var c0 := Booted<K>(Some(Keyless));
    var e := [Event("s", Read(false))];
    assert e[1..] == [];
    assert Run(kind, c0, e) == Run(kind, Next(kind, c0, e[0]), []);
  }

  /** Some run makes a server dereference nil if and only if the row was null from the start, or
      lacks a key that is dereferenced. */
  lemma SomeRunPanicsIff<K>(kind: Kind<K>, row: Option<Stored<K>>, candidate: K)
    requires kind.accepts(candidate)
    ensures (exists events :: Panics(kind, row, events)) <==> Dereferenced(kind, row)
  {
    if Dereferenced(kind, row) {
      if row.value.NullDocument? {
        NullRowPanics(kind, candidate);
        assert Panics(kind, row, LosingCall(candidate));
      } else {
        KeylessRowEndsCall(kind);
        assert Panics(kind, row, [Event("s", Read(false))]);
      }
    } else {
      forall events ensures !Panics(kind, row, events) {
        HarmlessRowsNeverPanic(kind, Booted(row), events);
      }
    }
  }

  /** From an empty table no server ever dereferences a nil key. */
  lemma NoServerPanics<K>(kind: Kind<K>, events: seq<Event<K>>, id: string)
    ensures !ServerOf(Run(kind, Booted(None), events), id).status.Panicked?
  {
    HarmlessRowsNeverPanic(kind, Booted(None), events);
  }

  // ---------- the two kinds of key ----------

  datatype SigningKey = SigningKey(curve: string, x: int, y: int, d: int)

  /** The signing key is used only on the one known curve. */
  predicate AcceptsSigningKey(key: SigningKey) {
    key.curve == "P-256"
  }

  const SIGNING_KEY: Kind<SigningKey> := Kind(AcceptsSigningKey, true)

  /** The cookie secret is used as it is. */
  const COOKIE_SECRET: Kind<seq<bv8>> := Kind((secret: seq<bv8>) => true, false)

  /** A row that does not decode to an acceptable key keeps every server without one, so the
      condition of CallEndsWithKey on the row is also necessary. */
  lemma UnusableRowBlocksEveryServer<K>(kind: Kind<K>, row: Option<Stored<K>>, events: seq<Event<K>>, s: string)
    requires !Usable(kind, row)
    ensures ServerOf(Run(kind, Booted(row), events), s).key.None?
  {
    RunKeepsAgreement(kind, Booted(row), events);
    RowIsWrittenOnce(kind, Booted(row), events);
  }

  lemma ForeignCurveBlocksEveryServer(key: SigningKey, events: seq<Event<SigningKey>>, s: string)
    requires key.curve != "P-256"
    ensures ServerOf(Run(SIGNING_KEY, Booted(Some(Document(key))), events), s).key.None?
  {
    UnusableRowBlocksEveryServer(SIGNING_KEY, Some(Document(key)), events, s);
  }

  /** Any cookie secret that is stored is taken into use, and any signing key on the known curve. */
  lemma StoredKeyServes(secret: seq<bv8>, key: SigningKey)
    requires key.curve == "P-256"
    ensures ServerOf(Run(COOKIE_SECRET, Booted(Some(Document(secret))), [Event("s", Read(false))]), "s")
            == Server(Some(secret), Succeeded)
    ensures ServerOf(Run(SIGNING_KEY, Booted(Some(Document(key))), [Event("s", Read(false))]), "s")
            == Server(Some(key), Succeeded)
  {
    OneReadServes(COOKIE_SECRET, secret);
    OneReadServes(SIGNING_KEY, key);
  }

  lemma OneReadServes<K>(kind: Kind<K>, key: K)
    requires kind.accepts(key)
    ensures ServerOf(Run(kind, Booted(Some(Document(key))), [Event("s", Read(false))]), "s")
            == Server(Some(key), Succeeded)
  {
    var c0 := Booted(Some(Document(key)));
    var e := [Event("s", Read(false))];
    assert e[1..] == [];
    assert Run(kind, c0, e) == Run(kind, Next(kind, c0, e[0]), []);
  }

  /** A stored signing key without its inner key makes the first server that reads it dereference nil. */
  lemma KeylessSigningKeyPanics()
    ensures ServerOf(Run(SIGNING_KEY, Booted(Some(Keyless)), [Event("s", Read(false))]), "s").status.Panicked?
  {
    KeylessRowEndsCall(SIGNING_KEY);
  }

  /** A stored cookie secret without its inner key never makes a server dereference nil; calls succeed,
      and no server ever holds a secret. */
  lemma KeylessCookieSecret(events: seq<Event<seq<bv8>>>, s: string)
    ensures ServerOf(Run(COOKIE_SECRET, Booted(Some(Keyless)), events), s).key.None?
    ensures !ServerOf(Run(COOKIE_SECRET, Booted(Some(Keyless)), events), s).status.Panicked?
    ensures ServerOf(Run(COOKIE_SECRET, Booted(Some(Keyless)), [Event("s", Read(false))]), "s").status.Succeeded?
  {
    UnusableRowBlocksEveryServer(COOKIE_SECRET, Some(Keyless), events, s);
    HarmlessRowsNeverPanic(COOKIE_SECRET, Booted(Some(Keyless)), events);
    KeylessRowEndsCall(COOKIE_SECRET);
  }

  // ---------- the sequential code of one server ----------

  class SystemTable<K> {
    var row: Option<Stored<K>>

    constructor ()
      ensures row == None
    {
      row := None;
    }

    /** The inserts of other servers that fall before the next operation of this one. */
    method Interfere(rival: Option<K>)
      modifies this
      ensures row == Rival(old(row), rival)
    {
      if rival.Some? && row.None? {
        row := Some(Document(rival.value));
      }
    }
  }

  function Rival<K>(row: Option<Stored<K>>, rival: Option<K>): Option<Stored<K>> {
    if rival.Some? then Insert(row, rival.value) else row
  }

  /** The faults one call meets, and the key another server inserts before each operation. */
  datatype Circumstances<+K> = Circumstances(
    readFails: bool, candidate: Option<K>, fault: SaveFault, rereadFails: bool,
    beforeRead: Option<K>, beforeSave: Option<K>, beforeReread: Option<K>)

  /** The state of the caller and the row after the four operations of one call. */
  function Called<K>(kind: Kind<K>, server: Server<K>, row: Option<Stored<K>>, with: Circumstances<K>)
    : (Server<K>, Option<Stored<K>>)
  {
    var (s1, r1) := Operate(kind, server, Rival(row, with.beforeRead), Read(with.readFails));
    var (s2, r2) := Operate(kind, s1, r1, Generate(with.candidate));
    var (s3, r3) := Operate(kind, s2, Rival(r2, with.beforeSave), Save(with.fault));
    Operate(kind, s3, Rival(r3, with.beforeReread), Reread(with.rereadFails))
  }

  /** How a read of a row that is there ends a call. */
  function ReadEnd<K>(kind: Kind<K>, found: Stored<K>): Server<K> {
    match found
    case Malformed => Server(None, Failed)
    case NullDocument => Server(None, Panicked)
    case Keyless => Server(None, if kind.keylessPanics then Panicked else Succeeded)
    case Document(key) => if kind.accepts(key) then Server(Some(key), Succeeded) else Server(None, Failed)
  }

  /** The first of the documents offered one after the other, which is the one the table keeps. */
  function First<K>(row: Option<Stored<K>>, offered: seq<Option<K>>): Option<Stored<K>>
    decreases |offered|
  {
    if row.Some? || offered == [] then row
    else First(if offered[0].Some? then Some(Document(offered[0].value)) else None, offered[1..])
  }

  /**
   * How a call ends, and the row it leaves. What the first read finds decides, unless it fails or finds nothing or
   * null. Then a key has to be generated; it is the server's if the insert works and nobody was first, and otherwise
   * what the second read finds decides. The row is always the first of the keys offered, the server's own only where
   * the insert has an effect. A call that ended before without a key makes no difference.
   */
  lemma CallOutcome<K>(kind: Kind<K>, server: Server<K>, row: Option<Stored<K>>, with: Circumstances<K>)
    requires server.key.None? && (server.status.Idle? || server.status.Succeeded? || server.status.Failed?)
    requires with.candidate.Some? ==> kind.accepts(with.candidate.value)
    ensures var (ended, after) := Called(kind, server, row, with);
            var found := First(row, [with.beforeRead]);
            var saved := First(row, [with.beforeRead, with.beforeSave]);
            var own := if with.fault.FailsBefore? then None else with.candidate;
            var last := First(row, [with.beforeRead, with.beforeSave, own, with.beforeReread]);
            if !with.readFails && found.Some? && !found.value.NullDocument? then ended == ReadEnd(kind, found.value)
            else if with.candidate.None? then ended == Server(None, Failed)
            else if saved.None? && with.fault.NoFault? then
              after == last && ended == Server(with.candidate, Succeeded)
            else
              after == last && ended == if with.rereadFails || last.None? then Server(None, Failed)
                                        else ReadEnd(kind, last.value)
  {
    var own := if with.fault.FailsBefore? then None else with.candidate;
    FirstIs(row, with.beforeRead, with.beforeSave, own, with.beforeReread);
    var found := Rival(row, with.beforeRead);
    var saved := Rival(found, with.beforeSave);
    if with.readFails || found.None? || found.value.NullDocument? {
      assert Operate(kind, server, found, Read(with.readFails)) == (Server(None, Generating), found);
      if with.candidate.Some? {
        var waiting := Server(None, Saving(with.candidate.value));
        assert Operate(kind, Server(None, Generating), found, Generate(with.candidate)) == (waiting, found);
        var (kept, written) := Operate(kind, waiting, saved, Save(with.fault));
        assert written == Rival(saved, own);
        var last := Rival(written, with.beforeReread);
        assert Called(kind, server, row, with) == Operate(kind, kept, last, Reread(with.rereadFails));
        assert kept == Server(None, Rereading) || kept == Server(with.candidate, Succeeded);
      }
    }
  }

  /** A server with a key keeps it, whatever its next call meets, and inserts nothing. */
  lemma CallWithKey<K>(kind: Kind<K>, key: K, row: Option<Stored<K>>, with: Circumstances<K>)
    ensures var rivals := Rival(Rival(Rival(row, with.beforeRead), with.beforeSave), with.beforeReread);
            Called(kind, Server(Some(key), Succeeded), row, with) == (Server(Some(key), Succeeded), rivals)
  {
  }

  lemma FirstIs<K>(row: Option<Stored<K>>, a: Option<K>, b: Option<K>, c: Option<K>, d: Option<K>)
    ensures First(row, [a]) == Rival(row, a)
    ensures First(row, [a, b]) == Rival(Rival(row, a), b)
    ensures First(row, [a, b, c, d]) == Rival(Rival(Rival(Rival(row, a), b), c), d)
  {
    FirstAfter(row, [a]);
    FirstAfter(row, [a, b]);
    FirstAfter(Rival(row, a), [b]);
    FirstAfter(row, [a, b, c, d]);
    FirstAfter(Rival(row, a), [b, c, d]);
    FirstAfter(Rival(Rival(row, a), b), [c, d]);
    FirstAfter(Rival(Rival(Rival(row, a), b), c), [d]);
    assert [a, b, c, d][1..] == [b, c, d] && [b, c, d][1..] == [c, d] && [c, d][1..] == [d] && [d][1..] == [];
    assert [a, b][1..] == [b] && [b][1..] == [] && [a][1..] == [];
  }

  lemma FirstAfter<K>(row: Option<Stored<K>>, offered: seq<Option<K>>)
    requires offered != []
    ensures First(row, offered) == First(Rival(row, offered[0]), offered[1..])
  {
  }

  class AppServer<K> {
    var key: Option<K>

    constructor ()
      ensures key == None
    {
      key := None;
    }

    /** The ensure function, one server's point of view: it does what the four operations of
        the transition system do, under every interference and fault. */
    method EnsureKey(table: SystemTable<K>, kind: Kind<K>, with: Circumstances<K>) returns (status: Status<K>)
      requires key.None? && with.candidate.Some? ==> kind.accepts(with.candidate.value)
      modifies this, table
      ensures key.Some? ==> status.Succeeded?
      ensures status.Succeeded? && key.None? ==> table.row == Some(Keyless) && !kind.keylessPanics
      ensures status.Panicked? ==> Dereferenced(kind, table.row)
      ensures old(key).Some? ==> key == old(key) && table.row == Rival(old(table.row), with.beforeRead)
      ensures old(key).None? ==> Server(key, status) == Called(kind, Server(None, Idle), old(table.row), with).0
      ensures old(key).None? && table.row.Some? ==>
                table.row == Called(kind, Server(None, Idle), old(table.row), with).1
      ensures old(key).None? && key.Some? ==> table.row == Some(Document(key.value)) && kind.accepts(key.value)
      ensures old(table.row).Some? ==> table.row == old(table.row)
    {
      table.Interfere(with.beforeRead);
      if key.Some? {
        return Succeeded;
      }
      var chosen: Option<Stored<K>> := None;
      if !with.readFails && table.row.Some? {
        if table.row.value.Malformed? {
          return Failed;
        }
        if !table.row.value.NullDocument? {
          chosen := table.row;
        }
      }
      // If there is no key yet, try to generate one.
      if chosen.None? {
        if with.candidate.None? {
          return Failed;
        }
        var newKey := Document(with.candidate.value);
        table.Interfere(with.beforeSave);
        var inserted := table.row.None? && with.fault.NoFault?;
        if table.row.None? && !with.fault.FailsBefore? {
          table.row := Some(newKey);
        }
        if inserted {
          chosen := Some(newKey);
        }
      }
      // If the new key could not be saved, another server must have been first.
      if chosen.None? {
        table.Interfere(with.beforeReread);
        if with.rereadFails || table.row.None? || table.row.value.Malformed? {
          return Failed;
        }
        if table.row.value.NullDocument? {
          return Panicked;
        }
        chosen := table.row;
      }
      if chosen.value.Keyless? {
        return if kind.keylessPanics then Panicked else Succeeded;
      }
      if !kind.accepts(chosen.value.key) {
        return Failed;
      }
      key := Some(chosen.value.key);
      return Succeeded;
    }
  }
}

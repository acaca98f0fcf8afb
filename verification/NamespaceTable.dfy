/**
 A namespace's id table, its adapter and its sockets' connected flags, updated one
 after the other by connects, rejects and disconnects that may overlap. A
 broadcast takes ids from the adapter, looks each up in the table, asks the socket
 it found whether it is connected, and only then, holding no lock, sends.
 */
module NamespaceTable {
  import opened Sequences
  import A = Acks
  import R = RoomAdapter

  type Id = R.Id
  type Room = R.Room

  /** Calls between two of their critical sections. */
  datatype Calls = Calls(
    adding: set<Id>,             // ids entered in the table and not yet in the adapter
    joining: set<Id>,            // ids added whose connected flag is yet to be set
    removing: multiset<Id>,      // ids some call has yet to take out of the adapter
    clearing: multiset<Id>,      // ids whose connected flag some call has yet to clear
    pending: seq<Id>,            // targets broadcasts have yet to look up
    found: seq<Id>,              // sockets broadcasts found and have yet to ask
    passed: seq<Id>)             // sockets that said they were connected and are yet to be sent to

  /**
   Ids ever issued to a connect, ids ever taken from the table, the sockets whose
   disconnect handlers ran, ids looked up successfully when already taken out, and
   the emissions made, with those made to an id already taken out.
   */
  datatype History = History(
    issued: set<Id>, retired: set<Id>, fired: seq<Id>, stale: seq<Id>, emitted: seq<Id>, late: seq<Id>)

  datatype State = State(table: set<Id>, adapter: R.Membership, connected: set<Id>, calls: Calls, past: History)

  const INITIAL :=
    State({}, R.Membership({}, {}), {}, Calls({}, {}, multiset{}, multiset{}, [], [], []),
          History({}, {}, [], [], [], []))

  /** Steps of connects, rejects and disconnects. */
  datatype SocketStep =
    | Enters(id: Id)
    | Registers(id: Id)
    | Connects(id: Id)
    | Rejects(id: Id)
    | Disconnects(id: Id)
    | Unregisters(id: Id)
    | Clears(id: Id)

  /** Rooms and broadcasts. */
  datatype RoomStep =
    | Joins(room: Room, id: Id)
    | Leaves(room: Room, id: Id)
    | Broadcasts(room: Room, except: seq<Id>, targets: seq<Id>)
    | Resolves(i: nat)
    | Passes(i: nat)
    | Emits(i: nat)

  datatype Action = Socket(socket: SocketStep) | Rooms(rooms: RoomStep)

  /** Ids are generated fresh, and a socket is known to others only once it is fully added. */
  predicate CanSocket(s: State, a: SocketStep) {
    match a
    case Enters(id) => id !in s.past.issued
    case Registers(id) => id in s.calls.adding
    case Connects(id) => id in s.calls.joining
    case Rejects(id) => id !in s.calls.adding
    case Disconnects(id) => id !in s.calls.adding
    case Unregisters(id) => id in s.calls.removing
    case Clears(id) => id in s.calls.clearing
  }

  ghost predicate CanRoom(s: State, a: RoomStep) {
    match a
    case Broadcasts(room, except, targets) =>
      Distinct(targets) && (set id | id in targets) == R.Targets(s.adapter, room, except)
    case Resolves(i) => i < |s.calls.pending|
    case Passes(i) => i < |s.calls.found|
    case Emits(i) => i < |s.calls.passed|
    case _ => true
  }

  ghost predicate Enabled(s: State, a: Action) {
    match a
    case Socket(x) => CanSocket(s, x)
    case Rooms(x) => CanRoom(s, x)
  }

  function Retire(s: State, id: Id): (t: State) {
    s.(table := s.table - {id}, past := s.past.(issued := s.past.issued + {id}, retired := s.past.retired + {id}),
       calls := s.calls.(removing := s.calls.removing + multiset{id}, clearing := s.calls.clearing + multiset{id}))
  }

  /** A disconnect goes on only if it finds the id in the table, and then its handlers run. */
  function Disconnect(s: State, id: Id): (t: State) {
    if id !in s.table then s
    else
      var t := Retire(s, id);
      t.(past := t.past.(fired := t.past.fired + [id]))
  }

  function NextSocket(s: State, a: SocketStep): (t: State)
    requires CanSocket(s, a)
  {
    match a
    case Enters(id) =>
      s.(table := s.table + {id}, calls := s.calls.(adding := s.calls.adding + {id}),
         past := s.past.(issued := s.past.issued + {id}))
    case Registers(id) =>
      s.(adapter := R.Apply(s.adapter, R.Adds(id)),
         calls := s.calls.(adding := s.calls.adding - {id}, joining := s.calls.joining + {id}))
    case Connects(id) =>
      s.(connected := s.connected + {id}, calls := s.calls.(joining := s.calls.joining - {id}))
    case Rejects(id) => Retire(s, id)
    case Disconnects(id) => Disconnect(s, id)
    case Unregisters(id) =>
      s.(adapter := R.Apply(s.adapter, R.Removes(id)),
         calls := s.calls.(removing := s.calls.removing - multiset{id}))
    case Clears(id) =>
      s.(connected := s.connected - {id}, calls := s.calls.(clearing := s.calls.clearing - multiset{id}))
  }

  function Without(ids: seq<Id>, i: nat): seq<Id>
    requires i < |ids|
  {
    ids[..i] + ids[i + 1..]
  }

  /** The lookup under the table's lock. */
  function Resolve(s: State, i: nat): (t: State)
    requires i < |s.calls.pending|
  {
    var id := s.calls.pending[i];
    var c := s.calls.(pending := Without(s.calls.pending, i));
    if id !in s.table then s.(calls := c)
    else
      s.(calls := c.(found := c.found + [id]),
         past := if id in s.past.retired then s.past.(stale := s.past.stale + [id]) else s.past)
  }

  /** The socket's own check, under its lock. */
  function Pass(s: State, i: nat): (t: State)
    requires i < |s.calls.found|
  {
    var id := s.calls.found[i];
    var c := s.calls.(found := Without(s.calls.found, i));
    s.(calls := if id in s.connected then c.(passed := c.passed + [id]) else c)
  }

  /** The send outside any lock; nothing is looked at again. */
  function Emit(s: State, i: nat): (t: State)
    requires i < |s.calls.passed|
  {
    var id := s.calls.passed[i];
    s.(calls := s.calls.(passed := Without(s.calls.passed, i)),
       past := s.past.(emitted := s.past.emitted + [id],
                       late := if id in s.past.retired then s.past.late + [id] else s.past.late))
  }

  ghost function NextRoom(s: State, a: RoomStep): (t: State)
    requires CanRoom(s, a)
  {
    match a
    case Joins(room, id) => s.(adapter := R.Apply(s.adapter, R.Joins(room, id)))
    case Leaves(room, id) => s.(adapter := R.Apply(s.adapter, R.Leaves(room, id)))
    case Broadcasts(room, except, targets) => s.(calls := s.calls.(pending := s.calls.pending + targets))
    case Resolves(i) => Resolve(s, i)
    case Passes(i) => Pass(s, i)
    case Emits(i) => Emit(s, i)
  }

  ghost function Next(s: State, a: Action): (t: State)
    requires Enabled(s, a)
  {
    match a
    case Socket(x) => NextSocket(s, x)
    case Rooms(x) => NextRoom(s, x)
  }

  ghost predicate Legal(s: State, run: seq<Action>)
    decreases |run|
  {
    run == [] || (Enabled(s, run[0]) && Legal(Next(s, run[0]), run[1..]))
  }

  ghost function After(s: State, run: seq<Action>): (t: State)
    requires Legal(s, run)
    decreases |run|
  {
    if run == [] then s else After(Next(s, run[0]), run[1..])
  }

  // ---------- what every step keeps ----------

  /** The table and the adapter differ only by the calls under way. */
  predicate NearlyAgree(s: State) {
    && s.calls.adding <= s.table
    && s.table - s.calls.adding <= s.adapter.ids
    && (forall id :: id in s.adapter.ids ==> (id in s.table || id in s.calls.removing) && id !in s.calls.adding)
  }

  /** An id is taken from the table for good, and no lookup finds it after that. */
  ghost predicate OneLife(s: State) {
    && s.table <= s.past.issued && s.past.retired <= s.past.issued && s.table !! s.past.retired
    && (forall id :: id in s.calls.removing ==> id in s.past.retired)
    && (forall id :: id in s.past.fired ==> id in s.past.retired)
    && Distinct(s.past.fired)
    && s.past.stale == []
  }

  ghost predicate Inv(s: State) {
    NearlyAgree(s) && OneLife(s)
  }

  lemma SocketKeepsAgreement(s: State, a: SocketStep)
    requires Inv(s) && CanSocket(s, a)
    ensures NearlyAgree(NextSocket(s, a))
  {
  }

  lemma SocketKeepsOneLife(s: State, a: SocketStep)
    requires OneLife(s) && CanSocket(s, a)
    ensures OneLife(NextSocket(s, a))
  {
  }

  lemma RoomKeepsInv(s: State, a: RoomStep)
    requires Inv(s) && CanRoom(s, a)
    ensures Inv(NextRoom(s, a))
  {
  }

  lemma StepKeepsInv(s: State, a: Action)
    requires Inv(s) && Enabled(s, a)
    ensures Inv(Next(s, a))
  {
    match a
    case Socket(x) =>
      SocketKeepsAgreement(s, x);
      SocketKeepsOneLife(s, x);
    case Rooms(x) => RoomKeepsInv(s, x);
  }

  lemma {:induction false} RunKeepsInv(s: State, run: seq<Action>)
    requires Inv(s) && Legal(s, run)
    ensures Inv(After(s, run))
    decreases |run|
  {
    if run != [] {
      StepKeepsInv(s, run[0]);
      RunKeepsInv(Next(s, run[0]), run[1..]);
    }
  }

  // ---------- theorems ----------

  /** Whenever no call is half done, table and adapter name the same sockets. */
  lemma QuietTablesAgree(run: seq<Action>)
    requires Legal(INITIAL, run)
    requires var c := After(INITIAL, run).calls; c.adding == {} && c.removing == multiset{}
    ensures After(INITIAL, run).table == After(INITIAL, run).adapter.ids
  {
    RunKeepsInv(INITIAL, run);
  }

  /** No lookup finds a socket that was taken out, whatever rooms it joins afterwards, and its handlers run once. */
  lemma RemovedIsNeverResolved(run: seq<Action>)
    requires Legal(INITIAL, run)
    ensures var s := After(INITIAL, run); s.past.stale == [] && s.table !! s.past.retired && Distinct(s.past.fired)
  {
    RunKeepsInv(INITIAL, run);
  }

  /** Emissions to `id` made, and those a passed check has decided on. */
  ghost function Decided(s: State, id: Id): nat {
    multiset(s.past.emitted)[id] + multiset(s.calls.passed)[id]
  }

  /** ... and lookups that found it. */
  ghost function Reached(s: State, id: Id): nat {
    Decided(s, id) + multiset(s.calls.found)[id]
  }

  lemma WithoutOne(ids: seq<Id>, i: nat, id: Id)
    requires i < |ids|
    ensures multiset(ids)[id] == multiset(Without(ids, i))[id] + if ids[i] == id then 1 else 0
  {
    Around(ids, i);
  }

  lemma OthersReachNobody(s: State, a: Action)
    requires Enabled(s, a) && (a.Rooms? ==> !a.rooms.Resolves? && !a.rooms.Passes? && !a.rooms.Emits?)
    ensures var t := Next(s, a);
            t.calls.found == s.calls.found && t.calls.passed == s.calls.passed && t.past.emitted == s.past.emitted
  {
  }

  lemma PassReaches(s: State, i: nat, id: Id)
    requires i < |s.calls.found|
    ensures Reached(Pass(s, i), id) <= Reached(s, id)
    ensures id !in s.connected ==> Decided(Pass(s, i), id) == Decided(s, id)
  {
    WithoutOne(s.calls.found, i, id);
  }

  lemma EmitReaches(s: State, i: nat, id: Id)
    requires i < |s.calls.passed|
    ensures Decided(Emit(s, i), id) == Decided(s, id) && Emit(s, i).calls.found == s.calls.found
  {
    WithoutOne(s.calls.passed, i, id);
  }

  lemma StepReachesNoRetired(s: State, a: Action, id: Id)
    requires Inv(s) && Enabled(s, a) && id in s.past.retired
    ensures Reached(Next(s, a), id) <= Reached(s, id) && id in Next(s, a).past.retired
  {
    match a
    case Rooms(Passes(i)) => PassReaches(s, i, id);
    case Rooms(Emits(i)) => EmitReaches(s, i, id);
    case Rooms(Resolves(i)) =>
    case _ => OthersReachNobody(s, a);
  }

  /**
   From its removal on, in every run, a socket is emitted to at most once for each
   lookup that had already found it by then.
   */
  lemma {:induction false} LateEmissionsWereResolvedBefore(s: State, run: seq<Action>, id: Id)
    requires Inv(s) && Legal(s, run) && id in s.past.retired
    ensures Reached(After(s, run), id) <= Reached(s, id)
    decreases |run|
  {
    if run != [] {
      StepKeepsInv(s, run[0]);
      StepReachesNoRetired(s, run[0], id);
      LateEmissionsWereResolvedBefore(Next(s, run[0]), run[1..], id);
    }
  }

  // ---------- once the flag is down ----------

  /** A removed socket whose flag is down, with no connect about to raise it. */
  predicate Silent(s: State, id: Id) {
    && id in s.past.issued && id in s.past.retired
    && id !in s.connected && id !in s.calls.adding && id !in s.calls.joining
  }

  lemma StepKeepsSilent(s: State, a: Action, id: Id)
    requires Silent(s, id) && Enabled(s, a)
    ensures Silent(Next(s, a), id) && Decided(Next(s, a), id) == Decided(s, id)
  {
    match a
    case Rooms(Emits(i)) => EmitReaches(s, i, id);
    case Rooms(Passes(i)) => PassReaches(s, i, id);
    case Rooms(Resolves(i)) =>
    case _ => OthersReachNobody(s, a);
  }

  /** Then in every run exactly the emissions decided on by then are made or still to be made. */
  lemma {:induction false} SilentDecidesNoMore(s: State, run: seq<Action>, id: Id)
    requires Legal(s, run) && Silent(s, id)
    ensures Silent(After(s, run), id) && Decided(After(s, run), id) == Decided(s, id)
    decreases |run|
  {
    if run != [] {
      StepKeepsSilent(s, run[0], id);
      SilentDecidesNoMore(Next(s, run[0]), run[1..], id);
    }
  }

  ghost predicate EmittedDuring(s: State, run: seq<Action>, id: Id) {
    Legal(s, run) && multiset(After(s, run).past.emitted)[id] > multiset(s.past.emitted)[id]
  }

  lemma Prepend(s: State, a: Action, run: seq<Action>) returns (all: seq<Action>)
    requires Enabled(s, a) && Legal(Next(s, a), run)
    ensures all == [a] + run && Legal(s, all) && After(s, all) == After(Next(s, a), run)
  {
    all := [a] + run;
    assert all[1..] == run;
  }

  /** A silent socket is emitted to in some run if and only if a check it passed is still outstanding. */
  lemma SilentIsEmittedToIffPassed(s: State, id: Id)
    requires Silent(s, id)
    ensures (exists run :: EmittedDuring(s, run, id)) <==> id in s.calls.passed
  {
    if id in s.calls.passed {
      var i :| 0 <= i < |s.calls.passed| && s.calls.passed[i] == id;
      var run := Prepend(s, Rooms(Emits(i)), []);
      assert EmittedDuring(s, run, id);
    } else {
      forall run | Legal(s, run) ensures !EmittedDuring(s, run, id) {
        SilentDecidesNoMore(s, run, id);
      }
    }
  }

  // ---------- emissions that come late ----------

  /**
   A late emission happens whenever a disconnect comes between a lookup and its
   check: the flag is cleared only after the id has left the table.
   */
  lemma LateEmissionHappens(s: State, i: nat, id: Id) returns (run: seq<Action>)
    requires i < |s.calls.found| && s.calls.found[i] == id && s.calls.passed == []
    requires id in s.table && id in s.connected && id !in s.calls.adding
    ensures run == [Socket(Disconnects(id)), Rooms(Passes(i)), Rooms(Emits(0))]
    ensures Legal(s, run) && After(s, run).past.late == s.past.late + [id]
  {
    var t := Disconnect(s, id);
    var u := Pass(t, i);
    assert u.calls.passed == [id];
    run := Prepend(u, Rooms(Emits(0)), []);
    run := Prepend(t, Rooms(Passes(i)), run);
    run := Prepend(s, Socket(Disconnects(id)), run);
  }

  /** A connected socket, with no broadcast under way. */
  ghost predicate Standing(s: State, id: Id) {
    && Inv(s) && id in s.table && id in s.connected && id !in s.calls.adding && id !in s.calls.joining && id != ""
    && R.Targets(s.adapter, id, []) == {id} && s.calls.pending == s.calls.found == s.calls.passed == []
  }

  /** A broadcast to a standing socket's own room, up to the lookup. */
  lemma BroadcastFinds(s: State, id: Id, rest: seq<Action>) returns (run: seq<Action>, t: State)
    requires Standing(s, id)
    requires Legal(s.(calls := s.calls.(found := [id])), rest)
    ensures t == s.(calls := s.calls.(found := [id]))
    ensures Legal(s, run) && After(s, run) == After(t, rest)
  {
    assert (set x | x in [id]) == {id};
    var d := NextRoom(s, Broadcasts(id, [], [id]));
    assert d.calls.pending == [id];
    t := s.(calls := s.calls.(found := [id]));
    assert id !in s.past.retired && NextRoom(d, Resolves(0)) == t;
    run := Prepend(d, Rooms(Resolves(0)), rest);
    run := Prepend(s, Rooms(Broadcasts(id, [], [id])), run);
  }

  /** One connect makes a standing socket. */
  lemma ConnectStands(id: Id, s: State, rest: seq<Action>) returns (run: seq<Action>)
    requires id != "" && s == Connected(id) && Legal(s, rest)
    ensures Standing(s, id) && Legal(INITIAL, run) && After(INITIAL, run) == After(s, rest)
  {
    var a := Next(INITIAL, Socket(Enters(id)));
    var b := Next(a, Socket(Registers(id)));
    StepKeepsInv(INITIAL, Socket(Enters(id)));
    StepKeepsInv(a, Socket(Registers(id)));
    StepKeepsInv(b, Socket(Connects(id)));
    assert s.adapter == R.Membership({id}, {(id, id)});
    assert Next(b, Socket(Connects(id))) == s;
    run := Prepend(b, Socket(Connects(id)), rest);
    run := Prepend(a, Socket(Registers(id)), run);
    run := Prepend(INITIAL, Socket(Enters(id)), run);
  }

  function Connected(id: Id): State {
    INITIAL.(table := {id}, adapter := R.Membership({id}, {(id, id)}), connected := {id},
             past := INITIAL.past.(issued := {id}))
  }

  /** A late emission in a run from the start. */
  lemma LateEmissionReached(id: Id) returns (run: seq<Action>)
    requires id != ""
    ensures Legal(INITIAL, run) && After(INITIAL, run).past.late == [id]
  {
    var s := Connected(id);
    var before := ConnectStands(id, s, []);
    var t := s.(calls := s.calls.(found := [id]));
    run := LateEmissionHappens(t, 0, id);
    run, t := BroadcastFinds(s, id, run);
    run := ConnectStands(id, s, run);
  }

  /** A socket that passes its check and is then disconnected, flag and all. */
  lemma PassedThenDisconnected(s: State, id: Id) returns (run: seq<Action>)
    requires s.calls.found == [id] && s.calls.passed == [] && s.calls.clearing == multiset{}
    requires id in s.table && id in s.connected && id !in s.calls.adding && id !in s.calls.joining
    ensures Legal(s, run) && Silent(After(s, run), id) && After(s, run).calls.passed == [id]
  {
    var t := Pass(s, 0);
    assert t.calls.passed == [id];
    var u := Disconnect(t, id);
    var v := NextSocket(u, Clears(id));
    run := Prepend(u, Socket(Clears(id)), []);
    run := Prepend(t, Socket(Disconnects(id)), run);
    run := Prepend(s, Rooms(Passes(0)), run);
    assert After(s, run) == v;
  }

  /** So even a silent socket is emitted to in some run from the start. */
  lemma SilentEmissionReached(id: Id) returns (run: seq<Action>, more: seq<Action>)
    requires id != ""
    ensures Legal(INITIAL, run) && Silent(After(INITIAL, run), id)
    ensures EmittedDuring(After(INITIAL, run), more, id)
  {
    var s := Connected(id);
    var before := ConnectStands(id, s, []);
    var t := s.(calls := s.calls.(found := [id]));
    run := PassedThenDisconnected(t, id);
    run, t := BroadcastFinds(s, id, run);
    run := ConnectStands(id, s, run);
    SilentIsEmittedToIffPassed(After(INITIAL, run), id);
    more :| EmittedDuring(After(INITIAL, run), more, id);
  }

  // ---------- the namespace object ----------

  class Namespace {
    var sockets: set<Id>
    var connected: set<Id>
    const adapter: R.MemoryAdapter

    ghost predicate Valid()
      reads this, adapter
    {
      adapter.Valid() && sockets == adapter.ids
    }

    constructor ()
      ensures Valid() && fresh(adapter) && sockets == connected == {} && adapter.View() == R.Membership({}, {})
    {
      adapter := new R.MemoryAdapter();
      sockets, connected := {}, {};
    }

    method AddSocket(id: Id)
      requires Valid()
      modifies this`sockets, adapter
      ensures Valid() && adapter.View() == R.Apply(old(adapter.View()), R.Adds(id))
    {
      sockets := sockets + {id};
      adapter.AddSocket(id);
    }

    method SetConnected(id: Id, v: bool)
      modifies this`connected
      ensures connected == if v then old(connected) + {id} else old(connected) - {id}
    {
      connected := if v then connected + {id} else connected - {id};
    }

    method RemoveSocket(id: Id)
      requires Valid()
      modifies this`sockets, adapter
      ensures Valid() && adapter.View() == R.Apply(old(adapter.View()), R.Removes(id))
    {
      sockets := sockets - {id};
      adapter.RemoveSocket(id);
    }

    /** Reports whether the disconnect handlers are to run and whether the client is told first. */
    method DisconnectSocket(id: Id, acks: A.AckTable, reason: string) returns (fired: bool, told: bool)
      requires Valid()
      modifies this, adapter, acks
      ensures Valid() && fired == (id in old(sockets)) && id !in sockets
      ensures adapter.View() == if fired then R.Apply(old(adapter.View()), R.Removes(id)) else old(adapter.View())
      ensures connected == if fired then old(connected) - {id} else old(connected)
      ensures acks.View() == if fired then A.Clear(old(acks.View())) else old(acks.View())
      ensures told <==> fired && reason == "server namespace disconnect"
    {
      if id !in sockets {
        return false, false;
      }
      sockets := sockets - {id};
      adapter.RemoveSocket(id);
      SetConnected(id, false);
      acks.ClearAll();
      return true, reason == "server namespace disconnect";
    }

    /** Emits once to every target found in the table and connected: a stale member of a room is passed over. */
    method Broadcast(room: Room, except: seq<Id>) returns (emitted: seq<Id>)
      requires Valid()
      ensures Distinct(emitted)
      ensures forall id :: id in emitted <==>
                id in R.Targets(adapter.View(), room, except) && id in sockets && id in connected
    {
      var targets := adapter.Broadcast(room, except);
      emitted := [];
      for i := 0 to |targets|
        invariant Distinct(emitted)
        invariant forall id :: id in emitted <==> id in targets[..i] && id in sockets && id in connected
      {
        if targets[i] in sockets && targets[i] in connected {
          emitted := emitted + [targets[i]];
        }
      }
      assert targets[..|targets|] == targets;
    }
  }
}

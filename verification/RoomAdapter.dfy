/**
 The in-process room adapter: a set of socket ids and a map from rooms to
 members, against the plain relation of (room, id) pairs it stands for.
 */
module RoomAdapter {
  import opened Sequences

  type Room = string
  type Id = string

  /** What an adapter knows: its socket ids and who is in which room. */
  datatype Membership = Membership(ids: set<Id>, members: set<(Room, Id)>)

  datatype Op =
    | Adds(id: Id)
    | Removes(id: Id)
    | Joins(room: Room, id: Id)
    | Leaves(room: Room, id: Id)

  function Apply(m: Membership, op: Op): (n: Membership) {
    match op
    case Adds(id) => Membership(m.ids + {id}, m.members + {(id, id)})
    case Removes(id) => Membership(m.ids - {id}, set p | p in m.members && p.1 != id)
    case Joins(room, id) => m.(members := m.members + {(room, id)})
    case Leaves(room, id) => m.(members := m.members - {(room, id)})
  }

  function ApplyAll(m: Membership, ops: seq<Op>): (n: Membership) {
    if ops == [] then m else Apply(ApplyAll(m, ops[..|ops| - 1]), ops[|ops| - 1])
  }

  // ---------- membership read off the history ----------

  predicate Admits(op: Op, room: Room, id: Id) {
    op == Joins(room, id) || (op == Adds(id) && room == id)
  }

  predicate Expels(op: Op, room: Room, id: Id) {
    op == Leaves(room, id) || op == Removes(id)
  }

  /** Somebody is in a room when they were let in and not put out since. */
  ghost predicate In(ops: seq<Op>, room: Room, id: Id) {
    exists i :: 0 <= i < |ops| && Admits(ops[i], room, id) && StaysFrom(ops, i + 1, room, id)
  }

  ghost predicate StaysFrom(ops: seq<Op>, from: nat, room: Room, id: Id) {
    forall j :: from <= j < |ops| ==> !Expels(ops[j], room, id)
  }

  ghost predicate Registered(ops: seq<Op>, id: Id) {
    exists i :: 0 <= i < |ops| && ops[i] == Adds(id) && Removes(id) !in ops[i + 1..]
  }

  lemma InSnoc(ops: seq<Op>, op: Op, room: Room, id: Id)
    ensures In(ops + [op], room, id) <==> Admits(op, room, id) || (In(ops, room, id) && !Expels(op, room, id))
  {
    var all := ops + [op];
    if Admits(op, room, id) {
      assert all[|ops|] == op && StaysFrom(all, |ops| + 1, room, id);
    } else if In(ops, room, id) && !Expels(op, room, id) {
      var i :| 0 <= i < |ops| && Admits(ops[i], room, id) && StaysFrom(ops, i + 1, room, id);
      assert all[i] == ops[i] && StaysFrom(all, i + 1, room, id);
    }
    if In(all, room, id) && !Admits(op, room, id) {
      var i :| 0 <= i < |all| && Admits(all[i], room, id) && StaysFrom(all, i + 1, room, id);
      assert all[i] == ops[i] && all[|ops|] == op;
      assert forall j :: i + 1 <= j < |ops| ==> all[j] == ops[j];
      assert StaysFrom(ops, i + 1, room, id);
    }
  }

  lemma RegisteredSnoc(ops: seq<Op>, op: Op, id: Id)
    ensures Registered(ops + [op], id) <==> op == Adds(id) || (Registered(ops, id) && op != Removes(id))
  {
    var all := ops + [op];
    if op == Adds(id) {
      assert all[|ops|] == op && all[|ops| + 1..] == [];
    } else if Registered(ops, id) && op != Removes(id) {
      var i :| 0 <= i < |ops| && ops[i] == Adds(id) && Removes(id) !in ops[i + 1..];
      assert all[i] == ops[i] && all[i + 1..] == ops[i + 1..] + [op];
    }
    if Registered(all, id) && op != Adds(id) {
      var i :| 0 <= i < |all| && all[i] == Adds(id) && Removes(id) !in all[i + 1..];
      assert all[i] == ops[i] && all[i + 1..] == ops[i + 1..] + [op];
    }
  }

  /** After any operations, the relation holds exactly the memberships the history grants. */
  lemma {:induction false} MembershipIsHistory(ops: seq<Op>, room: Room, id: Id)
    ensures var m := ApplyAll(Membership({}, {}), ops);
            && ((room, id) in m.members <==> In(ops, room, id))
            && (id in m.ids <==> Registered(ops, id))
  {
    if ops != [] {
      var before, op := ops[..|ops| - 1], ops[|ops| - 1];
      assert ops == before + [op];
      MembershipIsHistory(before, room, id);
      InSnoc(before, op, room, id);
      RegisteredSnoc(before, op, id);
    }
  }

  // ---------- whom a broadcast reaches ----------

  /** The empty room stands for the whole namespace; an unknown room has nobody in it. */
  function Targets(m: Membership, room: Room, except: seq<Id>): (ids: set<Id>) {
    if room != "" then set p | p in m.members && p.0 == room && p.1 !in except :: p.1
    else set id | id in m.ids && id !in except
  }

  datatype Operator = Operator(room: Room, except: seq<Id>) {
    function Except(ids: seq<Id>): (o: Operator) {
      Operator(room, except + ids)
    }
  }

  /** Chained exclusions add up, in any order, and exclude nobody else. */
  lemma ExceptNarrows(m: Membership, o: Operator, ids: seq<Id>, more: seq<Id>)
    ensures var narrowed := o.Except(ids);
            Targets(m, narrowed.room, narrowed.except) == Targets(m, o.room, o.except) - (set id | id in ids)
    ensures var ab, ba := o.Except(ids).Except(more), o.Except(more).Except(ids);
            Targets(m, ab.room, ab.except) == Targets(m, ba.room, ba.except)
  {
  }

  // ---------- the adapter object ----------

  method Excepted(except: seq<Id>, id: Id) returns (found: bool)
    ensures found <==> id in except
  {
    for i := 0 to |except|
      invariant id !in except[..i]
    {
      if except[i] == id {
        return true;
      }
    }
    return false;
  }

  /** The ids of a set outside `except`, in whatever order the map yields them. */
  method Collect(ids: set<Id>, except: seq<Id>) returns (targets: seq<Id>)
    ensures Distinct(targets)
    ensures forall id :: id in targets <==> id in ids && id !in except
  {
    targets := [];
    var todo := ids;
    while todo != {}
      invariant todo <= ids && Distinct(targets)
      invariant forall id :: id in targets <==> id in ids && id !in todo && id !in except
      decreases |todo|
    {
      var id :| id in todo;
      todo := todo - {id};
      var skip := Excepted(except, id);
      if !skip {
        targets := targets + [id];
      }
    }
  }

  class MemoryAdapter {
    var ids: set<Id>
    var rooms: map<Room, set<Id>>

    /** No empty room is stored. */
    ghost predicate Valid()
      reads this
    {
      forall r :: r in rooms ==> rooms[r] != {}
    }

    ghost function View(): Membership
      reads this
    {
      Membership(ids, set r, i | r in rooms && i in rooms[r] :: (r, i))
    }

    constructor ()
      ensures Valid() && View() == Membership({}, {})
    {
      ids, rooms := {}, map[];
    }

    method AddSocket(id: Id)
      requires Valid()
      modifies this
      ensures Valid() && View() == Apply(old(View()), Adds(id))
    {
      ids := ids + {id};
      AddToRoom(id, id);
    }

    method RemoveSocket(id: Id)
      requires Valid()
      modifies this
      ensures Valid() && View() == Apply(old(View()), Removes(id))
    {
      ids := ids - {id};
      ghost var before := rooms;
      var todo := rooms.Keys;
      while todo != {}
        invariant todo <= before.Keys && Valid() && ids == old(ids) - {id}
        invariant rooms.Keys <= before.Keys
        invariant forall r :: r in todo ==> r in rooms && rooms[r] == before[r]
        invariant forall r :: r in before && r !in todo ==>
                    if before[r] == {id} then r !in rooms else r in rooms && rooms[r] == before[r] - {id}
        decreases |todo|
      {
        var room :| room in todo;
        todo := todo - {room};
        if id in rooms[room] {
          var m := rooms[room] - {id};
          if m == {} {
            assert before[room] == {id};
            rooms := rooms - {room};
          } else {
            rooms := rooms[room := m];
          }
        } else {
          assert before[room] - {id} == before[room];
        }
      }
    }

    method AddToRoom(room: Room, id: Id)
      requires Valid()
      modifies this`rooms
      ensures Valid() && View() == Apply(old(View()), Joins(room, id))
    {
      if room !in rooms {
        rooms := rooms[room := {id}];
      } else {
        rooms := rooms[room := rooms[room] + {id}];
      }
    }

    method RemoveFromRoom(room: Room, id: Id)
      requires Valid()
      modifies this`rooms
      ensures Valid() && View() == Apply(old(View()), Leaves(room, id))
    {
      if room in rooms {
        var m := rooms[room] - {id};
        assert forall i :: i in rooms[room] <==> i in m || (i == id && id in rooms[room]);
        rooms := if m == {} then rooms - {room} else rooms[room := m];
      }
    }

    /** The ids to deliver to, each once. */
    method Broadcast(room: Room, except: seq<Id>) returns (targets: seq<Id>)
      requires Valid()
      ensures Distinct(targets)
      ensures forall id :: id in targets <==> id in Targets(View(), room, except)
    {
      if room != "" {
        targets := Collect(if room in rooms then rooms[room] else {}, except);
        assert forall id :: (room, id) in View().members <==> room in rooms && id in rooms[room];
        assert forall id :: id in Targets(View(), room, except) <==> (room, id) in View().members && id !in except;
      } else {
        targets := Collect(ids, except);
      }
    }
  }
}

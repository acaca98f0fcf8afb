/**
 Acknowledgements. Each emit draws a 64-bit id and registers a callback under it;
 an incoming ack takes the callback out of the table under the mutex and calls it
 after releasing it. Drawing, registering, taking, calling and clearing are
 separate steps of different callers.
 */
module Acks {
  import opened Octets
  import opened Sequences

  /** Emits are numbered 1, 2, ...; the number names the emit's callback. */
  type Emit = nat

  /** The id the n-th emit draws from a 64-bit counter. */
  function IdOf(n: Emit): (id: int) {
    Wrap64(n)
  }

  /**
   `drawn` are emits with an id and no callback in the table yet. `taken` lists the
   callbacks taken to be called, with the id of the ack that did it; `due` are those
   not yet called and `called` the rest in order. `dropped` are those a clear, a
   removal or a later registration took away.
   */
  datatype Table = Table(seqNo: int, cbs: map<int, Emit>, issued: nat, drawn: set<Emit>,
                         taken: seq<(int, Emit)>, due: set<Emit>, called: seq<Emit>, dropped: set<Emit>)

  const EMPTY := Table(0, map[], 0, {}, [], {}, [], {})

  function Draw(t: Table): (u: Table) {
    t.(seqNo := Wrap64(t.seqNo + 1), issued := t.issued + 1, drawn := t.drawn + {t.issued + 1})
  }

  function Register(t: Table, n: Emit): (u: Table) {
    t.(cbs := t.cbs[IdOf(n) := n], drawn := t.drawn - {n},
       dropped := if IdOf(n) in t.cbs then t.dropped + {t.cbs[IdOf(n)]} else t.dropped)
  }

  /** The locked part of an ack's arrival. */
  function Take(t: Table, id: int): (u: Table) {
    if id !in t.cbs then t
    else t.(cbs := t.cbs - {id}, taken := t.taken + [(id, t.cbs[id])], due := t.due + {t.cbs[id]})
  }

  function Call(t: Table, n: Emit): (u: Table) {
    t.(due := t.due - {n}, called := t.called + [n])
  }

  /** The whole of it. */
  function Invoke(t: Table, id: int): (u: Table) {
    if id !in t.cbs then t else Call(Take(t, id), t.cbs[id])
  }

  function Remove(t: Table, id: int): (u: Table) {
    if id !in t.cbs then t else t.(cbs := t.cbs - {id}, dropped := t.dropped + {t.cbs[id]})
  }

  /** The counter goes on where it was. */
  function Clear(t: Table): (u: Table) {
    t.(cbs := map[], dropped := t.dropped + (set id | id in t.cbs :: t.cbs[id]))
  }

  datatype Action = Draws | Registers(n: Emit) | Acked(id: int) | Calls(n: Emit) | Removes(id: int) | Clears

  predicate Enabled(t: Table, a: Action) {
    match a
    case Registers(n) => n in t.drawn
    case Calls(n) => n in t.due
    case _ => true
  }

  function Next(t: Table, a: Action): (u: Table)
    requires Enabled(t, a)
  {
    match a
    case Draws => Draw(t)
    case Registers(n) => Register(t, n)
    case Acked(id) => Take(t, id)
    case Calls(n) => Call(t, n)
    case Removes(id) => Remove(t, id)
    case Clears => Clear(t)
  }

  ghost predicate Legal(t: Table, run: seq<Action>)
    decreases |run|
  {
    run == [] || (Enabled(t, run[0]) && Legal(Next(t, run[0]), run[1..]))
  }

  ghost function After(t: Table, run: seq<Action>): (u: Table)
    requires Legal(t, run)
    decreases |run|
  {
    if run == [] then t else After(Next(t, run[0]), run[1..])
  }

  // ---------- what every step keeps ----------

  ghost predicate Taken(t: Table, n: Emit) {
    exists i :: 0 <= i < |t.taken| && t.taken[i].1 == n
  }

  /** A callback waits to be registered, is in the table, was taken or was dropped, and never two of these. */
  predicate Counted(t: Table) {
    && t.seqNo == Wrap64(t.issued)
    && (forall n :: n in t.drawn ==> 1 <= n <= t.issued)
    && (forall id :: id in t.cbs ==> 1 <= t.cbs[id] <= t.issued && IdOf(t.cbs[id]) == id && t.cbs[id] !in t.drawn)
    && (forall n :: n in t.dropped ==> 1 <= n <= t.issued && n !in t.drawn && !Listed(t, n))
  }

  predicate Listed(t: Table, n: Emit) {
    IdOf(n) in t.cbs && t.cbs[IdOf(n)] == n
  }

  predicate OneShot(t: Table) {
    && (forall i :: 0 <= i < |t.taken| ==>
          var (id, n) := t.taken[i];
          1 <= n <= t.issued && id == IdOf(n) && n !in t.drawn && n !in t.dropped && !Listed(t, n))
    && (forall i, j :: 0 <= i < j < |t.taken| ==> t.taken[i].1 != t.taken[j].1)
  }

  /** Taken callbacks are due or were called, once. */
  ghost predicate CalledOnce(t: Table) {
    && Distinct(t.called)
    && (forall n :: n in t.due ==> Taken(t, n) && n !in t.called)
    && (forall n :: n in t.called ==> Taken(t, n))
  }

  lemma StepKeepsCounted(t: Table, a: Action)
    requires Counted(t) && Enabled(t, a)
    ensures Counted(Next(t, a))
  {
  }

  lemma StepKeepsOneShot(t: Table, a: Action)
    requires Counted(t) && OneShot(t) && Enabled(t, a)
    ensures OneShot(Next(t, a))
  {
  }

  lemma TakenStays(t: Table, u: Table, n: Emit)
    requires Taken(t, n) && t.taken <= u.taken
    ensures Taken(u, n)
  {
    var i :| 0 <= i < |t.taken| && t.taken[i].1 == n;
    assert u.taken[i].1 == n;
  }

  lemma TakeKeepsCalledOnce(t: Table, id: int)
    requires Counted(t) && OneShot(t) && CalledOnce(t)
    ensures CalledOnce(Take(t, id))
  {
    var u := Take(t, id);
    forall n | Taken(t, n) ensures Taken(u, n) {
      TakenStays(t, u, n);
    }
    if id in t.cbs {
      assert u.taken[|t.taken|].1 == t.cbs[id];
      assert !Taken(t, t.cbs[id]);
    }
  }

  lemma StepKeepsCalledOnce(t: Table, a: Action)
    requires Counted(t) && OneShot(t) && CalledOnce(t) && Enabled(t, a)
    ensures CalledOnce(Next(t, a))
  {
    match a
    case Acked(id) => TakeKeepsCalledOnce(t, id);
    case _ =>
      forall n | Taken(t, n) ensures Taken(Next(t, a), n) {
        TakenStays(t, Next(t, a), n);
      }
  }

  lemma {:induction false} RunKeepsOneShot(t: Table, run: seq<Action>)
    requires Counted(t) && OneShot(t) && CalledOnce(t) && Legal(t, run)
    ensures Counted(After(t, run)) && OneShot(After(t, run)) && CalledOnce(After(t, run))
    decreases |run|
  {
    if run != [] {
      StepKeepsCounted(t, run[0]);
      StepKeepsOneShot(t, run[0]);
      StepKeepsCalledOnce(t, run[0]);
      RunKeepsOneShot(Next(t, run[0]), run[1..]);
    }
  }

  // ---------- theorems ----------

  /**
   Over every run each callback is called at most once, only after an ack with its
   own id took it, and never if a clear or a removal dropped it.
   */
  lemma CallbacksRunAtMostOnce(run: seq<Action>)
    requires Legal(EMPTY, run)
    ensures var t := After(EMPTY, run);
            && Distinct(t.called)
            && (forall n :: n in t.called ==> (IdOf(n), n) in t.taken && n !in t.dropped)
            && (forall i, j :: 0 <= i < j < |t.taken| ==> t.taken[i].1 != t.taken[j].1)
  {
    RunKeepsOneShot(EMPTY, run);
    var t := After(EMPTY, run);
    forall n | n in t.called ensures (IdOf(n), n) in t.taken && n !in t.dropped {
      assert Taken(t, n);
      var i :| 0 <= i < |t.taken| && t.taken[i].1 == n;
      assert t.taken[i] == (IdOf(n), n);
    }
  }

  /** A clear drops exactly the callbacks in the table: one already taken is still called, after the clear. */
  lemma CallAfterClear(t: Table, id: int)
    requires Counted(t) && OneShot(t) && id in t.cbs
    ensures var n, u := t.cbs[id], Clear(Take(t, id));
            Enabled(u, Calls(n)) && u.cbs == map[] && n !in u.dropped && Call(u, n).called == t.called + [n]
  {
  }

  ghost predicate CalledDuring(t: Table, run: seq<Action>, n: Emit) {
    Legal(t, run) && multiset(After(t, run).called)[n] > multiset(t.called)[n]
  }

  /** Nobody holds the callback any more. */
  predicate Spent(t: Table, n: Emit) {
    1 <= n <= t.issued && n !in t.drawn && !Listed(t, n) && n !in t.due
  }

  lemma {:induction false} SpentIsNeverCalled(t: Table, run: seq<Action>, n: Emit)
    requires Counted(t) && Spent(t, n) && Legal(t, run)
    ensures !CalledDuring(t, run, n)
    decreases |run|
  {
    if run != [] {
      var u := Next(t, run[0]);
      StepKeepsCounted(t, run[0]);
      assert Spent(u, n) && multiset(u.called)[n] == multiset(t.called)[n];
      SpentIsNeverCalled(u, run[1..], n);
    }
  }

  lemma Prepend(t: Table, a: Action, run: seq<Action>)
    requires Enabled(t, a) && Legal(Next(t, a), run)
    ensures Legal(t, [a] + run) && After(t, [a] + run) == After(Next(t, a), run)
  {
    assert ([a] + run)[1..] == run;
  }

  lemma DueIsCalled(t: Table, n: Emit)
    requires n in t.due
    ensures CalledDuring(t, [Calls(n)], n)
  {
    Prepend(t, Calls(n), []);
    assert [Calls(n)] + [] == [Calls(n)];
  }

  /** A callback whose id was drawn can still be registered, acknowledged and called. */
  function Belated(n: Emit): seq<Action> {
    [Registers(n)] + ([Acked(IdOf(n))] + [Calls(n)])
  }

  lemma DrawnIsCalled(t: Table, n: Emit)
    requires n in t.drawn
    ensures CalledDuring(t, Belated(n), n)
  {
    var u := Register(t, n);
    var v := Take(u, IdOf(n));
    DueIsCalled(v, n);
    Prepend(u, Acked(IdOf(n)), [Calls(n)]);
    Prepend(t, Registers(n), [Acked(IdOf(n))] + [Calls(n)]);
  }

  /**
   After a clear, as when the socket disconnects, a callback is still called in some
   run if and only if it was already taken, or its id was drawn and it was not yet registered.
   */
  lemma CalledAfterClearIff(t: Table, n: Emit)
    requires Counted(t) && 1 <= n <= t.issued
    ensures (exists run :: CalledDuring(Clear(t), run, n)) <==> n in t.due || n in t.drawn
  {
    var u := Clear(t);
    if n in t.due {
      DueIsCalled(u, n);
    } else if n in t.drawn {
      DrawnIsCalled(u, n);
    } else {
      StepKeepsCounted(t, Clears);
      forall run | Legal(u, run) ensures !CalledDuring(u, run, n) {
        SpentIsNeverCalled(u, run, n);
      }
    }
  }

  /** A run from the start in which a callback is registered after the clear, and called. */
  lemma BelatedCallReached() returns (run: seq<Action>)
    ensures run == [Draws] + ([Clears] + Belated(1)) && CalledDuring(EMPTY, run, 1)
  {
    var t := Draw(EMPTY);
    DrawnIsCalled(Clear(t), 1);
    Prepend(t, Clears, Belated(1));
    Prepend(EMPTY, Draws, [Clears] + Belated(1));
    run := [Draws] + ([Clears] + Belated(1));
  }

  lemma SameIdMeansFarApart(a: Emit, b: Emit)
    ensures IdOf(a) == IdOf(b) <==> (b - a) % TWO_TO_64 == 0
  {
  }

  /** Ids of the first n emits are distinct exactly as long as the 64-bit counter has not come round. */
  lemma IdsAreDistinct(n: nat)
    ensures (forall a: Emit, b: Emit :: 1 <= a < b <= n ==> IdOf(a) != IdOf(b)) <==> n <= TWO_TO_64
  {
    if n <= TWO_TO_64 {
      forall a: Emit, b: Emit | 1 <= a < b <= n ensures IdOf(a) != IdOf(b) {
        SameIdMeansFarApart(a, b);
      }
    } else {
      SameIdMeansFarApart(1, TWO_TO_64 + 1);
      assert IdOf(1) == IdOf(TWO_TO_64 + 1);
    }
  }

  /**
   Since a clear keeps the counter, the ack of an emit can only run that emit's
   callback: never one registered later, and none at all after a clear dropped it.
   */
  lemma AckFindsOwnCallback(run: seq<Action>, n: Emit)
    requires Legal(EMPTY, run) && After(EMPTY, run).issued <= TWO_TO_64
    requires 1 <= n <= After(EMPTY, run).issued
    ensures var t := After(EMPTY, run);
            && (IdOf(n) in t.cbs ==> t.cbs[IdOf(n)] == n)
            && (n in t.dropped || Taken(t, n) ==> Take(t, IdOf(n)) == t)
  {
    var t := After(EMPTY, run);
    RunKeepsOneShot(EMPTY, run);
    IdsAreDistinct(t.issued);
  }

  // ---------- the objects ----------

  class AckTable {
    var seqNo: int
    var cbs: map<int, Emit>
    ghost var issued: nat
    ghost var drawn: set<Emit>
    ghost var taken: seq<(int, Emit)>
    ghost var due: set<Emit>
    ghost var called: seq<Emit>
    ghost var dropped: set<Emit>

    ghost function View(): Table
      reads this
    {
      Table(seqNo, cbs, issued, drawn, taken, due, called, dropped)
    }

    constructor ()
      ensures View() == EMPTY
    {
      seqNo, cbs, issued, drawn, taken, due, called, dropped := 0, map[], 0, {}, [], {}, [], {};
    }

    method NextId() returns (id: int)
      requires Counted(View())
      modifies this
      ensures View() == Draw(old(View())) && id == IdOf(issued)
    {
      seqNo := Wrap64(seqNo + 1);
      id := seqNo;
      issued, drawn := issued + 1, drawn + {issued + 1};
    }

    method RegisterCallback(id: int, cb: Emit)
      modifies this
      ensures cbs == old(cbs)[id := cb] && seqNo == old(seqNo)
      ensures id == IdOf(cb) ==> View() == Register(old(View()), cb)
    {
      dropped := if id in cbs then dropped + {cbs[id]} else dropped;
      drawn := drawn - {cb};
      cbs := cbs[id := cb];
    }

    /** Takes the callback out and calls it, if there is one. */
    method InvokeCallback(id: int) returns (cb: Option<Emit>)
      modifies this
      ensures View() == Invoke(old(View()), id)
      ensures cb == if id in old(cbs) then Some(old(cbs)[id]) else None
    {
      if id !in cbs {
        return None;
      }
      cb := Some(cbs[id]);
      taken, due := taken + [(id, cbs[id])], due + {cbs[id]};
      cbs := cbs - {id};
      due, called := due - {cb.value}, called + [cb.value];
    }

    method RemoveCallback(id: int)
      modifies this
      ensures View() == Remove(old(View()), id)
    {
      dropped := if id in cbs then dropped + {cbs[id]} else dropped;
      cbs := cbs - {id};
    }

    method ClearAll()
      modifies this
      ensures View() == Clear(old(View()))
    {
      dropped := dropped + (set id | id in cbs :: cbs[id]);
      cbs := map[];
    }
  }

  /**
   Emits with an acknowledgement: an error when disconnected, and id -1 when no
   callback was given. A callback goes by the number of its emit; `sent` are the ids
   on the event packets that go out.
   */
  method EmitWithAck(table: AckTable, connected: bool, cb: Option<Emit>) returns (id: Option<int>, sent: seq<int>)
    requires Counted(table.View()) && (cb.Some? ==> cb.value == table.issued + 1)
    modifies table
    ensures !connected ==> id == None && table.View() == old(table.View())
    ensures connected && cb == None ==> id == Some(-1) && table.View() == old(table.View())
    ensures connected && cb.Some? ==>
              table.View() == Register(Draw(old(table.View())), cb.value) && id == Some(IdOf(cb.value))
    ensures sent == if id == None then [] else [id.value]
  {
    if !connected {
      return None, [];
    }
    if cb == None {
      return Some(-1), [-1];
    }
    var n := table.NextId();
    table.RegisterCallback(n, cb.value);
    return Some(n), [n];
  }
}

/**
 The server's table of sessions by id. Creating a session enters it; the close
 callback of a session deletes its id, whatever stands under that id by then.
 Both interleave with the actions of every session.
 */
module ServerTable {
  import opened Octets
  import S = SessionSystem
  import T = SessionTheorems

  type Id = string

  /** Sessions go by number; `ids` is the id each was given. */
  datatype Server = Server(clients: map<Id, nat>, ids: map<nat, Id>, sessions: map<nat, S.Session>)

  const EMPTY := Server(map[], map[], map[])

  datatype Step = Create(n: nat, id: Id, start: S.Session) | Act(n: nat, a: S.Action)

  predicate Enabled(v: Server, x: Step) {
    match x
    case Create(n, _, start) => n !in v.sessions && n !in v.ids && S.Begins(start)
    case Act(n, a) => n in v.sessions && n in v.ids && S.Enabled(v.sessions[n], a)
  }

  function Next(v: Server, x: Step): (u: Server)
    requires Enabled(v, x)
  {
    match x
    case Create(n, id, start) => Server(v.clients[id := n], v.ids[n := id], v.sessions[n := start])
    case Act(n, a) =>
      Server(if a == S.Shutting(S.Farewell) then v.clients - {v.ids[n]} else v.clients,
             v.ids, v.sessions[n := S.Next(v.sessions[n], a)])
  }

  ghost predicate Legal(v: Server, run: seq<Step>)
    decreases |run|
  {
    run == [] || (Enabled(v, run[0]) && Legal(Next(v, run[0]), run[1..]))
  }

  ghost function After(v: Server, run: seq<Step>): (u: Server)
    requires Legal(v, run)
    decreases |run|
  {
    if run == [] then v else After(Next(v, run[0]), run[1..])
  }

  // ---------- the table ----------

  predicate Sound(v: Server) {
    && v.ids.Keys == v.sessions.Keys
    && (forall n :: n in v.sessions ==> T.OneFarewell(v.sessions[n]))
  }

  predicate Listed(v: Server, n: nat)
    requires n in v.ids
  {
    v.ids[n] in v.clients && v.clients[v.ids[n]] == n
  }

  /** The table holds exactly the sessions whose close callback has not run, each under its id. */
  predicate Exact(v: Server) {
    && Sound(v)
    && (forall n :: n in v.sessions ==> (Listed(v, n) <==> v.sessions[n].calls.notified == 0))
    && (forall id :: id in v.clients ==> v.clients[id] in v.ids && v.ids[v.clients[id]] == id)
  }

  /** A session is created under an id not in use. */
  predicate FreshId(v: Server, x: Step) {
    x.Create? ==> x.id !in v.clients
  }

  lemma BeginningHasNoFarewell(start: S.Session)
    requires S.Begins(start)
    ensures T.OneFarewell(start) && start.calls.notified == 0 && start.ready == S.Open
  {
  }

  lemma StepKeepsSound(v: Server, x: Step)
    requires Sound(v) && Enabled(v, x)
    ensures Sound(Next(v, x))
  {
    match x
    case Create(n, id, start) => BeginningHasNoFarewell(start);
    case Act(n, a) => T.StepKeepsOneFarewell(v.sessions[n], a);
  }

  lemma EnteringKeepsExact(v: Server, n: nat, id: Id, start: S.Session)
    requires Exact(v) && n !in v.sessions && T.OneFarewell(start) && start.calls.notified == 0
    ensures Exact(Server(v.clients[id := n], v.ids[n := id], v.sessions[n := start])) <==> id !in v.clients
  {
    var u := Server(v.clients[id := n], v.ids[n := id], v.sessions[n := start]);
    if id in v.clients {
      var m := v.clients[id];
      assert Listed(v, m) && !Listed(u, m) && u.sessions[m] == v.sessions[m];
    } else {
      forall m | m in u.sessions ensures Listed(u, m) <==> u.sessions[m].calls.notified == 0 {
        if m != n {
          assert Listed(u, m) <==> Listed(v, m);
        }
      }
    }
  }

  lemma CreateKeepsExact(v: Server, n: nat, id: Id, start: S.Session)
    requires Exact(v) && Enabled(v, Create(n, id, start))
    ensures Exact(Next(v, Create(n, id, start))) <==> id !in v.clients
  {
    BeginningHasNoFarewell(start);
    EnteringKeepsExact(v, n, id, start);
  }

  lemma OnlyFarewellStepNotifies(s: S.Session, a: S.CloseStep)
    requires S.CanShut(s, a)
    ensures S.NextShut(s, a).calls.notified == s.calls.notified + if a.Farewell? then 1 else 0
  {
  }

  lemma OnlyFarewellNotifies(s: S.Session, a: S.Action)
    requires S.Enabled(s, a)
    ensures S.Next(s, a).calls.notified == s.calls.notified + if a == S.Shutting(S.Farewell) then 1 else 0
  {
    if a.Shutting? {
      OnlyFarewellStepNotifies(s, a.close);
    } else {
      T.OnlyClosingSaysFarewell(s);
    }
  }

  /** A callback finds its session listed, and leaves the table exact. */
  lemma UnlistingKeepsExact(v: Server, n: nat, t: S.Session)
    requires Exact(v) && n in v.sessions && v.sessions[n].calls.notified == 0
    requires T.OneFarewell(t) && t.calls.notified == 1
    ensures Exact(Server(v.clients - {v.ids[n]}, v.ids, v.sessions[n := t]))
  {
    assert Listed(v, n);
  }

  lemma WorkingKeepsExact(v: Server, n: nat, t: S.Session)
    requires Exact(v) && n in v.sessions && T.OneFarewell(t) && t.calls.notified == v.sessions[n].calls.notified
    ensures Exact(v.(sessions := v.sessions[n := t]))
  {
    var u := v.(sessions := v.sessions[n := t]);
    forall m | m in u.sessions ensures Listed(u, m) <==> u.sessions[m].calls.notified == 0 {
      assert Listed(u, m) <==> Listed(v, m);
    }
  }

  lemma ActKeepsExact(v: Server, n: nat, a: S.Action)
    requires Exact(v) && Enabled(v, Act(n, a))
    ensures Exact(Next(v, Act(n, a)))
  {
    var s := v.sessions[n];
    var t := S.Next(s, a);
    T.StepKeepsOneFarewell(s, a);
    OnlyFarewellNotifies(s, a);
    if a == S.Shutting(S.Farewell) {
      UnlistingKeepsExact(v, n, t);
    } else {
      WorkingKeepsExact(v, n, t);
    }
  }

  /** The table stays exact if and only if the id a session is created under is not in use. */
  lemma StepKeepsExact(v: Server, x: Step)
    requires Exact(v) && Enabled(v, x)
    ensures Exact(Next(v, x)) <==> FreshId(v, x)
  {
    match x
    case Create(n, id, start) => CreateKeepsExact(v, n, id, start);
    case Act(n, a) => ActKeepsExact(v, n, a);
  }

  // ---------- over runs ----------

  ghost predicate ExactThroughout(v: Server, run: seq<Step>)
    requires Legal(v, run)
    decreases |run|
  {
    Exact(v) && (run == [] || ExactThroughout(Next(v, run[0]), run[1..]))
  }

  ghost predicate FreshIds(v: Server, run: seq<Step>)
    requires Legal(v, run)
    decreases |run|
  {
    run == [] || (FreshId(v, run[0]) && FreshIds(Next(v, run[0]), run[1..]))
  }

  /** ... at every moment if and only if ids are fresh whenever a session is created. */
  lemma {:induction false} TableIsExactIffIdsAreFresh(v: Server, run: seq<Step>)
    requires Exact(v) && Legal(v, run)
    ensures ExactThroughout(v, run) <==> FreshIds(v, run)
    ensures FreshIds(v, run) ==> Exact(After(v, run))
    decreases |run|
  {
    if run != [] {
      StepKeepsExact(v, run[0]);
      if FreshId(v, run[0]) {
        TableIsExactIffIdsAreFresh(Next(v, run[0]), run[1..]);
      } else {
        assert !ExactThroughout(Next(v, run[0]), run[1..]);
      }
    }
  }

  /** No id is ever given twice. */
  ghost predicate DistinctIds(v: Server, run: seq<Step>)
    requires Legal(v, run)
    decreases |run|
  {
    run == []
    || (&& (run[0].Create? ==> run[0].id !in v.ids.Values)
        && DistinctIds(Next(v, run[0]), run[1..]))
  }

  lemma ListedIdsWereGiven(v: Server)
    requires Exact(v)
    ensures forall id :: id in v.clients ==> id in v.ids.Values
  {
    forall id | id in v.clients ensures id in v.ids.Values {
      assert v.ids[v.clients[id]] == id;
    }
  }

  lemma {:induction false} DistinctIdsAreFresh(v: Server, run: seq<Step>)
    requires Exact(v) && Legal(v, run) && DistinctIds(v, run)
    ensures FreshIds(v, run)
    decreases |run|
  {
    if run != [] {
      ListedIdsWereGiven(v);
      StepKeepsExact(v, run[0]);
      DistinctIdsAreFresh(Next(v, run[0]), run[1..]);
    }
  }

  /**
   With distinct ids, over every run of a server and all its sessions: a session
   is in the table if and only if its close callback has not run; so an unclosed
   one always is, and a closed one is until its callback, which comes once.
   */
  lemma InClientsIffNotClosed(run: seq<Step>, n: nat)
    requires Legal(EMPTY, run) && DistinctIds(EMPTY, run) && n in After(EMPTY, run).sessions
    ensures var v := After(EMPTY, run);
            && n in v.ids
            && (Listed(v, n) <==> v.sessions[n].calls.notified == 0)
            && (v.sessions[n].ready != S.Closed ==> Listed(v, n))
            && (v.sessions[n].ready == S.Closed && v.sessions[n].calls.farewells == 0 ==> !Listed(v, n))
  {
    DistinctIdsAreFresh(EMPTY, run);
    TableIsExactIffIdsAreFresh(EMPTY, run);
  }

  // ---------- a repeated id ----------

  /** Ending session m and running its callback. */
  function EndingOf(m: nat): seq<Step> {
    [Act(m, S.Shutting(S.End)), Act(m, S.Shutting(S.Farewell))]
  }

  lemma Prepend(v: Server, x: Step, run: seq<Step>)
    requires Enabled(v, x) && Legal(Next(v, x), run)
    ensures Legal(v, [x] + run) && After(v, [x] + run) == After(Next(v, x), run)
  {
    assert ([x] + run)[1..] == run;
  }

  lemma EndBeginsFarewell(s: S.Session)
    requires T.OneFarewell(s) && s.ready != S.Closed
    ensures S.Enabled(s, S.Shutting(S.End)) && S.Enabled(S.Next(s, S.Shutting(S.End)), S.Shutting(S.Farewell))
  {
  }

  lemma EndingUnlists(v: Server, m: nat)
    requires m in v.sessions && m in v.ids && T.OneFarewell(v.sessions[m]) && v.sessions[m].ready != S.Closed
    ensures Legal(v, EndingOf(m))
    ensures var u := After(v, EndingOf(m));
            && v.ids[m] !in u.clients && u.ids == v.ids
            && (forall n :: n in v.sessions && n != m ==> n in u.sessions && u.sessions[n] == v.sessions[n])
  {
    var end, farewell := Act(m, S.Shutting(S.End)), Act(m, S.Shutting(S.Farewell));
    EndBeginsFarewell(v.sessions[m]);
    var u := Next(v, end);
    Prepend(u, farewell, []);
    Prepend(v, end, [farewell]);
    assert [end] + [farewell] == EndingOf(m) && [farewell] + [] == [farewell];
  }

  /** A generator of ids may repeat itself: closing the first session then unlists the second while it is open. */
  lemma RepeatedIdUnlistsOpenSession(v: Server, m: nat, n: nat, start: S.Session)
    requires Exact(v) && m in v.sessions && v.sessions[m].ready != S.Closed
    requires n !in v.sessions && S.Begins(start)
    ensures var created := Next(v, Create(n, v.ids[m], start));
            && Legal(created, EndingOf(m))
            && var u := After(created, EndingOf(m));
               n in u.sessions && u.sessions[n].ready == S.Open && n in u.ids && u.ids[n] !in u.clients
  {
    var x := Create(n, v.ids[m], start);
    StepKeepsSound(v, x);
    BeginningHasNoFarewell(start);
    EndingUnlists(Next(v, x), m);
  }
}

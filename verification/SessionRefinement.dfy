/**
 Each step of the serial session is a run of the interleaved one: the calls it
 stands for, made one after the other. What is proved of serial runs is thereby
 proved of runs the interleaved session really has.
 */
module SessionRefinement {
  import opened Octets
  import E = EnginePayload
  import P = PollingTransport
  import S = SessionSystem
  import Z = SerialSession

  type Packet = E.Packet

  // ---------- matching states ----------

  /** The same transport, whoever has yet to close a poll's channel. */
  predicate SamePolling(p: P.Polling, q: P.Polling) {
    p == q.(log := p.log) && p.log.seen == q.log.seen
  }

  predicate Calm(s: Z.State) {
    P.OnePoll(s.polling) && s.polling.sendBuffer == [] && (s.severed ==> s.onWebsocket)
  }

  ghost predicate SomeAborted(candidates: map<nat, S.Candidate>) {
    exists k :: k in candidates && candidates[k] == S.Aborted
  }

  /** Attempts still probing, on websockets of their own, and one given up if there was any. */
  ghost predicate Attempts(s: Z.State, f: S.Session, ks: set<nat>) {
    Attempting(s.probing, s.givenUp, f.candidates, f.active, f.severed, ks)
  }

  ghost predicate Attempting(probing: nat, givenUp: bool, candidates: map<nat, S.Candidate>,
                             active: nat, severed: set<nat>, ks: set<nat>) {
    && |ks| == probing
    && (forall k :: k in ks ==> k > 0 && k in candidates && candidates[k] == S.Probing)
    && (forall k :: k in ks ==> k != active && k !in severed)
    && (givenUp ==> SomeAborted(candidates))
  }

  /** `f` is `s` between calls, with `c` still to be done; farewells are those notified. */
  ghost predicate Mirrors(s: Z.State, f: S.Session, ks: set<nat>, c: S.Calls) {
    && f.ready == s.ready && (f.active != 0 <==> s.onWebsocket)
    && f.upgrading == s.upgrading && f.upgraded == s.upgraded
    && f.retirement == (if s.onWebsocket then S.Retired else S.Serving)
    && SamePolling(f.polling, s.polling) && Calm(s)
    && f.books == S.Books(s.accepted, s.wire, s.dropped, s.writeBuffer, None, [], [])
    && f.calls == c.(notified := s.farewells)
    && Attempts(s, f, ks)
  }

  /** ... and the websocket of an unclosed session is closed in both or in neither. */
  ghost predicate Matches(s: Z.State, f: S.Session, ks: set<nat>, c: S.Calls) {
    Mirrors(s, f, ks, c) && (s.ready != S.Closed ==> (f.active in f.severed <==> s.severed))
  }

  function Heard(c: S.Calls, t: nat): S.Calls {
    c.(ends := c.ends.(events := c.ends.events + multiset{t}))
  }

  /** Only closings left to do. */
  function Left(e: S.Ends): S.Calls {
    S.IDLE.(ends := e)
  }

  // ---------- ending ----------

  /** The event of a transport already closed for is heard and comes to nothing. */
  lemma HearRuns(from: S.Session, run: seq<S.Action>, s: Z.State, f: S.Session, ks: set<nat>, c: S.Calls, t: nat)
    returns (r: seq<S.Action>, g: S.Session)
    requires S.Leads(from, run, f) && Mirrors(s, f, ks, Heard(c, t))
    requires s.ready == S.Closed || f.active != t
    ensures S.Leads(from, r, g) && Mirrors(s, g, ks, c) && g.severed == f.severed && g.active == f.active
  {
    r, g := S.Go(from, run, f, S.Shutting(S.Hear(t)));
    assert c.ends.events + multiset{t} - multiset{t} == c.ends.events;
    if f.active == t && !s.upgrading {
      r, g := S.Go(from, r, g, S.Shutting(S.Kill));
    }
  }

  /** The polling transport's part of ending the session. */
  lemma ClosePollingRuns(from: S.Session, run: seq<S.Action>, s: Z.State, f: S.Session, ks: set<nat>, c: S.Calls)
    returns (r: seq<S.Action>, g: S.Session)
    requires S.Leads(from, run, f) && Matches(s, f, ks, S.OweClose(c))
    requires s.polling.discarded && (s.ready == S.Closed || s.onWebsocket)
    ensures S.Leads(from, r, g) && Matches(s.(polling := P.CloseLocked(s.polling)), g, ks, c)
  {
    r, g := S.Go(from, run, f, S.Shutting(S.ClosePolling));
    if !s.polling.closed {
      r, g := S.Go(from, r, g, S.Shutting(S.Report));
      assert s.dropped + [] == s.dropped;
      r, g := HearRuns(from, r, s.(polling := P.CloseLocked(s.polling)), g, ks, c, 0);
    }
  }

  /** The calls right after the session was marked closed. */
  function Ending(f: S.Session, c: S.Calls): S.Calls {
    var d := c.(farewells := c.farewells + 1);
    if f.active == 0 then d.(ends := d.ends.(discards := d.ends.discards + 1)) else S.OweCut(d, f.active)
  }

  lemma EndMatches(s: Z.State, f: S.Session, ks: set<nat>, c: S.Calls)
    requires Mirrors(s, f, ks, c) && s.ready != S.Closed
    ensures Matches(s.(ready := S.Closed), S.DoEnd(f), ks, Ending(f, c))
  {
  }

  lemma FarewellMatches(s: Z.State, f: S.Session, ks: set<nat>, c: S.Calls)
    requires Matches(s, f, ks, c.(farewells := c.farewells + 1))
    ensures Matches(s.(farewells := s.farewells + 1), S.DoFarewell(f), ks, c)
  {
  }

  /** Closing the websocket of a session marked closed. */
  lemma CutRuns(from: S.Session, run: seq<S.Action>, s: Z.State, f: S.Session, ks: set<nat>, c: S.Calls)
    returns (r: seq<S.Action>, g: S.Session)
    requires S.Leads(from, run, f) && s.ready == S.Closed && s.onWebsocket && c.ends.cuts == {}
    requires Matches(s, f, ks, S.OweCut(c, f.active))
    ensures S.Leads(from, r, g) && Matches(s, g, ks, c)
  {
    r, g := S.Go(from, run, f, S.Shutting(S.Cut(f.active)));
    assert {f.active} - {f.active} == {};
    r, g := HearRuns(from, r, s, g, ks, c, f.active);
  }

  /** Discarding and closing the polling transport of a session marked closed. */
  lemma DiscardRuns(from: S.Session, run: seq<S.Action>, s: Z.State, f: S.Session, ks: set<nat>, c: S.Calls)
    returns (r: seq<S.Action>, g: S.Session)
    requires S.Leads(from, run, f) && s.ready == S.Closed && !s.onWebsocket
    requires Matches(s, f, ks, c.(ends := c.ends.(discards := c.ends.discards + 1)))
    ensures S.Leads(from, r, g)
    ensures Matches(s.(polling := P.CloseLocked(s.polling.(discarded := true))), g, ks, c)
  {
    r, g := S.Go(from, run, f, S.Shutting(S.Discard));
    r, g := ClosePollingRuns(from, r, s.(polling := s.polling.(discarded := true)), g, ks, c);
  }

  /** From the mark to the close callback. */
  lemma EndingRuns(from: S.Session, run: seq<S.Action>, s: Z.State, f: S.Session, ks: set<nat>, c: S.Calls)
    returns (r: seq<S.Action>, g: S.Session)
    requires s.ready != S.Closed && S.Leads(from, run, f) && c.ends.cuts == {}
    requires Matches(s.(ready := S.Closed), f, ks, Ending(f, c))
    ensures S.Leads(from, r, g) && Matches(Z.CloseWithReason(s), g, ks, c)
  {
    r, g := run, f;
    var t := s.(ready := S.Closed);
    if s.onWebsocket {
      r, g := CutRuns(from, r, t, g, ks, c.(farewells := c.farewells + 1));
    } else {
      r, g := DiscardRuns(from, r, t, g, ks, c.(farewells := c.farewells + 1));
      t := t.(polling := P.CloseLocked(t.polling.(discarded := true)));
    }
    FarewellMatches(t, g, ks, c);
    r, g := S.Go(from, r, g, S.Shutting(S.Farewell));
  }

  /** Ending by a call, or by an event found to end the session. */
  lemma EndRuns(from: S.Session, run: seq<S.Action>, s: Z.State, f: S.Session, ks: set<nat>, c: S.Calls, byEvent: bool)
    returns (r: seq<S.Action>, g: S.Session)
    requires S.Leads(from, run, f) && c.ends.cuts == {}
    requires Mirrors(s, f, ks, if byEvent then c.(kills := c.kills + 1) else c)
    ensures S.Leads(from, r, g) && Matches(Z.CloseWithReason(s), g, ks, c)
  {
    var f' := f.(calls := c.(notified := s.farewells));
    assert Mirrors(s, f', ks, c);
    r, g := S.Go(from, run, f, S.Shutting(if byEvent then S.Kill else S.End));
    assert g == S.DoEnd(f');
    if s.ready != S.Closed {
      EndMatches(s, f', ks, c);
      r, g := EndingRuns(from, r, s, g, ks, c);
    }
  }

  /** The session's answer to an event of the polling transport. */
  lemma EventRuns(from: S.Session, run: seq<S.Action>, s: Z.State, f: S.Session, ks: set<nat>, c: S.Calls)
    returns (r: seq<S.Action>, g: S.Session)
    requires S.Leads(from, run, f) && Matches(s, f, ks, Heard(c, 0)) && c.ends.cuts == {}
    ensures S.Leads(from, r, g) && Matches(Z.PollingEvent(s), g, ks, c)
  {
    r, g := S.Go(from, run, f, S.Shutting(S.Hear(0)));
    assert c.ends.events + multiset{0} - multiset{0} == c.ends.events;
    if !s.onWebsocket && !s.upgrading {
      r, g := EndRuns(from, r, s, g, ks, c, true);
    }
  }

  lemma ReportMatches(s: Z.State, f: S.Session, ks: set<nat>, c: S.Calls)
    requires Matches(s, f, ks, S.OweReport(c)) && !s.polling.closed
    ensures Matches(s.(polling := P.CloseLocked(s.polling)), S.DoReport(f), ks, Heard(c, 0))
  {
    assert s.dropped + [] == s.dropped;
  }

  lemma ReportRuns(from: S.Session, run: seq<S.Action>, s: Z.State, f: S.Session, ks: set<nat>, c: S.Calls)
    returns (r: seq<S.Action>, g: S.Session)
    requires S.Leads(from, run, f) && Matches(s, f, ks, S.OweReport(c)) && c.ends.cuts == {}
    ensures S.Leads(from, r, g) && Matches(Z.ReportClosed(s), g, ks, c)
  {
    r, g := S.Go(from, run, f, S.Shutting(S.Report));
    if !s.polling.closed {
      ReportMatches(s, f, ks, c);
      r, g := EventRuns(from, r, s.(polling := P.CloseLocked(s.polling)), g, ks, c);
    }
  }

  // ---------- sending ----------

  /** A batch handed to the polling transport, before the report of an orderly close. */
  function Passed(s: Z.State, pkts: seq<Packet>): Z.State {
    if s.polling.closed then s.(dropped := s.dropped + pkts)
    else Z.Sent(s, pkts)
  }

  function Owing(s: Z.State, c: S.Calls): S.Calls {
    if P.ClosesAfterSend(s.polling) then S.OweReport(c) else c
  }

  lemma SendMatches(s: Z.State, f: S.Session, ks: set<nat>, c: S.Calls, pkts: seq<Packet>)
    requires Matches(s, f, ks, c) && (s.polling.writable || s.polling.closed)
    ensures Matches(Passed(s, pkts), S.SendTo(f, 0, pkts), ks, Owing(s, c))
  {
    if !s.polling.closed {
      SendSamePolling(s.polling, f.polling, pkts);
    }
  }

  lemma SendSamePolling(p: P.Polling, q: P.Polling, pkts: seq<Packet>)
    requires SamePolling(q, p) && P.OnePoll(p) && p.sendBuffer == [] && !p.closed && p.writable
    ensures SamePolling(P.Send(q, pkts), P.SendCall(p, pkts))
    ensures P.OnePoll(P.SendCall(p, pkts)) && P.SendCall(p, pkts).sendBuffer == []
  {
  }

  /** What follows a send on the polling transport. */
  lemma TailRuns(from: S.Session, run: seq<S.Action>, s: Z.State, pkts: seq<Packet>,
                 f: S.Session, ks: set<nat>, c: S.Calls)
    returns (r: seq<S.Action>, g: S.Session)
    requires S.Leads(from, run, f) && Matches(Passed(s, pkts), f, ks, Owing(s, c)) && c.ends.cuts == {}
    ensures S.Leads(from, r, g) && Matches(Z.PollingSend(s, pkts), g, ks, c)
  {
    r, g := run, f;
    if P.ClosesAfterSend(s.polling) {
      r, g := ReportRuns(from, run, Passed(s, pkts), f, ks, c);
    }
  }

  lemma NoopRuns(from: S.Session, run: seq<S.Action>, s: Z.State, f: S.Session, ks: set<nat>, c: S.Calls)
    returns (r: seq<S.Action>, g: S.Session)
    requires S.Leads(from, run, f) && Matches(s, f, ks, c) && s.polling.writable && c.ends.cuts == {}
    ensures S.Leads(from, r, g) && Matches(Z.PollingSend(s, [P.NOOP]), g, ks, c)
  {
    SendMatches(s, f, ks, c, [P.NOOP]);
    r, g := S.Go(from, run, f, S.Sending(S.Noop(0)));
    r, g := TailRuns(from, r, s, [P.NOOP], g, ks, c);
  }

  /** A websocket writes a batch packet by packet. */
  lemma {:induction false} WriteRuns(from: S.Session, run: seq<S.Action>, f: S.Session)
    returns (r: seq<S.Action>, g: S.Session)
    requires S.Leads(from, run, f) && S.CanSend(f, S.FlushSend)
    requires f.books.flight.value.target != 0 && f.books.flight.value.target !in f.severed
    ensures S.Leads(from, r, g) && S.CanSend(g, S.FlushFinish)
    ensures g == f.(books := f.books.(delivered := f.books.delivered + f.books.flight.value.batch,
                                      flight := g.books.flight))
    decreases |f.books.flight.value.batch|
  {
    var batch, sent := f.books.flight.value.batch, f.books.delivered;
    r, g := S.Go(from, run, f, S.Sending(S.FlushSend));
    if |batch| > 1 {
      r, g := WriteRuns(from, r, g);
      assert (sent + [batch[0]]) + batch[1..] == sent + batch;
    }
  }

  /** A flush that takes something: the take, the sends and the finish. */
  lemma TakeRuns(from: S.Session, run: seq<S.Action>, s: Z.State, f: S.Session, ks: set<nat>, c: S.Calls)
    returns (r: seq<S.Action>, g: S.Session)
    requires S.Leads(from, run, f) && Matches(s, f, ks, c.(flushes := c.flushes + 1))
    requires s.ready != S.Closed && !s.upgrading && s.writeBuffer != [] && Z.Writable(s)
    ensures S.Leads(from, r, g)
    ensures var t := s.(writeBuffer := []);
            if !s.onWebsocket then Matches(Passed(t, s.writeBuffer), g, ks, Owing(t, c))
            else if s.severed then g.active == f.active
              && Matches(t.(dropped := t.dropped + s.writeBuffer), g, ks, Heard(c, f.active))
            else Matches(Z.WebsocketSend(t, s.writeBuffer), g, ks, c)
  {
    var t := s.(writeBuffer := []);
    r, g := S.Go(from, run, f, S.Sending(S.FlushCall));
    assert g == f.(calls := c.(notified := s.farewells), books := S.Taken(f.books, f.active));
    if s.onWebsocket && !s.severed {
      r, g := WriteRuns(from, r, g);
    } else if s.onWebsocket {
      r, g := S.Go(from, r, g, S.Sending(S.FlushSend));
    } else {
      r, g := S.Go(from, r, g, S.Sending(S.FlushSend));
      var taken := f.(calls := c.(notified := s.farewells), books := f.books.(writeBuffer := []));
      SendMatches(t, taken, ks, c, s.writeBuffer);
    }
    r, g := S.Go(from, r, g, S.Sending(S.FlushFinish));
  }

  /** The error of a failed write is heard and ends the session. */
  lemma FailureRuns(from: S.Session, run: seq<S.Action>, s: Z.State, f: S.Session, ks: set<nat>, c: S.Calls)
    returns (r: seq<S.Action>, g: S.Session)
    requires S.Leads(from, run, f) && Matches(s, f, ks, Heard(c, f.active)) && c.ends.cuts == {} && !s.upgrading
    ensures S.Leads(from, r, g) && Matches(Z.CloseWithReason(s), g, ks, c)
  {
    r, g := S.Go(from, run, f, S.Shutting(S.Hear(f.active)));
    assert c.ends.events + multiset{f.active} - multiset{f.active} == c.ends.events;
    r, g := EndRuns(from, r, s, g, ks, c, true);
  }

  lemma FlushRuns(from: S.Session, run: seq<S.Action>, s: Z.State, f: S.Session, ks: set<nat>, c: S.Calls)
    returns (r: seq<S.Action>, g: S.Session)
    requires S.Leads(from, run, f) && Matches(s, f, ks, c.(flushes := c.flushes + 1)) && c.ends.cuts == {}
    ensures S.Leads(from, r, g) && Matches(Z.Flush(s), g, ks, c)
  {
    if s.ready == S.Closed || s.upgrading || s.writeBuffer == [] || !Z.Writable(s) {
      r, g := S.Go(from, run, f, S.Sending(S.FlushCall));
    } else {
      r, g := TakeRuns(from, run, s, f, ks, c);
      var t := s.(writeBuffer := []);
      if !s.onWebsocket {
        r, g := TailRuns(from, r, t, s.writeBuffer, g, ks, c);
      } else if s.severed {
        r, g := FailureRuns(from, r, t.(dropped := t.dropped + s.writeBuffer), g, ks, c);
      }
    }
  }

  // ---------- one event, one run ----------

  lemma AcceptMatches(s: Z.State, f: S.Session, ks: set<nat>, p: Packet)
    requires Matches(s, f, ks, S.IDLE) && s.ready == S.Open
    ensures Matches(s.(writeBuffer := s.writeBuffer + [p], accepted := s.accepted + [p]),
                    S.DoCheck(S.DoSendPacket(f, p), f.active), ks,
                    if Z.Writable(s) then S.IDLE.(flushes := 1) else S.IDLE)
  {
    assert multiset{f.active} - multiset{f.active} == multiset{};
  }

  lemma SendRuns(from: S.Session, run: seq<S.Action>, s: Z.State, f: S.Session, ks: set<nat>, p: Packet)
    returns (r: seq<S.Action>, g: S.Session)
    requires S.Leads(from, run, f) && Matches(s, f, ks, S.IDLE) && S.IsData(p)
    ensures S.Leads(from, r, g) && Matches(Z.SendPacket(s, p), g, ks, S.IDLE)
  {
    r, g := S.Go(from, run, f, S.Sending(S.SendPacket(p)));
    if s.ready == S.Open {
      r, g := S.Go(from, r, g, S.Sending(S.Check(f.active)));
      AcceptMatches(s, f, ks, p);
      r, g := AcceptedRuns(from, r, s.(writeBuffer := s.writeBuffer + [p], accepted := s.accepted + [p]), g, ks);
    }
  }

  lemma AcceptedRuns(from: S.Session, run: seq<S.Action>, s: Z.State, f: S.Session, ks: set<nat>)
    returns (r: seq<S.Action>, g: S.Session)
    requires S.Leads(from, run, f)
    requires Matches(s, f, ks, if Z.Writable(s) then S.IDLE.(flushes := 1) else S.IDLE)
    ensures S.Leads(from, r, g) && Matches(Z.Flush(s), g, ks, S.IDLE)
  {
    r, g := run, f;
    if Z.Writable(s) {
      r, g := FlushRuns(from, r, s, g, ks, S.IDLE);
    }
  }

  lemma PollTailRuns(from: S.Session, run: seq<S.Action>, s: Z.State, f: S.Session, ks: set<nat>)
    returns (r: seq<S.Action>, g: S.Session)
    requires S.Leads(from, run, f) && Matches(s, f, ks, S.IDLE)
    requires s.polling.pendingClose && !s.polling.closed ==> s.polling.writable
    ensures S.Leads(from, r, g) && Matches(Z.PollTail(s, []), g, ks, S.IDLE)
  {
    r, g := run, f;
    if s.polling.pendingClose && !s.polling.closed {
      r, g := NoopRuns(from, r, s, g, ks, S.IDLE);
    }
  }

  lemma RequestMatches(s: Z.State, f: S.Session, ks: set<nat>, n: nat)
    requires Matches(s, f, ks, S.IDLE) && s.polling.req == None
    ensures Matches(s.(polling := P.Request(s.polling, n).0), S.DoPollArrives(f, n), ks, S.IDLE.(flushes := 1))
  {
  }

  lemma PollRuns(from: S.Session, run: seq<S.Action>, s: Z.State, f: S.Session, ks: set<nat>, n: nat)
    returns (r: seq<S.Action>, g: S.Session)
    requires S.Leads(from, run, f) && Matches(s, f, ks, S.IDLE) && Z.Good(s) && n !in s.polling.log.seen
    ensures S.Leads(from, r, g) && Matches(Z.PollRequest(s, n), g, ks, S.IDLE)
  {
    r, g := S.Go(from, run, f, S.Polling(S.PollArrives(n)));
    if s.polling.req.Some? {
      r, g := EventRuns(from, r, s, g, ks, S.IDLE);
    } else {
      var t := s.(polling := P.Request(s.polling, n).0);
      Z.RequestKeepsGood(s, n);
      Z.FlushUsesThePoll(t);
      RequestMatches(s, f, ks, n);
      r, g := FlushRuns(from, r, t, g, ks, S.IDLE);
      r, g := PollTailRuns(from, r, Z.Flush(t), g, ks);
    }
  }

  lemma GiveUpRuns(from: S.Session, run: seq<S.Action>, s: Z.State, f: S.Session, ks: set<nat>, n: nat)
    returns (r: seq<S.Action>, g: S.Session)
    requires S.Leads(from, run, f) && Matches(s, f, ks, S.IDLE)
    ensures S.Leads(from, r, g) && Matches(Z.PollAborted(s, n), g, ks, S.IDLE)
  {
    r, g := S.Go(from, run, f, S.Polling(S.PollAborted(n)));
    if s.polling.req == Some(n) {
      r, g := EventRuns(from, r, s.(polling := P.AbortCall(s.polling, n)), g, ks, S.IDLE);
    }
  }

  lemma {:induction false} FreshNumber(keys: set<nat>) returns (k: nat)
    ensures k > 0 && forall x :: x in keys ==> x < k
    decreases |keys|
  {
    k := 1;
    if keys != {} {
      var x :| x in keys;
      var rest := keys - {x};
      var n := FreshNumber(rest);
      k := if n > x then n else x + 1;
      assert forall y :: y in keys ==> y == x || y in rest;
    }
  }

  /** A candidate changing from no record or from probing leaves the one given up as it was. */
  lemma AttemptsChange(s: Z.State, f: S.Session, ks: set<nat>, k: nat, now: S.Candidate)
    requires Attempts(s, f, ks) && (k in f.candidates ==> f.candidates[k] == S.Probing)
    ensures s.givenUp ==> SomeAborted(f.candidates[k := now])
  {
    if s.givenUp {
      var j :| j in f.candidates && f.candidates[j] == S.Aborted;
      assert f.candidates[k := now][j] == S.Aborted;
    }
  }

  lemma ProbeRuns(from: S.Session, run: seq<S.Action>, s: Z.State, f: S.Session, ks: set<nat>)
    returns (r: seq<S.Action>, g: S.Session, ls: set<nat>)
    requires S.Leads(from, run, f) && Matches(s, f, ks, S.IDLE)
    ensures S.Leads(from, r, g) && Matches(Z.MaybeUpgrade(s), g, ls, S.IDLE)
  {
    var k := FreshNumber(f.candidates.Keys + f.severed + {f.active});
    assert k !in f.candidates && k !in ks;
    r, g := S.Go(from, run, f, S.Upgrading(S.MaybeUpgrade(k)));
    if s.upgrading || s.upgraded || s.ready != S.Open {
      ls := ks;
      AttemptsChange(s, f, ks, k, S.Settled);
    } else {
      ls := ks + {k};
      AttemptsChange(s, f, ks, k, S.Probing);
    }
  }

  lemma AbortAttemptRuns(from: S.Session, run: seq<S.Action>, s: Z.State, f: S.Session, ks: set<nat>, again: bool)
    returns (r: seq<S.Action>, g: S.Session, ls: set<nat>)
    requires S.Leads(from, run, f) && Matches(s, f, ks, S.IDLE) && Z.Enabled(s, Z.Aborts(again))
    ensures S.Leads(from, r, g) && Matches(Z.AbortUpgrade(s, again), g, ls, S.IDLE)
  {
    var k: nat;
    if again {
      k :| k in f.candidates && f.candidates[k] == S.Aborted;
      ls := ks;
    } else {
      assert ks != {};
      k :| k in ks;
      ls := ks - {k};
    }
    r, g := S.Go(from, run, f, S.Upgrading(S.AbortUpgrade(k)));
    assert g.candidates[k] == S.Aborted;
    r, g := FlushRuns(from, r, Z.GivenUp(s, again), g, ls, S.IDLE);
  }

  /** The serial session after the switch itself. */
  function Switching(s: Z.State): Z.State {
    s.(upgrading := false, upgraded := true, onWebsocket := true, severed := false,
       probing := if s.probing == 0 then 0 else s.probing - 1)
  }

  /** The callback from the drained, re-queued transport on. */
  lemma RetireRuns(from: S.Session, run: seq<S.Action>, s: Z.State, f: S.Session, ks: set<nat>)
    returns (r: seq<S.Action>, g: S.Session)
    requires S.Leads(from, run, f) && f.retirement == S.Requeued
    requires s.onWebsocket && Matches(s, f.(retirement := S.Retired), ks, S.IDLE)
    ensures S.Leads(from, r, g)
    ensures Matches(s.(polling := P.CloseLocked(s.polling.(discarded := true))), g, ks, S.IDLE.(flushes := 1))
  {
    r, g := S.Go(from, run, f, S.Upgrading(S.Retire));
    r, g := ClosePollingRuns(from, r, s.(polling := s.polling.(discarded := true)), g, ks, S.IDLE.(flushes := 1));
  }

  /** The callback from the switch to the re-queued buffer, which is empty. */
  lemma DrainRuns(from: S.Session, run: seq<S.Action>, f: S.Session) returns (r: seq<S.Action>, g: S.Session)
    requires S.Leads(from, run, f) && f.retirement == S.Waiting
    requires f.books.flight == None && f.books.carried == [] && f.polling.sendBuffer == []
    ensures S.Leads(from, r, g) && g == f.(retirement := S.Requeued)
  {
    r, g := S.Go(from, run, f, S.Upgrading(S.SeeIdle));
    r, g := S.Go(from, r, g, S.Upgrading(S.Drain));
    assert g == f.(retirement := S.Carrying);
    r, g := S.Go(from, r, g, S.Upgrading(S.Requeue));
    assert [] + f.books.writeBuffer == f.books.writeBuffer;
  }

  lemma SwitchMatches(s: Z.State, f: S.Session, ks: set<nat>, k: nat)
    requires Matches(s, f, ks, S.IDLE) && s.ready != S.Closed && k in ks
    ensures var g := S.DoSwitch(f, k);
            && Matches(Switching(s), g.(retirement := S.Retired, calls := f.calls), ks - {k}, S.IDLE)
            && (if s.onWebsocket then g.retirement == S.Retired && g.calls == f.calls.(rebinding := {f.active})
                else g.retirement == S.Waiting && g.calls == f.calls)
  {
    AttemptsChange(s, f, ks, k, S.Settled);
  }

  /** The callback closes the websocket it replaced, whose event is no longer of interest. */
  lemma ReplaceRuns(from: S.Session, run: seq<S.Action>, s: Z.State, f: S.Session, ks: set<nat>, prior: nat)
    returns (r: seq<S.Action>, g: S.Session)
    requires S.Leads(from, run, f) && s.onWebsocket && prior != 0 && prior != f.active && prior !in ks
    requires Matches(s, f, ks, S.IDLE.(rebinding := {prior}))
    ensures S.Leads(from, r, g) && Matches(s, g, ks, S.IDLE.(flushes := 1))
  {
    r, g := S.Go(from, run, f, S.Upgrading(S.Rebound(prior)));
    assert {prior} - {prior} == {};
    r, g := HearRuns(from, r, s, g, ks, S.IDLE.(flushes := 1), prior);
  }

  /** The switch and its callback up to the flush. */
  lemma SwitchRuns(from: S.Session, run: seq<S.Action>, s: Z.State, f: S.Session, ks: set<nat>, k: nat)
    returns (r: seq<S.Action>, g: S.Session)
    requires S.Leads(from, run, f) && Matches(s, f, ks, S.IDLE) && s.ready != S.Closed && k in ks
    ensures S.Leads(from, r, g) && Matches(Z.Switched(s), g, ks - {k}, S.IDLE.(flushes := 1))
  {
    SwitchMatches(s, f, ks, k);
    r, g := S.Go(from, run, f, S.Upgrading(S.Switch(k)));
    if s.onWebsocket {
      r, g := ReplaceRuns(from, r, Switching(s), g, ks - {k}, f.active);
    } else {
      r, g := DrainRuns(from, r, g);
      r, g := RetireRuns(from, r, Switching(s), g, ks - {k});
      SwitchedQuietly(s);
    }
  }

  lemma SwitchedQuietly(s: Z.State)
    requires Calm(s) && !s.onWebsocket
    ensures Z.Switched(s)
         == Switching(s).(polling := P.CloseLocked(s.polling.(discarded := true)))
  {
    assert [] + s.writeBuffer == s.writeBuffer;
  }

  lemma CompleteAttemptRuns(from: S.Session, run: seq<S.Action>, s: Z.State, f: S.Session, ks: set<nat>)
    returns (r: seq<S.Action>, g: S.Session, ls: set<nat>)
    requires S.Leads(from, run, f) && Matches(s, f, ks, S.IDLE) && s.probing > 0
    ensures S.Leads(from, r, g) && Matches(Z.CompleteUpgrade(s), g, ls, S.IDLE)
  {
    assert ks != {};
    var k :| k in ks;
    ls := ks - {k};
    if s.ready == S.Closed {
      r, g := S.Go(from, run, f, S.Upgrading(S.Switch(k)));
      assert g.candidates[k] == S.Aborted;
    } else {
      r, g := SwitchRuns(from, run, s, f, ks, k);
      r, g := FlushRuns(from, r, Z.Switched(s), g, ls, S.IDLE);
    }
  }

  lemma SendCloseRuns(from: S.Session, run: seq<S.Action>, s: Z.State, f: S.Session, ks: set<nat>)
    returns (r: seq<S.Action>, g: S.Session)
    requires S.Leads(from, run, f) && Matches(s, f, ks, Left(S.QUIET.(closeSends := 1))) && s.polling.writable
    ensures S.Leads(from, r, g) && Matches(Z.ReportClosed(Z.PollingSend(s, [P.CLOSE])), g, ks, S.IDLE)
  {
    SendMatches(s, f, ks, Left(S.QUIET.(closeSends := 1)), [P.CLOSE]);
    r, g := S.Go(from, run, f, S.Shutting(S.SendClose));
    r, g := TailRuns(from, r, s, [P.CLOSE], g, ks, Left(S.QUIET.(reports := 1)));
    r, g := ReportRuns(from, r, Z.PollingSend(s, [P.CLOSE]), g, ks, S.IDLE);
  }

  lemma ShutRuns(from: S.Session, run: seq<S.Action>, s: Z.State, f: S.Session, ks: set<nat>)
    returns (r: seq<S.Action>, g: S.Session)
    requires S.Leads(from, run, f) && Matches(s, f, ks, Left(S.QUIET.(closes := 1))) && !s.onWebsocket
    ensures S.Leads(from, r, g) && Matches(Z.CloseTransport(s), g, ks, S.IDLE)
  {
    r, g := S.Go(from, run, f, S.Shutting(S.ClosePolling));
    var (p, what) := P.BeginClose(s.polling);
    match what
    case Nothing =>
    case Report => r, g := ReportRuns(from, r, s, g, ks, S.IDLE);
    case SendAndReport => r, g := SendCloseRuns(from, r, s, g, ks);
  }

  /** Closing the active websocket: its event is heard and ends the session outside an upgrade. */
  lemma ShutWebsocketRuns(from: S.Session, run: seq<S.Action>, s: Z.State, f: S.Session, ks: set<nat>)
    returns (r: seq<S.Action>, g: S.Session)
    requires S.Leads(from, run, f) && Matches(s, f, ks, Left(S.QUIET.(shuts := 1))) && s.onWebsocket
    ensures S.Leads(from, r, g) && Matches(Z.SeverWebsocket(s), g, ks, S.IDLE)
  {
    r, g := S.Go(from, run, f, S.Shutting(S.ShutTransport));
    assert {} + {f.active} == {f.active} && {f.active} - {f.active} == {};
    r, g := S.Go(from, r, g, S.Shutting(S.Cut(f.active)));
    var t := s.(severed := true);
    assert Matches(t, g, ks, Heard(S.IDLE, f.active));
    r, g := S.Go(from, r, g, S.Shutting(S.Hear(f.active)));
    assert multiset{} + multiset{f.active} - multiset{f.active} == multiset{};
    if !s.upgrading {
      r, g := EndRuns(from, r, t, g, ks, S.IDLE, true);
    }
  }

  lemma CloseRuns(from: S.Session, run: seq<S.Action>, s: Z.State, f: S.Session, ks: set<nat>)
    returns (r: seq<S.Action>, g: S.Session)
    requires S.Leads(from, run, f) && Matches(s, f, ks, S.IDLE)
    ensures S.Leads(from, r, g) && Matches(Z.Close(s), g, ks, S.IDLE)
  {
    r, g := S.Go(from, run, f, S.Shutting(S.Close));
    if s.ready == S.Open {
      var t := s.(ready := S.Closing);
      r, g := FlushRuns(from, r, t, g, ks, Left(S.QUIET.(shuts := 1)));
      if Z.Flush(t).onWebsocket {
        r, g := ShutWebsocketRuns(from, r, Z.Flush(t), g, ks);
      } else {
        r, g := S.Go(from, r, g, S.Shutting(S.ShutTransport));
        r, g := ShutRuns(from, r, Z.Flush(t), g, ks);
      }
    }
  }

  lemma TimerMatches(s: Z.State, f: S.Session, ks: set<nat>)
    requires Matches(s, f, ks, S.IDLE) && !s.polling.closed
    ensures var t := s.(polling := s.polling.(timer := false));
            Matches(t, S.DoTimer(f), ks, Left(S.QUIET.(reports := 1))) && Z.ReportClosed(t) == Z.ReportClosed(s)
  {
  }

  lemma TimerRuns(from: S.Session, run: seq<S.Action>, s: Z.State, f: S.Session, ks: set<nat>)
    returns (r: seq<S.Action>, g: S.Session)
    requires S.Leads(from, run, f) && Matches(s, f, ks, S.IDLE) && s.polling.timer && !s.polling.closed
    ensures S.Leads(from, r, g) && Matches(Z.ReportClosed(s), g, ks, S.IDLE)
  {
    TimerMatches(s, f, ks);
    r, g := S.Go(from, run, f, S.Shutting(S.TimerFires));
    r, g := ReportRuns(from, r, s.(polling := s.polling.(timer := false)), g, ks, S.IDLE);
  }

  lemma EventIsRun(from: S.Session, run: seq<S.Action>, s: Z.State, f: S.Session, ks: set<nat>, e: Z.Event)
    returns (r: seq<S.Action>, g: S.Session, ls: set<nat>)
    requires S.Leads(from, run, f) && Matches(s, f, ks, S.IDLE) && Z.Good(s) && Z.Enabled(s, e)
    ensures S.Leads(from, r, g) && Matches(Z.Next(s, e), g, ls, S.IDLE)
  {
    r, g, ls := run, f, ks;
    match e
    case Sends(p) => r, g := SendRuns(from, run, s, f, ks, p);
    case Polls(n) => r, g := PollRuns(from, run, s, f, ks, n);
    case GivesUp(n) => r, g := GiveUpRuns(from, run, s, f, ks, n);
    case Ticks =>
      if !s.upgraded && !s.onWebsocket && s.polling.writable {
        r, g := NoopRuns(from, run, s, f, ks, S.IDLE);
      }
    case Probes => r, g, ls := ProbeRuns(from, run, s, f, ks);
    case Aborts(again) => r, g, ls := AbortAttemptRuns(from, run, s, f, ks, again);
    case Upgrades => r, g, ls := CompleteAttemptRuns(from, run, s, f, ks);
    case Closes => r, g := CloseRuns(from, run, s, f, ks);
    case TimerFires => r, g := TimerRuns(from, run, s, f, ks);
    case Ends => r, g := EndRuns(from, run, s, f, ks, S.IDLE, false);
  }

  lemma {:induction false} EventsAreRun(from: S.Session, run: seq<S.Action>, s: Z.State, f: S.Session, ks: set<nat>,
                                        events: seq<Z.Event>)
    returns (r: seq<S.Action>, g: S.Session, ls: set<nat>)
    requires S.Leads(from, run, f) && Matches(s, f, ks, S.IDLE) && Z.Good(s) && Z.Legal(s, events)
    ensures S.Leads(from, r, g) && Matches(Z.After(s, events), g, ls, S.IDLE)
    decreases |events|
  {
    r, g, ls := run, f, ks;
    if events != [] {
      r, g, ls := EventIsRun(from, run, s, f, ks, events[0]);
      Z.StepKeepsGood(s, events[0]);
      r, g, ls := EventsAreRun(from, r, Z.Next(s, events[0]), g, ls, events[1..]);
    }
  }

  function Start(open: Packet, websocket: bool): S.Session {
    if websocket then S.InitialOn(1, open) else S.Initial(open)
  }

  lemma OpeningRuns(open: Packet, websocket: bool) returns (run: seq<S.Action>, f: S.Session)
    ensures S.Leads(Start(open, websocket), run, f) && Matches(Z.Initial(open, websocket), f, {}, S.IDLE)
  {
    var start, s := Start(open, websocket), Z.Opening(open, websocket);
    run, f := [], start;
    if websocket {
      run, f := S.Go(start, run, f, S.Sending(S.Check(1)));
      assert multiset{1} - multiset{1} == multiset{};
      run, f := FlushRuns(start, run, s, f, {}, S.IDLE);
    }
  }

  /**
   From either beginning every serial run is a run of the interleaved session that leaves
   it in the same state, with the same packets accepted, delivered, dropped and waiting.
   */
  lemma SerialRunsAreRuns(open: Packet, websocket: bool, events: seq<Z.Event>) returns (run: seq<S.Action>)
    requires S.IsData(open) && Z.Legal(Z.Initial(open, websocket), events)
    ensures S.Begins(Start(open, websocket)) && S.Legal(Start(open, websocket), run)
    ensures var s, f := Z.After(Z.Initial(open, websocket), events), S.After(Start(open, websocket), run);
            && f.ready == s.ready && f.upgrading == s.upgrading && (f.active != 0 <==> s.onWebsocket)
            && f.books == S.Books(s.accepted, s.wire, s.dropped, s.writeBuffer, None, [], [])
            && SamePolling(f.polling, s.polling) && f.calls == S.IDLE.(notified := s.farewells)
  {
    var f, g, ls;
    Z.InitialIsGood(open, websocket);
    run, f := OpeningRuns(open, websocket);
    run, g, ls := EventsAreRun(Start(open, websocket), run, Z.Initial(open, websocket), f, {}, events);
  }
}

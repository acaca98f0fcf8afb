/**
 The client's outgoing side: packets are accepted into a buffer, flushed to the
 active transport, and held back while an upgrade is under way. A flush takes
 the buffer under the mutex and hands it over outside it.
 */
module EngineClient {
  import opened Octets
  import opened Sequences
  import E = EnginePayload
  import H = UpgradeHandshake

  type Packet = E.Packet

  datatype Carrier = Polling | Websocket

  /** Packets a flush took, and the transport that was active when it did. */
  datatype Batch = Batch(carrier: Carrier, packets: seq<Packet>)

  /**
   `handed` are the batches passed to a transport, in order; `early` those of
   them passed on during an upgrade, `late` those given to polling after the switch.
   */
  datatype State = State(
    closed: bool, upgrading: bool, begun: bool, carrier: Carrier, buffer: seq<Packet>,
    accepted: seq<Packet>, flights: seq<Batch>, handed: seq<Batch>, early: seq<Batch>, late: seq<Batch>)

  const INITIAL := State(false, false, false, Polling, [], [], [], [], [], [])

  function Accept(s: State, p: Packet): (t: State) {
    if s.closed then s else s.(buffer := s.buffer + [p], accepted := s.accepted + [p])
  }

  predicate CanTake(s: State) {
    !s.closed && !s.upgrading && s.buffer != []
  }

  function Take(s: State): (t: State) {
    s.(buffer := [], flights := s.flights + [Batch(s.carrier, s.buffer)])
  }

  function HandOver(s: State, i: nat): (t: State)
    requires i < |s.flights|
  {
    var b := s.flights[i];
    s.(flights := s.flights[..i] + s.flights[i + 1..], handed := s.handed + [b],
       early := if s.upgrading then s.early + [b] else s.early,
       late := if b.carrier == Polling && s.carrier == Websocket then s.late + [b] else s.late)
  }

  function Begin(s: State): (t: State) {
    s.(upgrading := true, begun := true)
  }

  /** The switch does not happen for a client closed meanwhile. */
  function Switch(s: State): (t: State) {
    if s.closed then s else s.(carrier := Websocket, upgrading := false)
  }

  datatype Action = Accepts(p: Packet) | Takes | HandsOver(i: nat) | Begins | Switches | Fails | Shuts

  /** The server sends one open packet, so there is one upgrade attempt. */
  predicate Enabled(s: State, a: Action) {
    match a
    case Takes => CanTake(s)
    case HandsOver(i) => i < |s.flights|
    case Begins => !s.begun
    case Switches => s.upgrading
    case Fails => s.upgrading
    case _ => true
  }

  function Next(s: State, a: Action): (t: State)
    requires Enabled(s, a)
  {
    match a
    case Accepts(p) => Accept(s, p)
    case Takes => Take(s)
    case HandsOver(i) => HandOver(s, i)
    case Begins => Begin(s)
    case Switches => Switch(s)
    case Fails => s.(upgrading := false)
    case Shuts => s.(closed := true)
  }

  ghost predicate Legal(s: State, run: seq<Action>)
    decreases |run|
  {
    run == [] || (Enabled(s, run[0]) && Legal(Next(s, run[0]), run[1..]))
  }

  ghost function After(s: State, run: seq<Action>): (t: State)
    requires Legal(s, run)
    decreases |run|
  {
    if run == [] then s else After(Next(s, run[0]), run[1..])
  }

  function Flat(bs: seq<Batch>): (ps: seq<Packet>) {
    if bs == [] then [] else bs[0].packets + Flat(bs[1..])
  }

  lemma {:induction false} FlatConcat(a: seq<Batch>, b: seq<Batch>)
    ensures Flat(a + b) == Flat(a) + Flat(b)
  {
    if a == [] {
      assert a + b == b;
    } else {
      calc {
        Flat(a + b);
      == { assert (a + b)[1..] == a[1..] + b; }
        a[0].packets + Flat(a[1..] + b);
      == { FlatConcat(a[1..], b); }
        a[0].packets + (Flat(a[1..]) + Flat(b));
      == { Associative(a[0].packets, Flat(a[1..]), Flat(b)); }
        Flat(a) + Flat(b);
      }
    }
  }

  lemma FlatOne(b: Batch)
    ensures Flat([b]) == b.packets
  {
    assert [b][1..] == [];
  }

  // ---------- conservation, however flushes overlap ----------

  predicate Balanced(s: State) {
    multiset(Flat(s.handed)) + multiset(Flat(s.flights)) + multiset(s.buffer) == multiset(s.accepted)
  }

  lemma FlatSnoc(bs: seq<Batch>, b: Batch)
    ensures multiset(Flat(bs + [b])) == multiset(Flat(bs)) + multiset(b.packets)
  {
    FlatConcat(bs, [b]);
    FlatOne(b);
  }

  lemma FlatAround(a: seq<Batch>, b: Batch, c: seq<Batch>)
    ensures multiset(Flat(a + ([b] + c))) == multiset(Flat(a + c)) + multiset(b.packets)
  {
    FlatConcat(a, [b] + c);
    FlatConcat([b], c);
    FlatOne(b);
    FlatConcat(a, c);
  }

  lemma FlatWithout(bs: seq<Batch>, i: nat)
    requires i < |bs|
    ensures multiset(Flat(bs)) == multiset(Flat(bs[..i] + bs[i + 1..])) + multiset(bs[i].packets)
  {
    Around(bs, i);
    FlatAround(bs[..i], bs[i], bs[i + 1..]);
  }

  lemma TakeKeepsBalance(s: State)
    requires Balanced(s)
    ensures Balanced(Take(s))
  {
    FlatSnoc(s.flights, Batch(s.carrier, s.buffer));
  }

  lemma HandOverKeepsBalance(s: State, i: nat)
    requires Balanced(s) && i < |s.flights|
    ensures Balanced(HandOver(s, i))
  {
    FlatSnoc(s.handed, s.flights[i]);
    FlatWithout(s.flights, i);
  }

  lemma AcceptKeepsBalance(s: State, p: Packet)
    requires Balanced(s)
    ensures Balanced(Accept(s, p))
  {
  }

  /** Every accepted packet is handed over, in flight or buffered, exactly once, also when an upgrade fails. */
  lemma {:induction false} NothingIsLost(s: State, run: seq<Action>)
    requires Balanced(s) && Legal(s, run)
    ensures Balanced(After(s, run))
    decreases |run|
  {
    if run != [] {
      var t := Next(s, run[0]);
      assert Balanced(t) by {
        match run[0]
        case Accepts(p) => AcceptKeepsBalance(s, p);
        case Takes => TakeKeepsBalance(s);
        case HandsOver(i) => HandOverKeepsBalance(s, i);
        case _ =>
      }
      NothingIsLost(t, run[1..]);
    }
  }

  // ---------- order and placement ----------

  /** No flush overlaps another or the start of an upgrade. */
  predicate Serialised(s: State, a: Action) {
    a.Takes? || a.Begins? ==> s.flights == []
  }

  ghost predicate SerialRun(s: State, run: seq<Action>)
    requires Legal(s, run)
    decreases |run|
  {
    run == [] || (Serialised(s, run[0]) && SerialRun(Next(s, run[0]), run[1..]))
  }

  predicate InOrder(s: State) {
    |s.flights| <= 1 && Flat(s.handed) + Flat(s.flights) + s.buffer == s.accepted
  }

  /** Nothing is in flight during an upgrade, nothing for polling after it. */
  predicate Placed(s: State) {
    && s.early == [] && s.late == []
    && (s.upgrading ==> s.flights == [])
    && (s.upgrading || s.carrier == Websocket ==> s.begun)
    && (forall b :: b in s.flights ==> b.carrier == s.carrier)
    && (s.carrier == Polling ==> forall b :: b in s.handed ==> b.carrier == Polling)
  }

  lemma TakeKeepsOrder(s: State)
    requires InOrder(s) && s.flights == []
    ensures InOrder(Take(s))
  {
    FlatOne(Batch(s.carrier, s.buffer));
    assert Take(s).flights == [Batch(s.carrier, s.buffer)];
    assert Flat(s.handed) + s.buffer + [] == Flat(s.handed) + [] + s.buffer;
  }

  lemma HandOverKeepsOrder(s: State, i: nat)
    requires InOrder(s) && i < |s.flights|
    ensures InOrder(HandOver(s, i))
  {
    var b := s.flights[0];
    assert s.flights == [b] && HandOver(s, i).flights == [];
    FlatConcat(s.handed, [b]);
    assert Flat(s.handed + [b]) + [] == Flat(s.handed) + Flat([b]);
  }

  lemma StepKeepsOrder(s: State, a: Action)
    requires InOrder(s) && Enabled(s, a) && Serialised(s, a)
    ensures InOrder(Next(s, a))
  {
    match a
    case Accepts(p) =>
      var sent := Flat(s.handed) + Flat(s.flights);
      assert sent + (s.buffer + [p]) == sent + s.buffer + [p];
    case Takes => TakeKeepsOrder(s);
    case HandsOver(i) => HandOverKeepsOrder(s, i);
    case _ =>
  }

  lemma {:induction false} RunKeepsOrder(s: State, run: seq<Action>)
    requires InOrder(s) && Legal(s, run) && SerialRun(s, run)
    ensures InOrder(After(s, run)) && ClearStart(s, run)
    decreases |run|
  {
    if run != [] {
      StepKeepsOrder(s, run[0]);
      RunKeepsOrder(Next(s, run[0]), run[1..]);
    }
  }

  /** The upgrade, if it begins at all, begins with nothing in flight. */
  ghost predicate ClearStart(s: State, run: seq<Action>)
    requires Legal(s, run)
    decreases |run|
  {
    run == [] || ((run[0].Begins? ==> s.flights == []) && ClearStart(Next(s, run[0]), run[1..]))
  }

  lemma {:induction false} RunKeepsPlaced(s: State, run: seq<Action>)
    requires Placed(s) && Legal(s, run) && ClearStart(s, run)
    ensures Placed(After(s, run))
    decreases |run|
  {
    if run != [] {
      assert Placed(Next(s, run[0]));
      RunKeepsPlaced(Next(s, run[0]), run[1..]);
    }
  }

  /** However flushes overlap: none is handed over during the upgrade and none to polling after it. */
  lemma ClearStartPlaces(run: seq<Action>)
    requires Legal(INITIAL, run) && ClearStart(INITIAL, run)
    ensures var t := After(INITIAL, run); t.early == [] && t.late == []
  {
    RunKeepsPlaced(INITIAL, run);
  }

  lemma {:induction false} BegunOnce(s: State, run: seq<Action>)
    requires s.begun && Legal(s, run)
    ensures ClearStart(s, run)
    decreases |run|
  {
    if run != [] {
      BegunOnce(Next(s, run[0]), run[1..]);
    }
  }

  ghost predicate WellPlaced(s: State, run: seq<Action>) {
    Legal(s, run) ==> After(s, run).early == [] && After(s, run).late == []
  }

  /** That condition is exact: every course of an upgrade places its batches well if and only if none was in flight. */
  lemma PlacedIffClearStart(s: State)
    requires Placed(s) && !s.begun
    ensures (forall run :: WellPlaced(Begin(s), run)) <==> s.flights == []
  {
    if s.flights == [] {
      forall run | Legal(Begin(s), run) ensures WellPlaced(Begin(s), run) {
        BegunOnce(Begin(s), run);
        RunKeepsPlaced(Begin(s), run);
      }
    } else {
      var run := [HandsOver(0)];
      assert run[1..] == [];
      assert Legal(Begin(s), run) && After(Begin(s), run) == HandOver(Begin(s), 0);
      assert !WellPlaced(Begin(s), run);
    }
  }

  /**
   With serialised flushes the batches handed over, then the buffer, are the
   accepted packets in order; none is handed over during the upgrade, and none
   to polling after it.
   */
  lemma SerialFlushesKeepOrder(run: seq<Action>)
    requires Legal(INITIAL, run) && SerialRun(INITIAL, run)
    ensures var t := After(INITIAL, run);
            && Flat(t.handed) + Flat(t.flights) + t.buffer == t.accepted
            && t.early == [] && t.late == []
  {
    RunKeepsOrder(INITIAL, run);
    ClearStartPlaces(run);
  }

  /** A flush with nothing else running: take and hand over. */
  function Flush(s: State): (t: State)
    requires s.flights == []
  {
    if CanTake(s) then HandOver(Take(s), 0) else s
  }

  /** A settled upgrade, failed or not, passes the backlog on whole: nothing the client accepted is left behind. */
  lemma SettlingDeliversBacklog(s: State, ok: bool)
    requires InOrder(s) && Placed(s) && s.upgrading && !s.closed
    ensures var t := Flush(if ok then Switch(s) else s.(upgrading := false));
            && Flat(t.handed) == t.accepted == s.accepted && t.buffer == []
            && t.handed == s.handed + if s.buffer == [] then [] else
                                        [Batch(if ok then Websocket else s.carrier, s.buffer)]
  {
    var t := if ok then Switch(s) else s.(upgrading := false);
    assert InOrder(t);
    if CanTake(t) {
      TakeKeepsOrder(t);
      HandOverKeepsOrder(Take(t), 0);
    }
  }

  /** The condition is needed: an upgrade begun with a batch in flight can see it reach polling after the switch. */
  lemma OverlapReachesOldTransport(s: State)
    requires Placed(s) && !s.closed && !s.begun && s.flights != []
    ensures var t := HandOver(Switch(Begin(s)), 0);
            Legal(s, [Begins, Switches, HandsOver(0)]) && t.late == [s.flights[0]]
  {
    var run := [Begins, Switches, HandsOver(0)];
    assert run[1..] == [Switches, HandsOver(0)] && run[2..] == [HandsOver(0)] && run[1..][1..] == run[2..];
    assert Legal(Switch(Begin(s)), [HandsOver(0)]);
    assert Legal(Begin(s), run[1..]);
  }

  // ---------- the client object ----------

  class Client {
    var closed: bool
    var upgrading: bool
    var tport: Carrier
    var writeBuffer: seq<Packet>
    var pollPaused: bool
    var pollStopped: bool
    ghost var begun: bool
    ghost var accepted: seq<Packet>
    ghost var handed: seq<Batch>

    ghost function View(): State
      reads this
    {
      State(closed, upgrading, begun, tport, writeBuffer, accepted, [], handed, [], [])
    }

    constructor ()
      ensures View() == INITIAL && !pollPaused && !pollStopped
    {
      closed, upgrading, tport, writeBuffer := false, false, Polling, [];
      pollPaused, pollStopped := false, false;
      begun, accepted, handed := false, [], [];
    }

    /** An error tells the caller that the client is closed and the packet was not accepted. */
    method SendMessage(data: Bytes, binary: bool) returns (ok: bool)
      modifies this`writeBuffer, this`handed, this`accepted
      ensures ok == !old(closed)
      ensures View() == Flush(Accept(old(View()), E.Packet(E.MESSAGE, data, binary)))
    {
      if closed {
        return false;
      }
      writeBuffer := writeBuffer + [E.Packet(E.MESSAGE, data, binary)];
      accepted := accepted + [E.Packet(E.MESSAGE, data, binary)];
      FlushSends();
      return true;
    }

    method FlushSends()
      modifies this`writeBuffer, this`handed
      ensures View() == Flush(old(View()))
    {
      if closed || upgrading {
        return;
      }
      var buf := writeBuffer;
      writeBuffer := [];
      if |buf| > 0 {
        handed := handed + [Batch(tport, buf)];
      }
    }

    method BeginUpgrade()
      modifies this
      ensures View() == Begin(old(View()))
      ensures pollPaused == (old(pollPaused) || tport == Polling) && pollStopped == old(pollStopped)
    {
      upgrading := true;
      begun := true;
      if tport == Polling {
        pollPaused := true;
      }
    }

    /** Reads frames until the probe reply; runs dry when reading fails first. */
    method AwaitReply(incoming: seq<H.Frame>) returns (ok: bool, read: nat)
      ensures read <= |incoming|
      ensures ok <==> H.Write(H.REPLY) in incoming
      ensures H.Write(H.REPLY) !in (if ok && read > 0 then incoming[..read - 1] else incoming[..read])
      ensures ok ==> read > 0 && incoming[read - 1] == H.Write(H.REPLY)
      ensures !ok ==> read == |incoming|
    {
      ok, read := false, 0;
      while !ok
        invariant read <= |incoming|
        invariant ok ==> read > 0 && incoming[read - 1] == H.Write(H.REPLY)
        invariant H.Write(H.REPLY) !in incoming[..if ok then read - 1 else read]
        decreases |incoming| - read
      {
        if read == |incoming| {
          return;
        }
        ok := incoming[read] == H.Write(H.REPLY);
        read := read + 1;
      }
    }

    /** The end of the upgrade routine: switch and stop polling, or fall back to it and let it go on. */
    method FinishUpgrade(ok: bool)
      modifies this
      ensures View() == Flush(if ok then Switch(old(View())) else old(View()).(upgrading := false))
      ensures pollPaused == (old(pollPaused) && (ok || old(tport) != Polling))
      ensures pollStopped == (old(pollStopped) || (ok && !old(closed) && old(tport) == Polling))
    {
      if !ok {
        upgrading := false;
        FlushSends();
        if tport == Polling {
          pollPaused := false;
        }
        return;
      }
      if closed {
        return;
      }
      if tport == Polling {
        pollStopped := true;
      }
      tport := Websocket;
      upgrading := false;
      FlushSends();
    }

    method CloseWithError() returns (first: bool)
      modifies this`closed
      ensures View() == old(View()).(closed := true)
      ensures first == !old(closed)
    {
      first := !closed;
      closed := true;
    }
  }
}

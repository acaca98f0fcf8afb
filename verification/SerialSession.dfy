/**
 The session with each call running to completion before the next begins: flush
 is one step, and the callbacks a transport makes from inside a call run there.
 In this setting delivery is in strict order.
 */
module SerialSession {
  import opened Octets
  import opened Sequences
  import E = EnginePayload
  import P = PollingTransport
  import S = SessionSystem

  type Packet = E.Packet

  /** `severed` says that the session's own websocket has been closed. */
  datatype State = State(
    ready: S.Ready, onWebsocket: bool, severed: bool, upgrading: bool, upgraded: bool,
    writeBuffer: seq<Packet>, polling: P.Polling,
    accepted: seq<Packet>, wire: seq<Packet>, dropped: seq<Packet>,
    probing: nat, givenUp: bool, farewells: nat)

  /** A session opens on polling or directly on a websocket, which takes its open packet at once. */
  function Opening(open: Packet, websocket: bool): State {
    State(S.Open, websocket, false, false, false, [open], P.NEW, [open], [], [], 0, false, 0)
  }

  function Initial(open: Packet, websocket: bool): State {
    Flush(Opening(open, websocket))
  }

  predicate Writable(s: State) {
    s.onWebsocket || s.polling.writable
  }

  /** Ends the session: discards and closes its transport and runs the close callback once. */
  function CloseWithReason(s: State): State {
    if s.ready == S.Closed then s
    else
      s.(ready := S.Closed, farewells := s.farewells + 1, severed := s.severed || s.onWebsocket,
         polling := if s.onWebsocket then s.polling else P.CloseLocked(s.polling.(discarded := true)))
  }

  /** An error or close event of the polling transport. */
  function PollingEvent(s: State): State {
    if s.onWebsocket || s.upgrading then s else CloseWithReason(s)
  }

  function ReportClosed(s: State): State {
    if s.polling.closed then s else PollingEvent(s.(polling := P.CloseLocked(s.polling)))
  }

  function Sent(s: State, pkts: seq<Packet>): State {
    s.(polling := P.SendCall(s.polling, pkts),
       wire := if P.Answers(s.polling) then s.wire + P.Outgoing(s.polling, pkts) else s.wire)
  }

  function PollingSend(s: State, pkts: seq<Packet>): State {
    if s.polling.closed then s.(dropped := s.dropped + pkts)
    else if P.ClosesAfterSend(s.polling) then ReportClosed(Sent(s, pkts))
    else Sent(s, pkts)
  }

  /** Writing to a closed websocket fails, and the failure ends the session; flushes come outside upgrades only. */
  function WebsocketSend(s: State, pkts: seq<Packet>): State {
    if s.severed then CloseWithReason(s.(dropped := s.dropped + pkts)) else s.(wire := s.wire + pkts)
  }

  function TransportSend(s: State, pkts: seq<Packet>): State {
    if s.onWebsocket then WebsocketSend(s, pkts) else PollingSend(s, pkts)
  }

  function Flush(s: State): State {
    if s.ready == S.Closed || s.upgrading || s.writeBuffer == [] || !Writable(s) then s
    else TransportSend(s.(writeBuffer := []), s.writeBuffer)
  }

  function SendPacket(s: State, p: Packet): State {
    if s.ready != S.Open then s
    else Flush(s.(writeBuffer := s.writeBuffer + [p], accepted := s.accepted + [p]))
  }

  /** What a poll handler does once its poll is registered and the session has flushed. */
  function PollTail(s: State, taken: seq<Packet>): State {
    if taken != [] then PollingSend(s, taken)
    else if s.polling.pendingClose && !s.polling.closed then PollingSend(s, [P.NOOP])
    else s
  }

  function PollRequest(s: State, r: nat): State {
    if s.polling.req.Some? then PollingEvent(s)
    else
      var (p, taken) := P.Request(s.polling, r);
      PollTail(Flush(s.(polling := p)), taken)
  }

  function PollAborted(s: State, r: nat): State {
    if s.polling.req == Some(r) then PollingEvent(s.(polling := P.AbortCall(s.polling, r))) else s
  }

  function NoopTick(s: State): State {
    if !s.upgraded && !s.onWebsocket && s.polling.writable then PollingSend(s, [P.NOOP]) else s
  }

  function MaybeUpgrade(s: State): State {
    if s.upgrading || s.upgraded || s.ready != S.Open then s
    else s.(upgrading := true, probing := s.probing + 1)
  }

  /** `again` when the callback runs once more for an attempt already given up. */
  function GivenUp(s: State, again: bool): State {
    s.(upgrading := false, givenUp := true,
       probing := if again || s.probing == 0 then s.probing else s.probing - 1)
  }

  /** The abort callback. */
  function AbortUpgrade(s: State, again: bool): State {
    Flush(GivenUp(s, again))
  }

  /** The state in which the upgrade callback flushes: switched, drained, re-queued, old transport closed. */
  function Switched(s: State): State {
    var t := s.(upgrading := false, upgraded := true, onWebsocket := true, severed := false,
                probing := if s.probing == 0 then 0 else s.probing - 1);
    if s.onWebsocket then t
    else
      t.(writeBuffer := s.polling.sendBuffer + s.writeBuffer,
         polling := P.CloseLocked(s.polling.(sendBuffer := [], discarded := true)))
  }

  function CompleteUpgrade(s: State): State {
    if s.ready == S.Closed then s.(probing := if s.probing == 0 then 0 else s.probing - 1)
    else Flush(Switched(s))
  }

  /** A closed websocket's event, which like any other counts only outside an upgrade. */
  function SeverWebsocket(s: State): State {
    var t := s.(severed := true);
    if s.upgrading then t else CloseWithReason(t)
  }

  function CloseTransport(s: State): State {
    if s.onWebsocket then SeverWebsocket(s)
    else
      var (p, what) := P.BeginClose(s.polling);
      match what
      case Nothing => s.(polling := p)
      case Report => ReportClosed(s.(polling := p))
      case SendAndReport => ReportClosed(PollingSend(s.(polling := p), [P.CLOSE]))
  }

  function Close(s: State): State {
    if s.ready != S.Open then s else CloseTransport(Flush(s.(ready := S.Closing)))
  }

  datatype Event =
    | Sends(p: Packet)
    | Polls(r: nat)
    | GivesUp(r: nat)
    | Ticks
    | Probes
    | Aborts(again: bool)
    | Upgrades
    | Closes
    | TimerFires
    | Ends

  predicate Enabled(s: State, e: Event) {
    match e
    case Sends(p) => S.IsData(p)
    case Polls(r) => r !in s.polling.log.seen
    case Aborts(again) => if again then s.givenUp else s.probing > 0
    case Upgrades => s.probing > 0
    case TimerFires => s.polling.timer
    case _ => true
  }

  function Next(s: State, e: Event): (t: State)
    requires Enabled(s, e)
  {
    match e
    case Sends(p) => SendPacket(s, p)
    case Polls(r) => PollRequest(s, r)
    case GivesUp(r) => PollAborted(s, r)
    case Ticks => NoopTick(s)
    case Probes => MaybeUpgrade(s)
    case Aborts(again) => AbortUpgrade(s, again)
    case Upgrades => CompleteUpgrade(s)
    case Closes => Close(s)
    case TimerFires => ReportClosed(s)
    case Ends => CloseWithReason(s)
  }

  ghost predicate Legal(s: State, run: seq<Event>)
    decreases |run|
  {
    run == [] || (Enabled(s, run[0]) && Legal(Next(s, run[0]), run[1..]))
  }

  ghost function After(s: State, run: seq<Event>): (t: State)
    requires Legal(s, run)
    decreases |run|
  {
    if run == [] then s else After(Next(s, run[0]), run[1..])
  }

  // ---------- strict order ----------

  /** The session's own packets in a stretch of the wire. */
  function Data(s: seq<Packet>): (d: seq<Packet>)
  {
    if s == [] then [] else (if S.IsData(s[0]) then [s[0]] else []) + Data(s[1..])
  }

  lemma {:induction false} DataConcat(a: seq<Packet>, b: seq<Packet>)
    ensures Data(a + b) == Data(a) + Data(b)
  {
    if a == [] {
      assert a + b == b;
    } else {
      var first := if S.IsData(a[0]) then [a[0]] else [];
      calc {
        Data(a + b);
      == { assert (a + b)[1..] == a[1..] + b; }
        first + Data(a[1..] + b);
      == { DataConcat(a[1..], b); }
        first + (Data(a[1..]) + Data(b));
      == { Associative(first, Data(a[1..]), Data(b)); }
        Data(a) + Data(b);
      }
    }
  }

  predicate Sound(s: State) {
    && P.OnePoll(s.polling) && P.BufferIdle(s.polling)
    && s.polling.sendBuffer == []
    && (s.upgraded || s.severed ==> s.onWebsocket)
    && Data(s.accepted) == s.accepted && Data(s.writeBuffer) == s.writeBuffer
  }

  predicate Accounted(wire: seq<Packet>, dropped: seq<Packet>, pending: seq<Packet>, buffer: seq<Packet>,
                      accepted: seq<Packet>) {
    && (Data(dropped) == [] ==> Data(wire) + Data(pending) + Data(buffer) == Data(accepted))
    && |Data(wire)| + |Data(dropped)| + |Data(pending)| + |Data(buffer)| == |Data(accepted)|
  }

  /** With `pending` between them, the wire and the write buffer hold what was accepted, in order, but for drops. */
  predicate InOrder(s: State, pending: seq<Packet>) {
    Accounted(s.wire, s.dropped, pending, s.writeBuffer, s.accepted)
  }

  predicate Good(s: State) {
    Sound(s) && InOrder(s, [])
  }

  lemma EndKeepsGood(s: State)
    requires Good(s)
    ensures Good(CloseWithReason(s))
  {
  }

  lemma EventKeepsGood(s: State)
    requires Good(s)
    ensures Good(ReportClosed(s)) && Good(CloseWithReason(s)) && Good(PollingEvent(s))
  {
    EndKeepsGood(s);
    var t := s.(polling := P.CloseLocked(s.polling));
    assert Good(t);
    EndKeepsGood(t);
  }

  lemma DataOutgoing(p: P.Polling, pkts: seq<Packet>)
    ensures Data(P.Outgoing(p, pkts)) == Data(pkts)
  {
    DataConcat(pkts, [P.CLOSE]);
    assert Data([P.CLOSE]) == [];
  }

  lemma PollingSendKeepsGood(s: State, pkts: seq<Packet>)
    requires Sound(s) && InOrder(s, pkts) && s.polling.writable
    ensures Good(PollingSend(s, pkts))
  {
    if s.polling.closed {
      DataConcat(s.dropped, pkts);
      assert Data(s.dropped + pkts) == [] ==> Data(pkts) == [];
    } else {
      DataOutgoing(s.polling, pkts);
      DataConcat(s.wire, P.Outgoing(s.polling, pkts));
      var t := Sent(s, pkts);
      assert Data(t.wire) + Data([]) == Data(s.wire) + Data(pkts);
      assert Good(t);
      EventKeepsGood(t);
    }
  }

  lemma WebsocketSendKeepsGood(s: State, pkts: seq<Packet>)
    requires Sound(s) && InOrder(s, pkts)
    ensures Good(WebsocketSend(s, pkts))
  {
    if s.severed {
      DataConcat(s.dropped, pkts);
      var t := s.(dropped := s.dropped + pkts);
      assert Good(t);
      EndKeepsGood(t);
    } else {
      DataConcat(s.wire, pkts);
      assert Data(s.wire + pkts) + Data([]) == Data(s.wire) + Data(pkts);
    }
  }

  lemma FlushKeepsGood(s: State)
    requires Good(s)
    ensures Good(Flush(s))
  {
    var t := s.(writeBuffer := []);
    assert Data(s.wire) + Data([]) + Data(s.writeBuffer) == Data(s.wire) + Data(s.writeBuffer) + Data([]);
    assert InOrder(t, s.writeBuffer);
    if s.onWebsocket {
      WebsocketSendKeepsGood(t, s.writeBuffer);
    } else if s.polling.writable {
      PollingSendKeepsGood(t, s.writeBuffer);
    }
  }

  lemma SendKeepsGood(s: State, p: Packet)
    requires Good(s) && S.IsData(p)
    ensures Good(SendPacket(s, p))
  {
    var t := s.(writeBuffer := s.writeBuffer + [p], accepted := s.accepted + [p]);
    DataConcat(s.writeBuffer, [p]);
    DataConcat(s.accepted, [p]);
    assert Data([p]) == [p];
    assert Data(s.wire) + Data([]) + (Data(s.writeBuffer) + Data([p]))
        == (Data(s.wire) + Data([]) + Data(s.writeBuffer)) + Data([p]);
    FlushKeepsGood(t);
  }

  lemma ControlKeepsGood(s: State, p: Packet)
    requires Good(s) && s.polling.writable && (p == P.NOOP || p == P.CLOSE)
    ensures Good(PollingSend(s, [p]))
  {
    assert Data([p]) == [];
    PollingSendKeepsGood(s, [p]);
  }

  lemma RequestKeepsGood(s: State, r: nat)
    requires Good(s) && s.polling.req == None
    ensures Good(s.(polling := P.Request(s.polling, r).0)) && P.Request(s.polling, r).1 == []
  {
  }

  /** An orderly close still pending after a flush means the poll was not used up. */
  lemma FlushUsesThePoll(s: State)
    requires Good(s) && s.polling.writable
    ensures var t := Flush(s); t.polling.pendingClose && !t.polling.closed ==> t.polling.writable
  {
  }

  lemma PollKeepsGood(s: State, r: nat)
    requires Good(s)
    ensures Good(PollRequest(s, r))
  {
    if s.polling.req == None {
      RequestKeepsGood(s, r);
      var t := s.(polling := P.Request(s.polling, r).0);
      FlushKeepsGood(t);
      FlushUsesThePoll(t);
      var u := Flush(t);
      if u.polling.pendingClose && !u.polling.closed {
        ControlKeepsGood(u, P.NOOP);
      }
    } else {
      EventKeepsGood(s);
    }
  }

  lemma AbortKeepsGood(s: State, r: nat)
    requires Good(s)
    ensures Good(PollAborted(s, r))
  {
    var t := s.(polling := P.AbortCall(s.polling, r));
    assert Good(t);
    EventKeepsGood(t);
  }

  lemma AbortUpgradeKeepsGood(s: State, again: bool)
    requires Good(s)
    ensures Good(AbortUpgrade(s, again))
  {
    FlushKeepsGood(GivenUp(s, again));
  }

  lemma SwitchKeepsGood(s: State)
    requires Good(s)
    ensures Good(Switched(s))
  {
    assert s.polling.sendBuffer + s.writeBuffer == s.writeBuffer;
  }

  lemma CompleteUpgradeKeepsGood(s: State)
    requires Good(s)
    ensures Good(CompleteUpgrade(s))
  {
    if s.ready != S.Closed {
      SwitchKeepsGood(s);
      FlushKeepsGood(Switched(s));
    }
  }

  lemma CloseTransportKeepsGood(s: State)
    requires Good(s)
    ensures Good(CloseTransport(s))
  {
    if s.onWebsocket {
      EventKeepsGood(s.(severed := true));
    }
    var t := s.(polling := P.BeginClose(s.polling).0);
    assert Good(t);
    EventKeepsGood(t);
    if s.polling.writable {
      ControlKeepsGood(s, P.CLOSE);
      EventKeepsGood(PollingSend(s, [P.CLOSE]));
    }
  }

  lemma CloseKeepsGood(s: State)
    requires Good(s)
    ensures Good(Close(s))
  {
    var t := s.(ready := S.Closing);
    assert Good(t);
    FlushKeepsGood(t);
    CloseTransportKeepsGood(Flush(t));
  }

  lemma StepKeepsGood(s: State, e: Event)
    requires Good(s) && Enabled(s, e)
    ensures Good(Next(s, e))
  {
    match e
    case Sends(p) => SendKeepsGood(s, p);
    case Polls(r) => PollKeepsGood(s, r);
    case GivesUp(r) => AbortKeepsGood(s, r);
    case Ticks => if s.polling.writable { ControlKeepsGood(s, P.NOOP); }
    case Probes =>
    case Aborts(again) => AbortUpgradeKeepsGood(s, again);
    case Upgrades => CompleteUpgradeKeepsGood(s);
    case Closes => CloseKeepsGood(s);
    case TimerFires => EventKeepsGood(s);
    case Ends => EventKeepsGood(s);
  }

  // ---------- dropping ----------

  /** An unclosed session whose active transport is closed. */
  predicate Stalled(s: State) {
    s.ready != S.Closed && if s.onWebsocket then s.severed else s.polling.closed
  }

  /** No packet was dropped and none can be: the session is not stalled and nothing is about to stall it. */
  predicate Settled(s: State) {
    && !Stalled(s) && Data(s.dropped) == []
    && (s.ready == S.Open && !s.onWebsocket ==> !s.polling.pendingClose && !s.polling.timer && !s.polling.discarded)
    && (s.ready == S.Closing ==> !s.upgrading)
  }

  lemma EventKeepsSettled(s: State)
    requires Settled(s)
    ensures Settled(CloseWithReason(s)) && Settled(PollingEvent(s))
    ensures s.ready != S.Open || s.onWebsocket ==> Settled(ReportClosed(s))
  {
  }

  lemma SentKeepsSettled(s: State, pkts: seq<Packet>)
    requires Settled(s) && !s.polling.closed
    ensures Settled(Sent(s, pkts))
    ensures P.ClosesAfterSend(s.polling) && s.ready == S.Open ==> s.onWebsocket
  {
  }

  lemma PollingSendKeepsSettled(s: State, pkts: seq<Packet>)
    requires Settled(s) && (s.polling.closed ==> Data(pkts) == [])
    ensures Settled(PollingSend(s, pkts))
  {
    if s.polling.closed {
      DataConcat(s.dropped, pkts);
    } else {
      SentKeepsSettled(s, pkts);
      EventKeepsSettled(Sent(s, pkts));
    }
  }

  lemma FlushKeepsSettled(s: State)
    requires Settled(s)
    ensures Settled(Flush(s))
  {
    if s.ready != S.Closed && !s.onWebsocket {
      PollingSendKeepsSettled(s.(writeBuffer := []), s.writeBuffer);
    }
  }

  lemma PollKeepsSettled(s: State, r: nat)
    requires Good(s) && Settled(s)
    ensures Settled(PollRequest(s, r))
  {
    if s.polling.req == None {
      RequestKeepsGood(s, r);
      var t := s.(polling := P.Request(s.polling, r).0);
      assert Settled(t);
      FlushKeepsSettled(t);
      PollingSendKeepsSettled(Flush(t), [P.NOOP]);
    } else {
      EventKeepsSettled(s);
    }
  }

  lemma AbortUpgradeKeepsSettled(s: State, again: bool)
    requires Settled(s)
    ensures Settled(AbortUpgrade(s, again))
  {
    FlushKeepsSettled(GivenUp(s, again));
  }

  lemma CompleteUpgradeKeepsSettled(s: State)
    requires Settled(s)
    ensures Settled(CompleteUpgrade(s))
  {
    if s.ready != S.Closed {
      assert Settled(Switched(s));
      FlushKeepsSettled(Switched(s));
    }
  }

  lemma LastCloseKeepsSettled(s: State)
    requires Settled(s) && s.ready != S.Open
    ensures Settled(ReportClosed(PollingSend(s, [P.CLOSE])))
  {
    assert Data([P.CLOSE]) == [];
    PollingSendKeepsSettled(s, [P.CLOSE]);
    CallsMoveForward(s, [P.CLOSE]);
    EventKeepsSettled(PollingSend(s, [P.CLOSE]));
  }

  lemma CloseTransportKeepsSettled(s: State)
    requires Settled(s) && s.ready != S.Open
    ensures Settled(CloseTransport(s))
  {
    if !s.onWebsocket {
      LastCloseKeepsSettled(s);
      var t := s.(polling := P.BeginClose(s.polling).0);
      assert Settled(t);
      EventKeepsSettled(t);
    }
  }

  lemma CloseKeepsSettled(s: State)
    requires Settled(s) && s.ready == S.Open && !s.upgrading
    ensures Settled(Close(s))
  {
    var t := s.(ready := S.Closing);
    FlushKeepsSettled(t);
    CallsMoveForward(t, []);
    CloseTransportKeepsSettled(Flush(t));
  }

  /** Close must wait for an upgrade to settle. */
  predicate Polite(s: State, e: Event) {
    e.Closes? && s.ready == S.Open ==> !s.upgrading
  }

  lemma StepKeepsSettled(s: State, e: Event)
    requires Good(s) && Settled(s) && Enabled(s, e) && Polite(s, e)
    ensures Settled(Next(s, e))
  {
    match e
    case Sends(p) => FlushKeepsSettled(s.(writeBuffer := s.writeBuffer + [p], accepted := s.accepted + [p]));
    case Polls(r) => PollKeepsSettled(s, r);
    case GivesUp(r) => EventKeepsSettled(s.(polling := P.AbortCall(s.polling, r)));
    case Ticks =>
      assert Data([P.NOOP]) == [];
      PollingSendKeepsSettled(s, [P.NOOP]);
    case Probes =>
    case Aborts(again) => AbortUpgradeKeepsSettled(s, again);
    case Upgrades => CompleteUpgradeKeepsSettled(s);
    case Closes => if s.ready == S.Open { CloseKeepsSettled(s); }
    case TimerFires => EventKeepsSettled(s);
    case Ends => EventKeepsSettled(s);
  }

  ghost predicate PoliteRun(s: State, run: seq<Event>)
    requires Legal(s, run)
    decreases |run|
  {
    run == [] || (Polite(s, run[0]) && PoliteRun(Next(s, run[0]), run[1..]))
  }

  lemma {:induction false} RunKeepsOrder(s: State, run: seq<Event>)
    requires Good(s) && Settled(s) && Legal(s, run) && PoliteRun(s, run)
    ensures Good(After(s, run)) && Settled(After(s, run))
    decreases |run|
  {
    if run != [] {
      StepKeepsGood(s, run[0]);
      StepKeepsSettled(s, run[0]);
      RunKeepsOrder(Next(s, run[0]), run[1..]);
    }
  }

  // ---------- lifecycle ----------

  predicate Stage(s: State, t: State) {
    s.ready == t.ready || s.ready == S.Open || t.ready == S.Closed
  }

  lemma CallsMoveForward(s: State, pkts: seq<Packet>)
    ensures Stage(s, CloseWithReason(s)) && Stage(s, PollingEvent(s)) && Stage(s, ReportClosed(s))
    ensures Stage(s, PollingSend(s, pkts)) && Stage(s, Flush(s))
  {
    EventsMoveForward(s);
    EventsMoveForward(Sent(s, pkts));
    EventsMoveForward(Sent(s.(writeBuffer := []), s.writeBuffer));
    EventsMoveForward(s.(writeBuffer := [], dropped := s.dropped + s.writeBuffer));
  }

  lemma EventsMoveForward(s: State)
    ensures Stage(s, CloseWithReason(s)) && Stage(s, PollingEvent(s)) && Stage(s, ReportClosed(s))
  {
  }

  lemma PollMovesForward(s: State, r: nat)
    ensures Stage(s, PollRequest(s, r))
  {
    if s.polling.req == None {
      var (p, taken) := P.Request(s.polling, r);
      var t := s.(polling := p);
      CallsMoveForward(t, []);
      CallsMoveForward(Flush(t), taken);
      CallsMoveForward(Flush(t), [P.NOOP]);
      assert Stage(t, PollTail(Flush(t), taken));
    } else {
      CallsMoveForward(s, []);
    }
  }

  lemma CloseTransportMovesForward(s: State)
    ensures Stage(s, CloseTransport(s))
  {
    if s.onWebsocket {
      CallsMoveForward(s.(severed := true), []);
    } else {
      var t := s.(polling := P.BeginClose(s.polling).0);
      CallsMoveForward(t, [P.CLOSE]);
      CallsMoveForward(PollingSend(t, [P.CLOSE]), []);
    }
  }

  lemma UpgradeMovesForward(s: State, again: bool)
    ensures Stage(s, AbortUpgrade(s, again)) && Stage(s, CompleteUpgrade(s))
  {
    CallsMoveForward(GivenUp(s, again), []);
    CallsMoveForward(Switched(s), []);
  }

  lemma StepMovesForward(s: State, e: Event)
    requires Enabled(s, e)
    ensures Stage(s, Next(s, e))
    ensures e.Closes? ==> Next(s, e).ready != S.Open
  {
    match e
    case Sends(p) => CallsMoveForward(s.(writeBuffer := s.writeBuffer + [p], accepted := s.accepted + [p]), []);
    case Polls(r) => PollMovesForward(s, r);
    case GivesUp(r) => CallsMoveForward(s.(polling := P.AbortCall(s.polling, r)), []);
    case Ticks => CallsMoveForward(s, [P.NOOP]);
    case Probes =>
    case Aborts(again) => UpgradeMovesForward(s, again);
    case Upgrades => UpgradeMovesForward(s, false);
    case Closes =>
      CallsMoveForward(s.(ready := S.Closing), []);
      CloseTransportMovesForward(Flush(s.(ready := S.Closing)));
    case TimerFires => CallsMoveForward(s, []);
    case Ends => CallsMoveForward(s, []);
  }

  lemma {:induction false} OpenRunsArePolite(s: State, run: seq<Event>)
    requires Legal(s, run) && After(s, run).ready == S.Open
    ensures s.ready == S.Open && PoliteRun(s, run)
    decreases |run|
  {
    if run != [] {
      OpenRunsArePolite(Next(s, run[0]), run[1..]);
      StepMovesForward(s, run[0]);
    }
  }

  lemma InitialIsGood(open: Packet, websocket: bool)
    requires S.IsData(open)
    ensures Good(Initial(open, websocket)) && Settled(Initial(open, websocket))
  {
    var s := Opening(open, websocket);
    assert Data([open]) == [open];
    assert Good(s);
    FlushKeepsGood(s);
  }

  lemma GoodMeansInOrder(s: State)
    requires Good(s) && Settled(s)
    ensures Data(s.wire) + s.writeBuffer == s.accepted && s.polling.sendBuffer == []
  {
    assert Data(s.wire) + Data([]) + Data(s.writeBuffer) == Data(s.wire) + Data(s.writeBuffer);
  }

  /**
   Strict order. From either beginning, through any number of polls, upgrades and
   aborts, the session's packets on the wire followed by the write buffer are the
   accepted packets, in order, and the polling buffer holds nothing: always while the session is open,
   and to its end if Close is not called during an upgrade.
   */
  lemma StrictOrder(open: Packet, websocket: bool, run: seq<Event>)
    requires S.IsData(open) && Legal(Initial(open, websocket), run)
    requires After(Initial(open, websocket), run).ready == S.Open || PoliteRun(Initial(open, websocket), run)
    ensures var t := After(Initial(open, websocket), run);
            Data(t.wire) + t.writeBuffer == t.accepted && t.polling.sendBuffer == []
  {
    var s := Initial(open, websocket);
    if After(s, run).ready == S.Open {
      OpenRunsArePolite(s, run);
    }
    InitialIsGood(open, websocket);
    RunKeepsOrder(s, run);
    GoodMeansInOrder(After(s, run));
  }

  lemma EventsDropNothing(s: State)
    ensures CloseWithReason(s).dropped == PollingEvent(s).dropped == ReportClosed(s).dropped == s.dropped
  {
  }

  lemma PollingSendDrops(s: State, pkts: seq<Packet>)
    ensures PollingSend(s, pkts).dropped == if s.polling.closed then s.dropped + pkts else s.dropped
  {
    EventsDropNothing(Sent(s, pkts));
  }

  /** A flush loses application packets in exactly one situation: the session is stalled and looks writable. */
  lemma FlushDropsExactlyWhenStalled(s: State)
    requires Data(s.writeBuffer) == s.writeBuffer
    ensures Data(Flush(s).dropped) != Data(s.dropped)
            <==> Stalled(s) && Writable(s) && !s.upgrading && s.writeBuffer != []
    ensures |Data(Flush(s).dropped)| >= |Data(s.dropped)|
  {
    PollingSendDrops(s.(writeBuffer := []), s.writeBuffer);
    EventsDropNothing(s.(writeBuffer := [], dropped := s.dropped + s.writeBuffer));
    DataConcat(s.dropped, s.writeBuffer);
  }

  /** While the session is open nothing was dropped and nothing is about to be. */
  predicate Steady(s: State) {
    s.ready == S.Open ==> Settled(s)
  }

  lemma StepKeepsSteady(s: State, e: Event)
    requires Good(s) && Steady(s) && Enabled(s, e)
    ensures Steady(Next(s, e))
  {
    StepMovesForward(s, e);
    if Next(s, e).ready == S.Open {
      StepKeepsSettled(s, e);
    }
  }

  /**
   The events that drop packets: in a stalled session with packets waiting, a poll
   outside an upgrade, none being pending, and the abort of an upgrade on a
   websocket or with a poll pending.
   */
  predicate Drops(s: State, e: Event) {
    && Stalled(s) && s.writeBuffer != []
    && ((e.Polls? && s.polling.req == None && !s.upgrading) || (e.Aborts? && (s.onWebsocket || s.polling.req.Some?)))
  }

  ghost predicate DropsMeans(s: State, e: Event)
    requires Enabled(s, e)
  {
    && (Data(Next(s, e).dropped) != Data(s.dropped) <==> Drops(s, e))
    && |Data(Next(s, e).dropped)| >= |Data(s.dropped)|
  }

  lemma ControlDropsNothing(s: State, p: Packet)
    requires p == P.NOOP || p == P.CLOSE
    ensures Data(PollingSend(s, [p]).dropped) == Data(s.dropped)
  {
    PollingSendDrops(s, [p]);
    DataConcat(s.dropped, [p]);
    assert Data([p]) == [];
  }

  lemma SendDropsNothing(s: State, p: Packet)
    requires Good(s) && Steady(s) && S.IsData(p)
    ensures Data(SendPacket(s, p).dropped) == Data(s.dropped)
  {
    if s.ready == S.Open {
      DataConcat(s.writeBuffer, [p]);
      assert Data([p]) == [p];
      FlushDropsExactlyWhenStalled(s.(writeBuffer := s.writeBuffer + [p], accepted := s.accepted + [p]));
    }
  }

  lemma PollDropsIff(s: State, r: nat)
    requires Good(s) && Enabled(s, Polls(r))
    ensures DropsMeans(s, Polls(r))
  {
    if s.polling.req == None {
      RequestKeepsGood(s, r);
      var t := s.(polling := P.Request(s.polling, r).0);
      FlushDropsExactlyWhenStalled(t);
      ControlDropsNothing(Flush(t), P.NOOP);
    }
  }

  lemma AbortDropsIff(s: State, again: bool)
    requires Good(s) && Enabled(s, Aborts(again))
    ensures DropsMeans(s, Aborts(again))
  {
    FlushDropsExactlyWhenStalled(GivenUp(s, again));
  }

  lemma CloseTransportDropsNothing(s: State)
    ensures Data(CloseTransport(s).dropped) == Data(s.dropped)
  {
    var t := s.(polling := P.BeginClose(s.polling).0);
    EventsDropNothing(s.(severed := true));
    EventsDropNothing(t);
    EventsDropNothing(PollingSend(t, [P.CLOSE]));
    ControlDropsNothing(t, P.CLOSE);
  }

  lemma CloseDropsNothing(s: State)
    requires Good(s) && Steady(s)
    ensures Data(Close(s).dropped) == Data(s.dropped)
  {
    if s.ready == S.Open {
      var t := s.(ready := S.Closing);
      FlushDropsExactlyWhenStalled(t);
      CloseTransportDropsNothing(Flush(t));
    }
  }

  lemma EventDropsIff(s: State, e: Event)
    requires Good(s) && Steady(s) && Enabled(s, e)
    ensures DropsMeans(s, e)
  {
    match e
    case Sends(p) => SendDropsNothing(s, p);
    case Polls(r) => PollDropsIff(s, r);
    case GivesUp(r) => EventsDropNothing(s.(polling := P.AbortCall(s.polling, r)));
    case Ticks => ControlDropsNothing(s, P.NOOP);
    case Probes =>
    case Aborts(again) => AbortDropsIff(s, again);
    case Upgrades =>
      SwitchKeepsGood(s);
      FlushDropsExactlyWhenStalled(Switched(s));
    case Closes => CloseDropsNothing(s);
    case TimerFires => EventsDropNothing(s);
    case Ends => EventsDropNothing(s);
  }

  ghost predicate NeverDrops(s: State, run: seq<Event>)
    requires Legal(s, run)
    decreases |run|
  {
    run == [] || (!Drops(s, run[0]) && NeverDrops(Next(s, run[0]), run[1..]))
  }

  lemma {:induction false} RunDropsIff(s: State, run: seq<Event>)
    requires Good(s) && Steady(s) && Legal(s, run)
    ensures Good(After(s, run)) && |Data(After(s, run).dropped)| >= |Data(s.dropped)|
    ensures Data(s.dropped) == [] ==> (Data(After(s, run).dropped) == [] <==> NeverDrops(s, run))
    decreases |run|
  {
    if run != [] {
      StepKeepsGood(s, run[0]);
      StepKeepsSteady(s, run[0]);
      EventDropsIff(s, run[0]);
      RunDropsIff(Next(s, run[0]), run[1..]);
    }
  }

  /** Over every run, polite or not, delivery is complete and in order if and only if none of those events occurs. */
  lemma InOrderIffNeverDrops(open: Packet, websocket: bool, run: seq<Event>)
    requires S.IsData(open) && Legal(Initial(open, websocket), run)
    ensures var t := After(Initial(open, websocket), run);
            Data(t.wire) + t.writeBuffer == t.accepted <==> NeverDrops(Initial(open, websocket), run)
  {
    InitialIsGood(open, websocket);
    RunDropsIff(Initial(open, websocket), run);
    var t := After(Initial(open, websocket), run);
    assert Data(t.wire) + Data([]) + Data(t.writeBuffer) == Data(t.wire) + Data(t.writeBuffer);
  }

  /** Such a situation arises: Close runs during an upgrade, the upgrade is given up, and a poll comes. */
  lemma ImpoliteCloseDropsPacket(open: Packet)
    requires S.IsData(open)
    ensures var s := Close(PollRequest(MaybeUpgrade(Initial(open, false)), 1));
            var t := PollRequest(AbortUpgrade(s, false), 2);
            Stalled(s) && t.accepted == t.dropped == [open] && Data(t.wire) == [] && t.ready == S.Closing
  {
    var s := PollRequest(MaybeUpgrade(Initial(open, false)), 1);
    assert s.polling.writable && s.upgrading && s.wire == [] && !s.polling.closed && s.writeBuffer == [open];
    var t := Close(s);
    assert t.polling.closed && t.wire == [P.CLOSE] && t.polling.req == None && t.writeBuffer == [open];
    assert t.ready == S.Closing && t.dropped == [];
  }

  // ---------- orderly close ----------

  /** What the poll that ends an orderly close carries. */
  function LastAnswer(s: State): seq<Packet> {
    (if s.writeBuffer == [] then [P.NOOP] else s.writeBuffer) + [P.CLOSE]
  }

  /** A polling session, closing, whose last poll has yet to come. */
  predicate AwaitsPoll(s: State) {
    && s.ready == S.Closing && !s.onWebsocket && !s.upgrading
    && P.OnePoll(s.polling) && s.polling.req == None && s.polling.sendBuffer == []
    && s.polling.pendingClose && !s.polling.closed
  }

  /** Nothing that ends the session another way: no poll, no timer, no late switch. */
  predicate Waiting(e: Event) {
    !e.Polls? && !e.TimerFires? && !e.Ends? && !e.Upgrades?
  }

  lemma CloseAwaitsPoll(s: State)
    requires Good(s) && Settled(s) && s.ready == S.Open && !s.onWebsocket && !s.upgrading && s.polling.req == None
    ensures Close(s) == s.(ready := S.Closing, polling := s.polling.(pendingClose := true, timer := true))
    ensures AwaitsPoll(Close(s))
  {
  }

  lemma {:induction false} WaitingChangesNothing(s: State, run: seq<Event>)
    requires AwaitsPoll(s) && Legal(s, run) && forall e :: e in run ==> Waiting(e)
    ensures var t := After(s, run); t == s.(probing := t.probing, givenUp := t.givenUp)
    decreases |run|
  {
    if run != [] {
      assert Waiting(run[0]);
      var t := Next(s, run[0]);
      assert t == s.(probing := t.probing, givenUp := t.givenUp);
      WaitingChangesNothing(t, run[1..]);
    }
  }

  /** The session ended by answering poll `r` with `pkts` and doing nothing else. */
  predicate EndedBy(s: State, t: State, r: nat, pkts: seq<Packet>) {
    && t.polling.log.answers == s.polling.log.answers + [(r, pkts)] && t.wire == s.wire + pkts
    && t.ready == S.Closed && t.farewells == s.farewells + 1 && t.writeBuffer == [] && t.polling.closed
  }

  lemma LastSendCloses(s: State, r: nat, pkts: seq<Packet>)
    requires s.ready == S.Closing && !s.onWebsocket && !s.upgrading && s.writeBuffer == []
    requires s.polling.pendingClose && !s.polling.closed && s.polling.res == s.polling.pollDone == Some(r)
    ensures EndedBy(s, PollingSend(s, pkts), r, pkts + [P.CLOSE])
  {
  }

  lemma LastPollDrains(s: State, r: nat)
    requires AwaitsPoll(s)
    ensures EndedBy(s, PollRequest(s, r), r, LastAnswer(s))
  {
    var (p, taken) := P.Request(s.polling, r);
    var t := s.(polling := p);
    assert taken == [];
    if s.writeBuffer == [] {
      LastSendCloses(t, r, [P.NOOP]);
    } else {
      LastSendCloses(t.(writeBuffer := []), r, s.writeBuffer);
    }
  }

  /**
   Orderly close drains first: a polling session closed with no poll pending and
   no upgrade in progress answers its next poll, whatever is called in between,
   with exactly the buffered packets and a close packet, and is then closed.
   */
  lemma OrderlyCloseDrainsFirst(s: State, run: seq<Event>, r: nat)
    requires Good(s) && Settled(s) && s.ready == S.Open && !s.onWebsocket && !s.upgrading && s.polling.req == None
    requires Legal(Close(s), run) && forall e :: e in run ==> Waiting(e)
    ensures EndedBy(s, PollRequest(After(Close(s), run), r), r, LastAnswer(s))
  {
    CloseAwaitsPoll(s);
    WaitingChangesNothing(Close(s), run);
    LastPollDrains(After(Close(s), run), r);
  }
}

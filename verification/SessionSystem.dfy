/**
 One server session, on long polling or a websocket, that may move to another
 websocket. Every action below is one critical section of the session or of its
 polling transport, or the start or end of an unlocked call; actions of all
 goroutines interleave freely. A call that makes several others only comes to
 owe them, so they may happen in any order. Transport 0 is the polling
 transport; every websocket has a number of its own.
 */
module SessionSystem {
  import opened Octets
  import E = EnginePayload
  import P = PollingTransport

  type Packet = E.Packet

  datatype Ready = Open | Closing | Closed

  /** The batch a flush took from the write buffer and the transport it took it for. */
  datatype Flight = Flight(batch: seq<Packet>, target: nat, sent: bool)

  /** How far the upgrade callback is with retiring the polling transport. */
  datatype Retirement =
    | Serving
    | Waiting     // switched; waiting for `sending` to be false
    | Waited      // has seen it false
    | Carrying    // drained, not yet re-queued
    | Requeued
    | Retired     // discarded and closed

  /** A websocket whose events reach the upgrade handler (probing or aborted), or no longer do. */
  datatype Candidate = Probing | Aborted | Settled

  /** Where packets are, apart from the polling transport's own buffer. `sending` is flight.Some?. */
  datatype Books = Books(
    accepted: seq<Packet>, delivered: seq<Packet>, lost: seq<Packet>,
    writeBuffer: seq<Packet>, flight: Option<Flight>,
    held: seq<seq<Packet>>,      // batches poll handlers took along and have yet to send
    carried: seq<Packet>)        // the batch the upgrade callback drained and has yet to re-queue

  /** Closings decided on and yet to happen, and transport events the session has yet to look at. */
  datatype Ends = Ends(
    shuts: nat,                  // orderly closes about to close the active transport
    discards: nat,               // ended sessions about to discard the polling transport and close it
    closes: nat, closeSends: nat, reports: nat, // stages of closing the polling transport
    cuts: set<nat>,              // websockets about to be closed
    events: multiset<nat>)       // transports that have had an error or close

  /** Calls that have been decided on and have yet to happen. */
  datatype Calls = Calls(
    checks: multiset<nat>,       // sendPacket calls about to ask a transport whether it is writable
    flushes: nat,
    rebinding: set<nat>,         // websockets replaced, about to be closed by the callback that then flushes
    ends: Ends,
    kills: nat,                  // events found to end the session
    farewells: nat, notified: nat) // close callbacks due, and run

  const QUIET := Ends(0, 0, 0, 0, 0, {}, multiset{})

  /** No call outstanding. */
  const IDLE := Calls(multiset{}, 0, {}, QUIET, 0, 0, 0)

  datatype Session = Session(
    ready: Ready, active: nat, upgrading: bool, upgraded: bool,
    retirement: Retirement, candidates: map<nat, Candidate>, switches: nat,
    polling: P.Polling, severed: set<nat>, books: Books, calls: Calls)

  /** Packets the session itself accepts; the transports add Noop and Close on their own. */
  predicate IsData(p: Packet) {
    p.kind == E.OPEN || p.kind == E.PING || p.kind == E.MESSAGE
  }

  /** Attaching the polling transport and opening: the open packet waits for the first poll. */
  function Initial(open: Packet): (s: Session)
  {
    Session(Open, 0, false, false, Serving, map[], 0, P.NEW, {},
            Books([open], [], [], [open], None, [], []), IDLE)
  }

  /** The same on websocket t, which is ready for the open packet; there is no polling transport. */
  function InitialOn(t: nat, open: Packet): (s: Session)
  {
    Session(Open, t, false, false, Retired, map[t := Settled], 0, P.NEW, {},
            Books([open], [], [], [open], None, [], []), IDLE.(checks := multiset{t}))
  }

  /** The two ways a session comes about. */
  predicate Begins(s: Session) {
    s.books.accepted != [] &&
    var open := s.books.accepted[0]; s == Initial(open) || (s.active != 0 && s == InitialOn(s.active, open))
  }

  predicate Writable(s: Session, t: nat) {
    t != 0 || s.polling.writable
  }

  /** Sending: the session's own calls and the upgrade's noop ticks. */
  datatype SendStep =
    | SendPacket(p: Packet)
    | Check(t: nat)
    | FlushCall
    | FlushSend
    | FlushFinish
    | Noop(t: nat)

  /** Polls: a request and its handler's send of the packets it took along, or its abort. */
  datatype PollStep =
    | PollArrives(r: nat)
    | PollAborted(r: nat)
    | Resend(i: nat)

  /** An upgrade attempt k and, once it succeeded, its callback's stages. */
  datatype UpgradeStep =
    | MaybeUpgrade(k: nat)
    | Expire(k: nat)
    | AbortUpgrade(k: nat)
    | Switch(k: nat)
    | SeeIdle
    | Drain
    | Requeue
    | Retire
    | Rebound(t: nat)

  /** Closing the session or a transport. */
  datatype CloseStep =
    | Close
    | ShutTransport
    | Discard
    | ClosePolling
    | SendClose
    | Report
    | TimerFires
    | Cut(t: nat)
    | TransportEvent(t: nat)
    | Hear(t: nat)
    | Kill
    | End
    | Farewell

  datatype Action =
    | Sending(send: SendStep)
    | Polling(poll: PollStep)
    | Upgrading(upgrade: UpgradeStep)
    | Shutting(close: CloseStep)

  predicate CanSend(s: Session, a: SendStep) {
    match a
    case SendPacket(p) => IsData(p)
    case Check(t) => t in s.calls.checks
    case FlushCall => s.calls.flushes > 0
    case FlushSend => s.books.flight.Some? && !s.books.flight.value.sent
    case FlushFinish => s.books.flight.Some? && s.books.flight.value.sent
    case Noop(t) => true
  }

  predicate CanPoll(s: Session, a: PollStep) {
    match a
    case PollArrives(r) => r !in s.polling.log.seen
    case PollAborted(r) => true
    case Resend(i) => i < |s.books.held|
  }

  predicate CanUpgrade(s: Session, a: UpgradeStep) {
    match a
    case MaybeUpgrade(k) => k > 0 && k !in s.candidates && k !in s.severed
    case Expire(k) => k > 0 && k in s.candidates && s.candidates[k] == Probing
    case AbortUpgrade(k) => k in s.candidates && s.candidates[k] != Settled
    case Switch(k) => k > 0 && k in s.candidates && s.candidates[k] == Probing
    case SeeIdle => s.retirement.Waiting? && s.books.flight.None?
    case Drain => s.retirement.Waited?
    case Requeue => s.retirement.Carrying?
    case Retire => s.retirement.Requeued?
    case Rebound(t) => t != 0 && t in s.calls.rebinding
  }

  predicate CanShut(s: Session, a: CloseStep) {
    match a
    case ShutTransport => s.calls.ends.shuts > 0
    case Discard => s.calls.ends.discards > 0
    case ClosePolling => s.calls.ends.closes > 0
    case SendClose => s.calls.ends.closeSends > 0
    case Report => s.calls.ends.reports > 0
    case TimerFires => s.polling.timer
    case Cut(t) => t != 0 && t in s.calls.ends.cuts
    case Hear(t) => t in s.calls.ends.events
    case Kill => s.calls.kills > 0
    case Farewell => s.calls.farewells > 0
    case _ => true
  }

  predicate Enabled(s: Session, a: Action) {
    match a
    case Sending(x) => CanSend(s, x)
    case Polling(x) => CanPoll(s, x)
    case Upgrading(x) => CanUpgrade(s, x)
    case Shutting(x) => CanShut(s, x)
  }

  // ---------- sending ----------

  function OweFlush(c: Calls): Calls {
    c.(flushes := c.flushes + 1)
  }

  function OweReport(c: Calls): Calls {
    c.(ends := c.ends.(reports := c.ends.reports + 1))
  }

  function OweClose(c: Calls): Calls {
    c.(ends := c.ends.(closes := c.ends.closes + 1))
  }

  function OweCut(c: Calls, t: nat): Calls {
    c.(ends := c.ends.(cuts := c.ends.cuts + {t}))
  }

  /** An error or close event of transport t, not yet looked at by the session. */
  function Raise(s: Session, t: nat): Session {
    s.(calls := s.calls.(ends := s.calls.ends.(events := s.calls.ends.events + multiset{t})))
  }

  function DoSendPacket(s: Session, p: Packet): Session {
    if s.ready != Open then s
    else
      s.(books := s.books.(writeBuffer := s.books.writeBuffer + [p], accepted := s.books.accepted + [p]),
         calls := s.calls.(checks := s.calls.checks + multiset{s.active}))
  }

  function DoCheck(s: Session, t: nat): Session {
    var c := s.calls.(checks := s.calls.checks - multiset{t});
    s.(calls := if Writable(s, t) then OweFlush(c) else c)
  }

  predicate CanTake(s: Session) {
    && s.ready != Closed && s.books.flight.None? && !s.upgrading
    && s.books.writeBuffer != [] && Writable(s, s.active)
  }

  function Taken(b: Books, target: nat): Books {
    b.(writeBuffer := [], flight := Some(Flight(b.writeBuffer, target, false)))
  }

  function DoFlushCall(s: Session): Session
    requires s.calls.flushes > 0
  {
    var t := s.(calls := s.calls.(flushes := s.calls.flushes - 1));
    if CanTake(s) then t.(books := Taken(s.books, s.active)) else t
  }

  /** The books after a batch went to the polling transport; a closed one drops it. */
  function Polled(b: Books, p: P.Polling, pkts: seq<Packet>): Books {
    if p.closed then b.(lost := b.lost + pkts)
    else if p.res.Some? then b.(delivered := b.delivered + P.Outgoing(p, pkts))
    else b
  }

  /** ... or to a websocket; one that has been closed drops it, and the failed write is an event. */
  function Written(b: Books, live: bool, pkts: seq<Packet>): Books {
    if live then b.(delivered := b.delivered + pkts) else b.(lost := b.lost + pkts)
  }

  function SendTo(s: Session, t: nat, pkts: seq<Packet>): Session {
    if t == 0 then
      s.(polling := P.Send(s.polling, pkts), books := Polled(s.books, s.polling, pkts),
         calls := if P.ClosesAfterSend(s.polling) then OweReport(s.calls) else s.calls)
    else
      var u := s.(books := Written(s.books, t !in s.severed, pkts));
      if t in s.severed then Raise(u, t) else u
  }

  /** A websocket writes packet by packet; the polling transport takes the batch whole, and a closed one drops it. */
  function DoFlushSend(s: Session): Session
    requires s.books.flight.Some?
  {
    var f := s.books.flight.value;
    if f.target != 0 && f.target !in s.severed && |f.batch| > 1 then
      s.(books := s.books.(delivered := s.books.delivered + [f.batch[0]],
                           flight := Some(f.(batch := f.batch[1..]))))
    else SendTo(s.(books := s.books.(flight := Some(f.(sent := true)))), f.target, f.batch)
  }

  function DoFlushFinish(s: Session): Session {
    var again := s.ready != Closed && s.books.writeBuffer != [] && Writable(s, s.active);
    s.(books := s.books.(flight := None), calls := if again then OweFlush(s.calls) else s.calls)
  }

  // ---------- polling ----------

  function DoPollArrives(s: Session, r: nat): Session {
    if s.polling.req.Some? then Raise(s, 0)
    else
      var (p, taken) := P.Request(s.polling, r);
      s.(polling := p, books := s.books.(held := if taken == [] then s.books.held else s.books.held + [taken]),
         calls := OweFlush(s.calls))
  }

  function DoPollAborted(s: Session, r: nat): Session {
    if s.polling.req == Some(r) then Raise(s.(polling := P.Abort(s.polling, r)), 0) else s
  }

  function Without(held: seq<seq<Packet>>, i: nat): seq<seq<Packet>>
    requires i < |held|
  {
    held[..i] + held[i + 1..]
  }

  function DoResend(s: Session, i: nat): Session
    requires i < |s.books.held|
  {
    SendTo(s.(books := s.books.(held := Without(s.books.held, i))), 0, s.books.held[i])
  }

  // ---------- upgrading ----------

  function DoMaybeUpgrade(s: Session, k: nat): Session {
    if s.upgrading || s.upgraded || s.ready != Open then s.(candidates := s.candidates[k := Settled])
    else s.(upgrading := true, candidates := s.candidates[k := Probing])
  }

  /** Runs on a bad packet, on an error and again when the closed websocket's reader ends. */
  function DoAbortUpgrade(s: Session, k: nat): Session {
    s.(upgrading := false, candidates := s.candidates[k := Aborted], calls := OweFlush(s.calls))
  }

  /** The upgrade timer closes the candidate, which may have been confirmed already. */
  function DoExpire(s: Session, k: nat): Session {
    s.(severed := s.severed + {k})
  }

  /** A candidate closed by then becomes active all the same, and its reader ends with an event. */
  function DoSwitch(s: Session, k: nat): Session {
    if s.ready == Closed then s.(candidates := s.candidates[k := Aborted])
    else
      var t := s.(upgrading := false, upgraded := true, active := k, candidates := s.candidates[k := Settled],
                  switches := s.switches + 1);
      var u := if k in s.severed then Raise(t, k) else t;
      if s.active == 0 then u.(retirement := Waiting)
      else u.(calls := u.calls.(rebinding := u.calls.rebinding + {s.active}))
  }

  function DoDrain(s: Session): Session {
    var (p, batch) := P.Drain(s.polling);
    s.(polling := p, books := s.books.(carried := batch), retirement := Carrying)
  }

  function DoRequeue(s: Session): Session {
    s.(books := s.books.(writeBuffer := s.books.carried + s.books.writeBuffer, carried := []),
       retirement := Requeued)
  }

  /** Discards the polling transport, calls its Close and goes on to rebind and flush. */
  function DoRetire(s: Session): Session {
    s.(polling := s.polling.(discarded := true), retirement := Retired,
       calls := OweFlush(OweClose(s.calls)))
  }

  /** A websocket is closed; its reader ends with an event. */
  function DoSever(s: Session, t: nat): Session {
    Raise(s.(severed := s.severed + {t}), t)
  }

  /** Closes the replaced websocket and goes on to rebind and flush. */
  function DoRebound(s: Session, t: nat): Session {
    DoSever(s.(calls := OweFlush(s.calls).(rebinding := s.calls.rebinding - {t})), t)
  }

  // ---------- closing ----------

  function DoClose(s: Session): Session {
    if s.ready != Open then s
    else s.(ready := Closing, calls := OweFlush(s.calls).(ends := s.calls.ends.(shuts := s.calls.ends.shuts + 1)))
  }

  function DoShutTransport(s: Session): Session
    requires s.calls.ends.shuts > 0
  {
    var c := s.calls.(ends := s.calls.ends.(shuts := s.calls.ends.shuts - 1));
    s.(calls := if s.active == 0 then OweClose(c) else OweCut(c, s.active))
  }

  function DoDiscard(s: Session): Session
    requires s.calls.ends.discards > 0
  {
    s.(polling := s.polling.(discarded := true),
       calls := OweClose(s.calls.(ends := s.calls.ends.(discards := s.calls.ends.discards - 1))))
  }

  function DoClosePolling(s: Session): Session
    requires s.calls.ends.closes > 0
  {
    var (p, what) := P.BeginClose(s.polling);
    var c := s.calls.(ends := s.calls.ends.(closes := s.calls.ends.closes - 1));
    s.(polling := p,
       calls := match what
                case Nothing => c
                case Report => OweReport(c)
                case SendAndReport => c.(ends := c.ends.(closeSends := c.ends.closeSends + 1)))
  }

  function DoSendClose(s: Session): Session
    requires s.calls.ends.closeSends > 0
  {
    var t := SendTo(s, 0, [P.CLOSE]);
    t.(calls := OweReport(t.calls.(ends := t.calls.ends.(closeSends := t.calls.ends.closeSends - 1))))
  }

  function DoReport(s: Session): Session
    requires s.calls.ends.reports > 0
  {
    var t := s.(calls := s.calls.(ends := s.calls.ends.(reports := s.calls.ends.reports - 1)));
    if s.polling.closed then t
    else
      Raise(t.(polling := P.CloseLocked(s.polling),
               books := s.books.(lost := s.books.lost + s.polling.sendBuffer)), 0)
  }

  function DoTimer(s: Session): Session {
    s.(polling := s.polling.(timer := false), calls := OweReport(s.calls))
  }

  function DoCut(s: Session, t: nat): Session {
    DoSever(s.(calls := s.calls.(ends := s.calls.ends.(cuts := s.calls.ends.cuts - {t}))), t)
  }

  /** Looking at an event of transport t: it counts only from the active one outside an upgrade. */
  function DoHear(s: Session, t: nat): Session {
    var c := s.calls.(ends := s.calls.ends.(events := s.calls.ends.events - multiset{t}));
    s.(calls := if s.active == t && !s.upgrading then c.(kills := c.kills + 1) else c)
  }

  /** Marks the session closed; its transport is discarded and closed, and the callback run, after that. */
  function DoEnd(s: Session): Session {
    if s.ready == Closed then s
    else
      var c := s.calls.(farewells := s.calls.farewells + 1);
      s.(ready := Closed,
         calls := if s.active == 0 then c.(ends := c.ends.(discards := c.ends.discards + 1))
                  else OweCut(c, s.active))
  }

  function DoFarewell(s: Session): Session
    requires s.calls.farewells > 0
  {
    s.(calls := s.calls.(farewells := s.calls.farewells - 1, notified := s.calls.notified + 1))
  }

  function NextSend(s: Session, a: SendStep): (t: Session)
    requires CanSend(s, a)
  {
    match a
    case SendPacket(p) => DoSendPacket(s, p)
    case Check(t) => DoCheck(s, t)
    case FlushCall => DoFlushCall(s)
    case FlushSend => DoFlushSend(s)
    case FlushFinish => DoFlushFinish(s)
    case Noop(t) => SendTo(s, t, [P.NOOP])
  }

  function NextPoll(s: Session, a: PollStep): (t: Session)
    requires CanPoll(s, a)
  {
    match a
    case PollArrives(r) => DoPollArrives(s, r)
    case PollAborted(r) => DoPollAborted(s, r)
    case Resend(i) => DoResend(s, i)
  }

  function NextUpgrade(s: Session, a: UpgradeStep): (t: Session)
    requires CanUpgrade(s, a)
  {
    match a
    case MaybeUpgrade(k) => DoMaybeUpgrade(s, k)
    case Expire(k) => DoExpire(s, k)
    case AbortUpgrade(k) => DoAbortUpgrade(s, k)
    case Switch(k) => DoSwitch(s, k)
    case SeeIdle => s.(retirement := Waited)
    case Drain => DoDrain(s)
    case Requeue => DoRequeue(s)
    case Retire => DoRetire(s)
    case Rebound(t) => DoRebound(s, t)
  }

  function NextShut(s: Session, a: CloseStep): (t: Session)
    requires CanShut(s, a)
  {
    match a
    case Close => DoClose(s)
    case ShutTransport => DoShutTransport(s)
    case Discard => DoDiscard(s)
    case ClosePolling => DoClosePolling(s)
    case SendClose => DoSendClose(s)
    case Report => DoReport(s)
    case TimerFires => DoTimer(s)
    case Cut(t) => DoCut(s, t)
    case TransportEvent(t) => Raise(s, t)
    case Hear(t) => DoHear(s, t)
    case Kill => DoEnd(s.(calls := s.calls.(kills := s.calls.kills - 1)))
    case End => DoEnd(s)
    case Farewell => DoFarewell(s)
  }

  function Next(s: Session, a: Action): (t: Session)
    requires Enabled(s, a)
  {
    match a
    case Sending(x) => NextSend(s, x)
    case Polling(x) => NextPoll(s, x)
    case Upgrading(x) => NextUpgrade(s, x)
    case Shutting(x) => NextShut(s, x)
  }

  // ---------- runs ----------

  ghost predicate Legal(s: Session, run: seq<Action>)
    decreases |run|
  {
    run == [] || (Enabled(s, run[0]) && Legal(Next(s, run[0]), run[1..]))
  }

  ghost function After(s: Session, run: seq<Action>): (t: Session)
    requires Legal(s, run)
    decreases |run|
  {
    if run == [] then s else After(Next(s, run[0]), run[1..])
  }

  lemma {:induction false} LegalSnoc(s: Session, run: seq<Action>, a: Action)
    requires Legal(s, run) && Enabled(After(s, run), a)
    ensures Legal(s, run + [a]) && After(s, run + [a]) == Next(After(s, run), a)
    decreases |run|
  {
    if run == [] {
      assert (run + [a])[1..] == [];
    } else {
      assert (run + [a])[1..] == run[1..] + [a];
      LegalSnoc(Next(s, run[0]), run[1..], a);
    }
  }

  ghost predicate Leads(from: Session, run: seq<Action>, s: Session) {
    Legal(from, run) && After(from, run) == s
  }

  lemma {:induction false} LeadsOn(from: Session, run: seq<Action>, s: Session, more: seq<Action>, t: Session)
    requires Leads(from, run, s) && Leads(s, more, t)
    ensures Leads(from, run + more, t)
    decreases |run|
  {
    if run == [] {
      assert run + more == more;
    } else {
      assert (run + more)[1..] == run[1..] + more;
      LeadsOn(Next(from, run[0]), run[1..], s, more, t);
    }
  }

  /** One more action at the end of a run. */
  lemma Go(from: Session, run: seq<Action>, s: Session, a: Action) returns (r: seq<Action>, t: Session)
    requires Leads(from, run, s) && Enabled(s, a)
    ensures Leads(from, r, t) && t == Next(s, a) && r == run + [a]
  {
    LegalSnoc(from, run, a);
    r, t := run + [a], Next(s, a);
  }
}

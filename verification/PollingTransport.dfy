/**
 The server's HTTP long-polling transport. Each function below is one critical
 section under the transport's mutex; the class performs them on its fields.
 */
module PollingTransport {
  import opened Octets
  import opened Sequences
  import E = EnginePayload

  type Packet = E.Packet

  const NOOP := E.Packet(E.NOOP, [], false)
  const CLOSE := E.Packet(E.CLOSE, [], false)

  /**
   What has become of the polls so far, known by number. The channel that ends a
   poll's wait is `owed` from when it is taken out of the fields until its taker
   has closed it.
   */
  datatype Log = Log(seen: set<nat>, answers: seq<(nat, seq<Packet>)>, owed: set<nat>, ended: seq<nat>)

  /** The guarded fields, and the log. */
  datatype Polling = Polling(
    req: Option<nat>, res: Option<nat>, pollDone: Option<nat>, writable: bool,
    sendBuffer: seq<Packet>, discarded: bool, closed: bool, pendingClose: bool, timer: bool,
    log: Log)

  const NEW := Polling(None, None, None, false, [], false, false, false, false, Log({}, [], {}, []))

  /** A poll arrives while none is pending; returns the packets it takes along. */
  function Request(p: Polling, r: nat): (q: (Polling, seq<Packet>))
    requires p.req == None
  {
    var taken := if p.closed then [] else p.sendBuffer;
    (p.(req := Some(r), res := Some(r), pollDone := Some(r), writable := true, log := p.log.(seen := p.log.seen + {r}),
        sendBuffer := if taken == [] then p.sendBuffer else []),
     taken)
  }

  /** The client gave up on poll r. */
  function Abort(p: Polling, r: nat): (q: Polling)
  {
    if p.req == Some(r) then
      p.(req := None, res := None, pollDone := None, writable := false, log := p.log.(owed := p.log.owed + {r}))
    else p
  }

  /** What Send puts on the wire: an orderly close rides along. */
  function Outgoing(p: Polling, pkts: seq<Packet>): (out: seq<Packet>)
  {
    if p.pendingClose then pkts + [CLOSE] else pkts
  }

  function Answered(log: Log, r: nat, out: seq<Packet>, done: Option<nat>): (l: Log)
  {
    log.(answers := log.answers + [(r, out)],
         owed := if done == None then log.owed else log.owed + {done.value})
  }

  function Send(p: Polling, pkts: seq<Packet>): (q: Polling)
  {
    if p.closed then p
    else
      var out := Outgoing(p, pkts);
      match p.res
      case None => p.(writable := false, sendBuffer := p.sendBuffer + out)
      case Some(r) =>
        p.(writable := false, req := None, res := None, pollDone := None,
           log := Answered(p.log, r, out, p.pollDone))
  }

  /** Whether Send answers a poll, and whether it must report the transport closed afterwards. */
  predicate Answers(p: Polling) {
    !p.closed && p.res.Some?
  }

  predicate ClosesAfterSend(p: Polling) {
    Answers(p) && p.pendingClose
  }

  /** The taker of a channel closes it. */
  function EndWait(p: Polling, r: nat): (q: Polling)
  {
    p.(log := p.log.(owed := p.log.owed - {r}, ended := p.log.ended + [r]))
  }

  function Drain(p: Polling): (q: (Polling, seq<Packet>))
  {
    (p.(sendBuffer := []), p.sendBuffer)
  }

  datatype Closing = Nothing | Report | SendAndReport

  /** Close decides under the mutex what it does next. */
  function BeginClose(p: Polling): (q: (Polling, Closing))
  {
    if p.closed then (p, Nothing)
    else if p.discarded then (p, Report)
    else if p.writable then (p, SendAndReport)
    else (p.(pendingClose := true, timer := true), Nothing)
  }

  function CloseLocked(p: Polling): (q: Polling)
  {
    if p.closed then p
    else
      p.(closed := true, writable := false, pendingClose := false, req := None, res := None,
         sendBuffer := [], timer := false, pollDone := None,
         log := if p.pollDone == None then p.log else p.log.(ended := p.log.ended + [p.pollDone.value]))
  }

  // ---------- what every step keeps ----------

  /** The poll fields are set together, exactly while the transport is writable. */
  predicate OnePoll(p: Polling) {
    && p.req == p.res == p.pollDone
    && (p.writable <==> p.req.Some?)
  }

  predicate BufferIdle(p: Polling) {
    && (p.closed ==> p.sendBuffer == [] && !p.pendingClose && !p.timer)
    && (p.writable ==> p.sendBuffer == [])
  }

  /** A poll's channel is pending, owed or ended, and never two of these. */
  ghost predicate Owned(p: Polling) {
    && (p.pollDone.Some? ==>
          p.pollDone.value in p.log.seen && p.pollDone.value !in p.log.owed && p.pollDone.value !in p.log.ended)
    && (forall r :: r in p.log.owed ==> r in p.log.seen && r !in p.log.ended)
    && (forall r :: r in p.log.ended ==> r in p.log.seen)
    && (forall r :: r in p.log.seen ==> p.pollDone == Some(r) || r in p.log.owed || r in p.log.ended)
    && Distinct(p.log.ended)
  }

  /** Polls answered so far are over and distinct. */
  ghost predicate AnsweredOnce(p: Polling) {
    && (forall i :: 0 <= i < |p.log.answers| ==> p.log.answers[i].0 in p.log.seen && p.res != Some(p.log.answers[i].0))
    && (forall i, j :: 0 <= i < j < |p.log.answers| ==> p.log.answers[i].0 != p.log.answers[j].0)
  }

  ghost predicate Inv(p: Polling) {
    OnePoll(p) && BufferIdle(p) && Owned(p) && AnsweredOnce(p)
  }

  // ---------- runs ----------

  /** Everything that can happen to the transport, in any order. */
  datatype Event =
    | PollArrives(r: nat)
    | PollAborted(r: nat)
    | Sending(pkts: seq<Packet>)
    | WaitEnds(r: nat)
    | Draining
    | Discarding
    | CloseCalled
    | Reported
    | TimerFires

  predicate Enabled(p: Polling, e: Event) {
    match e
    case PollArrives(r) => r !in p.log.seen
    case WaitEnds(r) => r in p.log.owed
    case TimerFires => p.timer
    case _ => true
  }

  function Next(p: Polling, e: Event): (q: Polling)
  {
    match e
    case PollArrives(r) => if p.req == None then Request(p, r).0 else p
    case PollAborted(r) => Abort(p, r)
    case Sending(pkts) => Send(p, pkts)
    case WaitEnds(r) => EndWait(p, r)
    case Draining => Drain(p).0
    case Discarding => p.(discarded := true)
    case CloseCalled => BeginClose(p).0
    case Reported => CloseLocked(p)
    case TimerFires => CloseLocked(p)
  }

  /** A sequence of events each of which can happen where it stands. */
  ghost predicate Legal(p: Polling, events: seq<Event>)
    decreases |events|
  {
    events == [] || (Enabled(p, events[0]) && Legal(Next(p, events[0]), events[1..]))
  }

  function After(p: Polling, events: seq<Event>): (q: Polling)
    decreases |events|
  {
    if events == [] then p else After(Next(p, events[0]), events[1..])
  }

  lemma StepKeepsPoll(p: Polling, e: Event)
    requires OnePoll(p) && BufferIdle(p) && Enabled(p, e)
    ensures OnePoll(Next(p, e)) && BufferIdle(Next(p, e))
  {
  }

  lemma EndKeepsOwned(p: Polling, r: nat)
    requires OnePoll(p) && Owned(p) && r in p.log.owed
    ensures Owned(EndWait(p, r))
  {
    DistinctSnoc(p.log.ended, r);
  }

  lemma CloseKeepsOwned(p: Polling)
    requires OnePoll(p) && Owned(p)
    ensures Owned(CloseLocked(p))
  {
    if p.pollDone.Some? {
      DistinctSnoc(p.log.ended, p.pollDone.value);
    }
  }

  lemma StepKeepsOwned(p: Polling, e: Event)
    requires OnePoll(p) && Owned(p) && Enabled(p, e)
    ensures Owned(Next(p, e))
  {
    match e
    case WaitEnds(r) => EndKeepsOwned(p, r);
    case Reported => CloseKeepsOwned(p);
    case TimerFires => CloseKeepsOwned(p);
    case _ =>
  }

  lemma StepKeepsAnswers(p: Polling, e: Event)
    requires OnePoll(p) && Owned(p) && AnsweredOnce(p) && Enabled(p, e)
    ensures AnsweredOnce(Next(p, e))
  {
  }

  /**
   However sends, aborts, drains and closes interleave, the poll fields stay in
   step, each poll is answered at most once and its wait ends at most once.
   */
  lemma {:induction false} PollOwnership(p: Polling, events: seq<Event>)
    requires Inv(p) && Legal(p, events)
    ensures Inv(After(p, events))
    decreases |events|
  {
    if events != [] {
      StepKeepsPoll(p, events[0]);
      StepKeepsOwned(p, events[0]);
      StepKeepsAnswers(p, events[0]);
      PollOwnership(Next(p, events[0]), events[1..]);
    }
  }

  /** From a new transport on: one pending poll at most, and no poll answered or ended twice. */
  lemma PollsEndOnce(events: seq<Event>)
    requires Legal(NEW, events)
    ensures var p := After(NEW, events);
            && OnePoll(p) && BufferIdle(p) && Distinct(p.log.ended)
            && (forall i, j :: 0 <= i < j < |p.log.answers| ==> p.log.answers[i].0 != p.log.answers[j].0)
            && (forall i :: 0 <= i < |p.log.answers| ==> p.res != Some(p.log.answers[i].0))
  {
    PollOwnership(NEW, events);
  }

  // ---------- whole calls ----------

  /** Send with the closing of the answered poll's channel that follows it. */
  function SendCall(p: Polling, pkts: seq<Packet>): (q: Polling)
  {
    if Answers(p) && p.pollDone.Some? then EndWait(Send(p, pkts), p.pollDone.value) else Send(p, pkts)
  }

  function AbortCall(p: Polling, r: nat): (q: Polling)
  {
    if p.req == Some(r) then EndWait(Abort(p, r), r) else p
  }

  /** The transport's fields; the history is kept beside them for the specification only. */
  class Transport {
    var req: Option<nat>
    var res: Option<nat>
    var pollDone: Option<nat>
    var writable: bool
    var sendBuffer: seq<Packet>
    var discarded: bool
    var closed: bool
    var pendingClose: bool
    var timer: bool
    ghost var log: Log

    ghost function View(): Polling
      reads this
    {
      Polling(req, res, pollDone, writable, sendBuffer, discarded, closed, pendingClose, timer, log)
    }

    constructor ()
      ensures View() == NEW
    {
      req, res, pollDone, writable := None, None, None, false;
      sendBuffer, discarded, closed, pendingClose, timer := [], false, false, false, false;
      log := NEW.log;
    }

    /** The locked part of a poll request; a second poll while one is pending is refused. */
    method OnPollRequest(r: nat) returns (ok: bool, buffered: seq<Packet>)
      modifies this
      ensures ok == (old(req) == None)
      ensures !ok ==> View() == old(View()) && buffered == []
      ensures ok ==> (View(), buffered) == Request(old(View()), r)
    {
      if req != None {
        return false, [];
      }
      req, res, writable, pollDone := Some(r), Some(r), true, Some(r);
      log := log.(seen := log.seen + {r});
      buffered := [];
      if !closed && |sendBuffer| > 0 {
        buffered, sendBuffer := sendBuffer, [];
      }
      ok := true;
    }

    /** The client went away; reports whether it was this poll that was pending. */
    method OnPollAborted(r: nat) returns (pending: bool)
      modifies this
      ensures pending == (old(req) == Some(r))
      ensures View() == AbortCall(old(View()), r)
    {
      pending := req == Some(r);
      if pending {
        req, res, pollDone, writable := None, None, None, false;
        log := EndWait(Abort(old(View()), r), r).log;
      }
    }

    /** Reports whether the caller must go on to report the transport closed. */
    method Send(packets: seq<Packet>) returns (thenReport: bool)
      modifies this
      ensures View() == SendCall(old(View()), packets)
      ensures thenReport == ClosesAfterSend(old(View()))
    {
      if closed {
        return false;
      }
      var pkts := packets;
      if pendingClose {
        pkts := pkts + [CLOSE];
      }
      writable := false;
      if res == None {
        sendBuffer := sendBuffer + pkts;
        return false;
      }
      log := SendCall(old(View()), packets).log;
      req, res, pollDone := None, None, None;
      thenReport := pendingClose;
    }

    method DrainBuffered() returns (buf: seq<Packet>)
      modifies this
      ensures (View(), buf) == Drain(old(View()))
    {
      buf, sendBuffer := sendBuffer, [];
    }

    method Discard()
      modifies this
      ensures View() == old(View()).(discarded := true)
    {
      discarded := true;
    }

    method Close() returns (what: Closing)
      modifies this
      ensures (View(), what) == BeginClose(old(View()))
    {
      if closed {
        return Nothing;
      }
      if discarded {
        return Report;
      }
      if writable {
        return SendAndReport;
      }
      pendingClose := true;
      timer := true;
      what := Nothing;
    }

    /** Reports whether this call closed the transport, so that the session must hear of it. */
    method CloseNow() returns (first: bool)
      modifies this
      ensures View() == CloseLocked(old(View()))
      ensures first == !old(closed)
    {
      if closed {
        return false;
      }
      closed, writable, pendingClose, req, res, sendBuffer, timer := true, false, false, None, None, [], false;
      if pollDone != None {
        log := log.(ended := log.ended + [pollDone.value]);
        pollDone := None;
      }
      first := true;
    }
  }
}

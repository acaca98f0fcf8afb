/**
 Runs the program allows in which a promise of the session is broken: each
 condition of the theorems is needed, and closing has gaps of its own.
 */
module SessionFaults {
  import opened Octets
  import opened SessionSystem
  import opened SessionInvariants
  import opened SessionTheorems
  import E = EnginePayload
  import P = PollingTransport

  /** The log after the first poll was given up. */
  const GONE := P.Log({1}, [], {1}, [])

  /** The polling transport with poll r pending. */
  function Pending(p: P.Polling, r: nat): P.Polling {
    p.(req := Some(r), res := Some(r), pollDone := Some(r), writable := true, log := p.log.(seen := p.log.seen + {r}))
  }

  /** The first poll has arrived and a flush has taken the open packet for it. */
  lemma OpenInFlight(open: Packet) returns (run: seq<Action>, s: Session)
    ensures Leads(Initial(open), run, s)
    ensures s == Initial(open).(polling := Pending(P.NEW, 1),
                                books := Books([open], [], [], [], Some(Flight([open], 0, false)), [], []))
  {
    run, s := Go(Initial(open), [], Initial(open), Polling(PollArrives(1)));
    run, s := Go(Initial(open), run, s, Sending(FlushCall));
  }

  /** A packet buffered for the next poll: its poll was given up between take and send, during an upgrade. */
  lemma Buffered(open: Packet) returns (run: seq<Action>, s: Session)
    ensures Leads(Initial(open), run, s)
    ensures s == Initial(open).(upgrading := true, candidates := map[7 := Probing],
                                polling := P.NEW.(sendBuffer := [open], log := GONE),
                                books := Books([open], [], [], [], None, [], []))
  {
    run, s := OpenInFlight(open);
    run, s := Go(Initial(open), run, s, Upgrading(MaybeUpgrade(7)));
    run, s := Go(Initial(open), run, s, Polling(PollAborted(1)));
    run, s := Go(Initial(open), run, s, Shutting(Hear(0)));
    assert s.polling == P.NEW.(log := GONE) && s.calls == IDLE;
    run, s := Go(Initial(open), run, s, Sending(FlushSend));
    run, s := Go(Initial(open), run, s, Sending(FlushFinish));
  }

  /** ... and then taken along by the handler of the next poll just before the switch. */
  lemma TakenAlong(open: Packet) returns (run: seq<Action>, s: Session)
    ensures Leads(Initial(open), run, s)
    ensures s == Initial(open).(active := 7, upgraded := true, retirement := Waiting, switches := 1,
                                candidates := map[7 := Settled],
                                polling := Pending(P.NEW.(log := GONE), 2),
                                books := Books([open], [], [], [], None, [[open]], []))
  {
    run, s := Buffered(open);
    run, s := Go(Initial(open), run, s, Polling(PollArrives(2)));
    assert s.books == Books([open], [], [], [], None, [[open]], []);
    run, s := Go(Initial(open), run, s, Sending(FlushCall));
    run, s := Go(Initial(open), run, s, Upgrading(Switch(7)));
  }

  /** The callback drains an empty buffer. */
  lemma DrainedTooLate(open: Packet) returns (run: seq<Action>, s: Session)
    ensures Leads(Initial(open), run, s)
    ensures s.ready == Open && s.active == 7 && !s.upgrading && s.retirement == Requeued
    ensures s.books == Books([open], [], [], [], None, [[open]], [])
    ensures s.polling == Pending(P.NEW.(log := GONE), 2) && s.calls == IDLE
  {
    run, s := TakenAlong(open);
    run, s := Go(Initial(open), run, s, Upgrading(SeeIdle));
    run, s := Go(Initial(open), run, s, Upgrading(Drain));
    run, s := Go(Initial(open), run, s, Upgrading(Requeue));
  }

  /**
   The upgrade can lose a packet: a poll handler took the buffered packet along,
   the callback drained an empty buffer and closed the transport, and the
   handler's own send then finds the transport closed.
   */
  lemma UpgradeCanLosePacket(open: Packet) returns (run: seq<Action>, s: Session)
    ensures Leads(Initial(open), run, s)
    ensures s.ready == Open && s.books.lost == [open] && s.books.delivered == []
  {
    run, s := DrainedTooLate(open);
    run, s := Go(Initial(open), run, s, Upgrading(Retire));
    run, s := Go(Initial(open), run, s, Shutting(ClosePolling));
    run, s := Go(Initial(open), run, s, Shutting(Report));
    assert s.polling.closed && s.books == Books([open], [], [], [], None, [[open]], []);
    run, s := Go(Initial(open), run, s, Polling(Resend(0)));
  }

  /**
   A session can switch twice: the second abort callback of attempt 1 clears the
   flag that attempt 2 had set, so attempt 3 starts beside it and both succeed.
   */
  lemma StaleAbortAllowsTwoSwitches(open: Packet) returns (run: seq<Action>, s: Session)
    ensures Leads(Initial(open), run, s)
    ensures s.ready == Open && s.switches == 2 && s.active == 3
  {
    run, s := Go(Initial(open), [], Initial(open), Upgrading(MaybeUpgrade(1)));
    run, s := Go(Initial(open), run, s, Upgrading(AbortUpgrade(1)));
    run, s := Go(Initial(open), run, s, Sending(FlushCall));
    run, s := Go(Initial(open), run, s, Upgrading(MaybeUpgrade(2)));
    assert s.candidates == map[1 := Aborted, 2 := Probing];
    var more, t := DisorderlyAbortAllowsTwoSwitches(s, 1, 2, 3);
    LeadsOn(Initial(open), run, s, more, t);
    run, s := run + more, t;
  }

  /** Close finds the poll pending while a flush of another goroutine holds the batch it took. */
  lemma CloseMeetsFlush(open: Packet) returns (run: seq<Action>, s: Session)
    ensures Leads(Initial(open), run, s)
    ensures s == Initial(open).(ready := Closing, polling := Pending(P.NEW, 1),
                                books := Books([open], [], [], [], Some(Flight([open], 0, false)), [], []),
                                calls := IDLE.(ends := QUIET.(closeSends := 1)))
  {
    run, s := OpenInFlight(open);
    run, s := Go(Initial(open), run, s, Shutting(Close));
    run, s := Go(Initial(open), run, s, Sending(FlushCall));
    run, s := Go(Initial(open), run, s, Shutting(ShutTransport));
    run, s := Go(Initial(open), run, s, Shutting(ClosePolling));
  }

  /**
   Closing can lose a packet: Close answers the pending poll and closes the
   transport before the flush hands over its batch.
   */
  lemma CloseCanLosePacket(open: Packet) returns (run: seq<Action>, s: Session)
    ensures Leads(Initial(open), run, s)
    ensures s.ready == Closing && s.books.lost == [open]
  {
    run, s := CloseMeetsFlush(open);
    run, s := Go(Initial(open), run, s, Shutting(SendClose));
    run, s := Go(Initial(open), run, s, Shutting(Report));
    assert s.polling.closed && s.books.lost == [] && s.ready == Closing;
    run, s := Go(Initial(open), run, s, Sending(FlushSend));
  }

  /** A poll arrives during an upgrade; its flush is refused. */
  lemma PollMeetsUpgrade(open: Packet) returns (run: seq<Action>, s: Session)
    ensures Leads(Initial(open), run, s)
    ensures s == Initial(open).(upgrading := true, candidates := map[1 := Probing], polling := Pending(P.NEW, 1))
  {
    run, s := Go(Initial(open), [], Initial(open), Upgrading(MaybeUpgrade(1)));
    run, s := Go(Initial(open), run, s, Polling(PollArrives(1)));
    assert s.books == Initial(open).books;
    run, s := Go(Initial(open), run, s, Sending(FlushCall));
  }

  /** Close called during an upgrade: its flush is refused, and it is about to close the polling transport. */
  lemma CloseRefused(open: Packet, from: seq<Action>, f: Session) returns (run: seq<Action>, s: Session)
    requires Leads(Initial(open), from, f) && f.ready == Open && f.upgrading && f.active == 0 && f.calls == IDLE
    ensures Leads(Initial(open), run, s)
    ensures s == f.(ready := Closing, calls := IDLE.(ends := QUIET.(closes := 1)))
  {
    run, s := Go(Initial(open), from, f, Shutting(Close));
    run, s := Go(Initial(open), run, s, Sending(FlushCall));
    run, s := Go(Initial(open), run, s, Shutting(ShutTransport));
  }

  /** The transport answers the pending poll with a close packet and closes; its event is heard in vain. */
  lemma CloseHeardInVain(open: Packet) returns (run: seq<Action>, s: Session)
    ensures Leads(Initial(open), run, s)
    ensures s.ready == Closing && s.active == 0 && s.polling.closed && !s.polling.writable && s.upgrading
    ensures s.candidates == map[1 := Probing] && s.calls == IDLE
    ensures s.books.writeBuffer == [open] && s.books.flight == None
  {
    run, s := PollMeetsUpgrade(open);
    run, s := CloseRefused(open, run, s);
    run, s := Go(Initial(open), run, s, Shutting(ClosePolling));
    run, s := Go(Initial(open), run, s, Shutting(SendClose));
    assert s.books.writeBuffer == [open] && s.books.flight == None;
    run, s := Go(Initial(open), run, s, Shutting(Report));
    assert s.polling.closed && s.calls == IDLE.(ends := QUIET.(events := multiset{0}));
    run, s := Go(Initial(open), run, s, Shutting(Hear(0)));
  }

  /**
   Closing during an upgrade that then fails leaves a closing session with its
   packet unsent and no call in progress: the polling transport's close event was
   ignored because of the upgrade.
   */
  lemma CloseDuringUpgradeStalls(open: Packet) returns (run: seq<Action>, s: Session)
    ensures Leads(Initial(open), run, s)
    ensures s.ready == Closing && s.active == 0 && s.polling.closed && !s.upgrading
    ensures s.books.writeBuffer == [open] && s.books.flight == None && s.calls == IDLE
  {
    run, s := CloseHeardInVain(open);
    run, s := Go(Initial(open), run, s, Upgrading(AbortUpgrade(1)));
    run, s := Go(Initial(open), run, s, Sending(FlushCall));
  }

  /** Close during an upgrade with no poll pending leaves the close to the next poll, or to a timer. */
  lemma CloseLeftToPoll(open: Packet) returns (run: seq<Action>, s: Session)
    ensures Leads(Initial(open), run, s)
    ensures s == Initial(open).(ready := Closing, upgrading := true, candidates := map[1 := Probing],
                                polling := P.NEW.(pendingClose := true, timer := true))
  {
    run, s := Go(Initial(open), [], Initial(open), Upgrading(MaybeUpgrade(1)));
    run, s := CloseRefused(open, run, s);
    run, s := Go(Initial(open), run, s, Shutting(ClosePolling));
  }

  /** ... and the switch then leaves the close behind with the transport it replaces. */
  lemma SwitchWhileClosing(open: Packet) returns (run: seq<Action>, s: Session)
    ensures Leads(Initial(open), run, s)
    ensures s.ready == Closing && s.active == 1 && !s.upgrading && s.severed == {}
    ensures s.books == Initial(open).books && s.calls == IDLE.(flushes := 1, ends := QUIET.(closes := 1))
    ensures s.polling == P.NEW.(pendingClose := true, timer := true, discarded := true)
  {
    run, s := CloseLeftToPoll(open);
    run, s := Go(Initial(open), run, s, Upgrading(Switch(1)));
    run, s := Go(Initial(open), run, s, Upgrading(SeeIdle));
    run, s := Go(Initial(open), run, s, Upgrading(Drain));
    run, s := Go(Initial(open), run, s, Upgrading(Requeue));
    assert s.books == Initial(open).books;
    run, s := Go(Initial(open), run, s, Upgrading(Retire));
  }

  /**
   Closing during an upgrade that then succeeds leaves the session closing on a
   live websocket, with no call in progress and nothing left to close it.
   */
  lemma CloseThenSwitchStalls(open: Packet) returns (run: seq<Action>, s: Session)
    ensures Leads(Initial(open), run, s)
    ensures s.ready == Closing && s.active == 1 && s.severed == {} && s.calls == IDLE && !s.polling.timer
  {
    run, s := SwitchWhileClosing(open);
    run, s := Go(Initial(open), run, s, Shutting(ClosePolling));
    run, s := Go(Initial(open), run, s, Shutting(Report));
    assert s.calls == IDLE.(flushes := 1, ends := QUIET.(events := multiset{0}));
    run, s := Go(Initial(open), run, s, Shutting(Hear(0)));
    run, s := Go(Initial(open), run, s, Sending(FlushCall));
    run, s := Go(Initial(open), run, s, Sending(FlushSend));
    assert s.calls == IDLE && s.ready == Closing && s.books.writeBuffer == [];
    run, s := Go(Initial(open), run, s, Sending(FlushFinish));
  }

  /** The upgrade timer closes the candidate just as it is confirmed; it becomes active, closed as it is. */
  lemma SwitchToExpired(open: Packet) returns (run: seq<Action>, s: Session)
    ensures Leads(Initial(open), run, s)
    ensures s.ready == Open && s.active == 1 && !s.upgrading && s.severed == {1} && s.books == Initial(open).books
    ensures s.calls == IDLE.(flushes := 1, ends := QUIET.(closes := 1, events := multiset{1}))
    ensures s.polling == P.NEW.(discarded := true)
  {
    run, s := Go(Initial(open), [], Initial(open), Upgrading(MaybeUpgrade(1)));
    run, s := Go(Initial(open), run, s, Upgrading(Expire(1)));
    run, s := Go(Initial(open), run, s, Upgrading(Switch(1)));
    assert s.calls == IDLE.(ends := QUIET.(events := multiset{1})) && s.severed == {1};
    run, s := Go(Initial(open), run, s, Upgrading(SeeIdle));
    run, s := Go(Initial(open), run, s, Upgrading(Drain));
    run, s := Go(Initial(open), run, s, Upgrading(Requeue));
    assert s.books == Initial(open).books;
    run, s := Go(Initial(open), run, s, Upgrading(Retire));
  }

  /** The callback closes the polling transport. */
  lemma ExpiredAndRetired(open: Packet) returns (run: seq<Action>, s: Session)
    ensures Leads(Initial(open), run, s)
    ensures s.ready == Open && s.active == 1 && !s.upgrading && s.severed == {1} && s.books == Initial(open).books
    ensures s.calls.flushes == 1
  {
    run, s := SwitchToExpired(open);
    run, s := Go(Initial(open), run, s, Shutting(ClosePolling));
    run, s := Go(Initial(open), run, s, Shutting(Report));
    assert [] + P.NEW.sendBuffer == [] && s.books == Initial(open).books;
    run, s := Go(Initial(open), run, s, Shutting(Hear(0)));
  }

  /** ... and its flush then loses the batch in an open session. */
  lemma ExpiredCandidateLosesPacket(open: Packet) returns (run: seq<Action>, s: Session)
    ensures Leads(Initial(open), run, s)
    ensures s.ready == Open && s.books.lost == [open]
  {
    run, s := ExpiredAndRetired(open);
    run, s := Go(Initial(open), run, s, Sending(FlushCall));
    run, s := Go(Initial(open), run, s, Sending(FlushSend));
  }
}

/**
 The session object itself, with its fields and the calls its transports make
 back into it. Each method is proved equal to a step of SerialSession, so the
 order and lifecycle results there are results about these bodies.
 */
module SessionSocket {
  import E = EnginePayload
  import P = PollingTransport
  import S = SessionSystem
  import Z = SerialSession

  type Packet = E.Packet

  class Socket {
    const polling: P.Transport
    var ready: S.Ready
    var onWebsocket: bool
    var severed: bool
    var upgrading: bool
    var upgraded: bool
    var sending: bool
    var writeBuffer: seq<Packet>
    ghost var accepted: seq<Packet>
    ghost var wire: seq<Packet>
    ghost var dropped: seq<Packet>
    ghost var probing: nat
    ghost var givenUp: bool
    ghost var farewells: nat

    ghost function View(): Z.State
      reads this, polling
    {
      Z.State(ready, onWebsocket, severed, upgrading, upgraded, writeBuffer, polling.View(),
              accepted, wire, dropped, probing, givenUp, farewells)
    }

    /** Creates an open session that has accepted its handshake packet and sent it if it can. */
    constructor (open: Packet, websocket: bool)
      ensures View() == Z.Initial(open, websocket) && !sending && fresh(polling)
    {
      polling := new P.Transport();
      ready, onWebsocket, severed, upgrading, upgraded, sending := S.Open, websocket, false, false, false, false;
      writeBuffer, accepted, wire, dropped, probing, givenUp, farewells := [open], [open], [], [], 0, false, 0;
      new;
      if onWebsocket || polling.writable {
        Flush();
      }
    }

    /** Tears the session down; the close event this provokes finds it already closed. */
    method CloseWithReason()
      modifies this, polling
      ensures View() == Z.CloseWithReason(old(View())) && sending == old(sending)
      decreases if ready == S.Closed then 0 else 1, 0
    {
      if ready == S.Closed {
        return;
      }
      ready := S.Closed;
      if !onWebsocket {
        polling.Discard();
        var what := polling.Close();
        if what == P.Report {
          NotifyClose();
        }
      } else {
        severed := true;
      }
      farewells := farewells + 1;
    }

    /** An error or close event from the polling transport. */
    method OnPollingEvent()
      modifies this, polling
      ensures View() == Z.PollingEvent(old(View())) && sending == old(sending)
      decreases if ready == S.Closed then 0 else 1, 1
    {
      var active := !onWebsocket;
      if !active || upgrading {
        return;
      }
      CloseWithReason();
    }

    /** Closes the polling transport for good; the first caller tells the session. */
    method NotifyClose()
      modifies this, polling
      ensures View() == Z.ReportClosed(old(View())) && sending == old(sending)
      decreases if ready == S.Closed then 0 else 1, 2
    {
      var first := polling.CloseNow();
      if first {
        OnPollingEvent();
      }
    }

    method SendOnPolling(packets: seq<Packet>)
      modifies this, polling
      ensures View() == Z.PollingSend(old(View()), packets) && sending == old(sending)
    {
      ghost var before := polling.View();
      var thenReport := polling.Send(packets);
      if before.closed {
        dropped := dropped + packets;
      } else if P.Answers(before) {
        wire := wire + P.Outgoing(before, packets);
      }
      if thenReport {
        NotifyClose();
      }
    }

    /** A failed write is an error of the active transport, which ends the session. */
    method SendOnWebsocket(packets: seq<Packet>)
      modifies this, polling
      ensures View() == Z.WebsocketSend(old(View()), packets) && sending == old(sending)
    {
      if severed {
        dropped := dropped + packets;
        CloseWithReason();
      } else {
        wire := wire + packets;
      }
    }

    /** A flush called from inside another does nothing. */
    method Flush()
      modifies this, polling
      ensures sending == old(sending)
      ensures View() == if old(sending) then old(View()) else Z.Flush(old(View()))
    {
      if ready == S.Closed || sending || upgrading {
        return;
      }
      if |writeBuffer| == 0 || !(onWebsocket || polling.writable) {
        return;
      }
      var buf := writeBuffer;
      writeBuffer, sending := [], true;
      if onWebsocket {
        SendOnWebsocket(buf);
      } else {
        SendOnPolling(buf);
      }
      sending := false;
      // nothing was added meanwhile, so there is nothing to flush again
      assert |writeBuffer| == 0;
    }

    method SendPacket(p: Packet)
      requires !sending
      modifies this, polling
      ensures View() == Z.SendPacket(old(View()), p) && !sending
    {
      if ready != S.Open {
        return;
      }
      writeBuffer := writeBuffer + [p];
      accepted := accepted + [p];
      if onWebsocket || polling.writable {
        Flush();
      }
    }

    /** A poll up to the point where its handler waits for the answer. */
    method OnPollRequest(r: nat)
      requires !sending
      modifies this, polling
      ensures View() == Z.PollRequest(old(View()), r) && !sending
    {
      var ok, buffered := polling.OnPollRequest(r);
      if !ok {
        OnPollingEvent();
        return;
      }
      Flush();
      if |buffered| > 0 {
        SendOnPolling(buffered);
        return;
      }
      if polling.pendingClose && !polling.closed {
        SendOnPolling([P.NOOP]);
      }
    }

    method OnPollAborted(r: nat)
      modifies this, polling
      ensures View() == Z.PollAborted(old(View()), r) && sending == old(sending)
    {
      var pending := polling.OnPollAborted(r);
      if pending {
        OnPollingEvent();
      }
    }

    method NoopTick()
      modifies this, polling
      ensures View() == Z.NoopTick(old(View())) && sending == old(sending)
    {
      if !upgraded && !onWebsocket && polling.writable {
        SendOnPolling([P.NOOP]);
      }
    }

    /** Reports whether the candidate transport is taken on; otherwise the caller closes it. */
    method MaybeUpgrade() returns (taken: bool)
      modifies this
      ensures View() == Z.MaybeUpgrade(old(View())) && sending == old(sending)
      ensures taken <==> !old(upgrading) && !old(upgraded) && old(ready) == S.Open
    {
      if upgrading || upgraded || ready != S.Open {
        return false;
      }
      upgrading := true;
      probing := probing + 1;
      return true;
    }

    /** Re-queues what the replaced polling transport still held, ahead of the rest, and closes it. */
    method RetirePolling()
      requires onWebsocket
      modifies this, polling
      ensures sending == old(sending)
      ensures var s := old(View());
              View() == s.(writeBuffer := s.polling.sendBuffer + s.writeBuffer,
                           polling := P.CloseLocked(s.polling.(sendBuffer := [], discarded := true)))
    {
      var drained := polling.DrainBuffered();
      if |drained| > 0 {
        writeBuffer := drained + writeBuffer;
      } else {
        assert drained + writeBuffer == writeBuffer;
      }
      DiscardPolling();
    }

    method DiscardPolling()
      requires onWebsocket
      modifies this, polling
      ensures sending == old(sending)
      ensures var s := old(View()); View() == s.(polling := P.CloseLocked(s.polling.(discarded := true)))
    {
      polling.Discard();
      var what := polling.Close();
      if what == P.Report {
        NotifyClose();
      }
    }

    method OnUpgrade()
      requires !sending
      modifies this, polling
      ensures View() == Z.CompleteUpgrade(old(View())) && !sending
    {
      probing := if probing == 0 then 0 else probing - 1;
      if ready == S.Closed {
        return;
      }
      var wasPolling := !onWebsocket;
      upgrading, upgraded, onWebsocket, severed := false, true, true, false;
      if wasPolling {
        RetirePolling();
      }
      ghost var switched := View();
      assert switched == Z.Switched(old(View()));
      Flush();
      assert View() == Z.Flush(switched);
    }

    method OnAbort(ghost again: bool)
      requires !sending
      modifies this, polling
      ensures View() == Z.AbortUpgrade(old(View()), again) && !sending
    {
      probing := if again || probing == 0 then probing else probing - 1;
      givenUp := true;
      upgrading := false;
      assert View() == Z.GivenUp(old(View()), again);
      Flush();
    }

    method CloseTransport()
      modifies this, polling
      ensures View() == Z.CloseTransport(old(View())) && sending == old(sending)
    {
      if onWebsocket {
        severed := true;
        if !upgrading {
          CloseWithReason();
        }
        return;
      }
      var what := polling.Close();
      match what
      case Nothing =>
      case Report =>
        NotifyClose();
      case SendAndReport =>
        SendOnPolling([P.CLOSE]);
        NotifyClose();
    }

    method Close()
      requires !sending
      modifies this, polling
      ensures View() == Z.Close(old(View())) && !sending
    {
      if ready != S.Open {
        return;
      }
      ready := S.Closing;
      Flush();
      CloseTransport();
    }
  }
}

/**
 Whether an orderly close comes to its end. A closing session waits for its
 transport to be closed and for the event of that to be heard; two actions can
 break the chain, and nothing else does.
 */
module SessionClosing {
  import opened Octets
  import opened SessionSystem
  import opened SessionInvariants
  import opened SessionTheorems
  import P = PollingTransport

  // ---------- websockets in use ----------

  /** Websockets used before, or to be closed. */
  function Spent(s: Session): set<nat> {
    s.calls.rebinding + s.calls.ends.cuts
  }

  /**
   Websockets the session has used are settled. An open session's active one is
   alive, unless the upgrade timer closed it as it was confirmed; then its event is
   to be heard or was.
   */
  predicate Known(s: Session) {
    && Placed(s)
    && (s.ready == Open && s.active in s.severed ==>
          s.upgraded && (s.calls.kills > 0 || s.active in s.calls.ends.events))
  }

  predicate Placed(s: Session) {
    && (forall t :: t in Spent(s) ==> t in s.candidates && s.candidates[t] == Settled)
    && (s.active != 0 ==> s.active in s.candidates && s.candidates[s.active] == Settled)
    && s.active !in s.calls.rebinding
    && (s.ready == Open ==> s.calls.ends.cuts == {})
  }

  predicate SameWebsockets(s: Session, t: Session) {
    && t.severed == s.severed && t.calls.rebinding == s.calls.rebinding && t.calls.ends.cuts == s.calls.ends.cuts
    && t.candidates == s.candidates && t.active == s.active && t.ready == s.ready && t.upgraded == s.upgraded
    && t.calls.kills == s.calls.kills && (s.active in s.calls.ends.events ==> s.active in t.calls.ends.events)
  }

  lemma SameIsKnown(s: Session, t: Session)
    requires Known(s) && SameWebsockets(s, t)
    ensures Known(t)
  {
    assert Spent(t) == Spent(s);
  }

  lemma SendToKeepsWebsockets(s: Session, t: nat, pkts: seq<Packet>)
    ensures SameWebsockets(s, SendTo(s, t, pkts))
  {
  }

  lemma FlushKeepsWebsockets(s: Session, a: SendStep)
    requires CanSend(s, a) && (a.FlushCall? || a.FlushSend? || a.FlushFinish?)
    ensures SameWebsockets(s, NextSend(s, a))
  {
    if a.FlushSend? {
      var f := s.books.flight.value;
      SendToKeepsWebsockets(s.(books := s.books.(flight := Some(f.(sent := true)))), f.target, f.batch);
    }
  }

  lemma SendKeepsWebsockets(s: Session, a: SendStep)
    requires CanSend(s, a)
    ensures SameWebsockets(s, NextSend(s, a))
  {
    if a.FlushCall? || a.FlushSend? || a.FlushFinish? {
      FlushKeepsWebsockets(s, a);
    } else if a.Noop? {
      SendToKeepsWebsockets(s, a.t, [P.NOOP]);
    }
  }

  lemma PollKeepsWebsockets(s: Session, a: PollStep)
    requires CanPoll(s, a)
    ensures SameWebsockets(s, NextPoll(s, a))
  {
    if a.Resend? {
      SendToKeepsWebsockets(s.(books := s.books.(held := Without(s.books.held, a.i))), 0, s.books.held[a.i]);
    }
  }

  predicate ClosesWebsocket(a: CloseStep) {
    a.Close? || a.ShutTransport? || a.Cut? || a.Kill? || a.End? || a.Hear?
  }

  lemma OthersKeepWebsockets(s: Session, a: CloseStep)
    requires CanShut(s, a) && !ClosesWebsocket(a)
    ensures SameWebsockets(s, NextShut(s, a))
  {
    if a.SendClose? {
      SendToKeepsWebsockets(s, 0, [P.CLOSE]);
    }
  }

  lemma UpgradeKeepsKnown(s: Session, a: UpgradeStep)
    requires Inv(s) && Known(s) && CanUpgrade(s, a)
    ensures Known(NextUpgrade(s, a))
  {
  }

  lemma EndKeepsKnown(s: Session)
    requires Placed(s)
    ensures Known(DoEnd(s))
  {
  }

  lemma CutKeepsKnown(s: Session, t: nat)
    requires Known(s) && t in s.calls.ends.cuts
    ensures Known(DoCut(s, t))
  {
    assert Spent(DoCut(s, t)) <= Spent(s);
  }

  lemma CloseKeepsKnown(s: Session, a: CloseStep)
    requires Inv(s) && Known(s) && CanShut(s, a) && ClosesWebsocket(a)
    ensures Known(NextShut(s, a))
  {
    match a
    case Cut(t) => CutKeepsKnown(s, t);
    case Kill => EndKeepsKnown(s.(calls := s.calls.(kills := s.calls.kills - 1)));
    case End => EndKeepsKnown(s);
    case _ =>
  }

  lemma StepKeepsKnown(s: Session, a: Action)
    requires Inv(s) && Known(s) && Enabled(s, a)
    ensures Known(Next(s, a))
  {
    match a
    case Sending(x) =>
      SendKeepsWebsockets(s, x);
      SameIsKnown(s, Next(s, a));
    case Polling(x) =>
      PollKeepsWebsockets(s, x);
      SameIsKnown(s, Next(s, a));
    case Upgrading(x) => UpgradeKeepsKnown(s, x);
    case Shutting(x) =>
      if ClosesWebsocket(x) {
        CloseKeepsKnown(s, x);
      } else {
        OthersKeepWebsockets(s, x);
        SameIsKnown(s, Next(s, a));
      }
  }

  // ---------- the chain ----------

  /** The active transport is still alive and some call, or the close timer, is on the way to closing it. */
  predicate CloseIsComing(s: Session) {
    && !Dead(s, s.active)
    && (|| s.calls.ends.shuts > 0
        || (if s.active == 0 then
              s.calls.ends.closes > 0 || s.calls.ends.closeSends > 0 || s.calls.ends.reports > 0 || s.polling.timer
            else s.active in s.calls.ends.cuts))
  }

  /** The session is about to be ended, or an event that may do it is waiting to be heard, or one is to come. */
  predicate EndIsComing(s: Session) {
    s.ready == Closing ==> s.calls.kills > 0 || s.active in s.calls.ends.events || CloseIsComing(s)
  }

  /** Hearing the last event of the active transport during an upgrade, with nothing else to come. */
  predicate Deaf(s: Session, a: Action) {
    && a == Shutting(Hear(s.active)) && s.ready == Closing && s.upgrading
    && s.calls.kills == 0 && s.calls.ends.events[s.active] == 1 && !CloseIsComing(s)
  }

  /** Switching to a websocket after the close was passed on to the transport it replaces. */
  predicate Escapes(s: Session, a: Action) {
    match a
    case Upgrading(Switch(k)) =>
      && s.ready == Closing && s.calls.kills == 0 && s.calls.ends.shuts == 0
      && k !in s.calls.ends.events && k !in s.severed
    case _ => false
  }

  predicate Stalls(s: Session, a: Action) {
    Deaf(s, a) || Escapes(s, a)
  }

  lemma SendKeepsEnd(s: Session, a: SendStep)
    requires EndIsComing(s) && CanSend(s, a)
    ensures EndIsComing(NextSend(s, a))
  {
    match a
    case FlushSend =>
      var f := s.books.flight.value;
      SendToKeepsEnd(s.(books := s.books.(flight := Some(f.(sent := true)))), f.target, f.batch);
    case Noop(t) => SendToKeepsEnd(s, t, [P.NOOP]);
    case _ =>
  }

  lemma SendToKeepsEnd(s: Session, t: nat, pkts: seq<Packet>)
    requires EndIsComing(s)
    ensures EndIsComing(SendTo(s, t, pkts))
  {
  }

  lemma PollKeepsEnd(s: Session, a: PollStep)
    requires EndIsComing(s) && CanPoll(s, a)
    ensures EndIsComing(NextPoll(s, a))
  {
  }

  lemma UpgradeKeepsEnd(s: Session, a: UpgradeStep)
    requires Inv(s) && Known(s) && EndIsComing(s) && CanUpgrade(s, a)
    ensures EndIsComing(NextUpgrade(s, a)) <==> !Escapes(s, Upgrading(a))
  {
  }

  lemma HearKeepsEnd(s: Session, t: nat)
    requires EndIsComing(s) && t in s.calls.ends.events
    ensures EndIsComing(DoHear(s, t)) <==> !Deaf(s, Shutting(Hear(t)))
  {
  }

  lemma PollingCloseKeepsEnd(s: Session, a: CloseStep)
    requires EndIsComing(s) && CanShut(s, a)
    requires a.Discard? || a.ClosePolling? || a.SendClose? || a.Report? || a.TimerFires?
    ensures EndIsComing(NextShut(s, a))
  {
  }

  lemma CloseKeepsEnd(s: Session, a: CloseStep)
    requires Inv(s) && Known(s) && EndIsComing(s) && CanShut(s, a)
    ensures EndIsComing(NextShut(s, a)) <==> !Deaf(s, Shutting(a))
  {
    match a
    case Hear(t) => HearKeepsEnd(s, t);
    case Discard => PollingCloseKeepsEnd(s, a);
    case ClosePolling => PollingCloseKeepsEnd(s, a);
    case SendClose => PollingCloseKeepsEnd(s, a);
    case Report => PollingCloseKeepsEnd(s, a);
    case TimerFires => PollingCloseKeepsEnd(s, a);
    case _ =>
  }

  lemma StepKeepsEnd(s: Session, a: Action)
    requires Inv(s) && Known(s) && EndIsComing(s) && Enabled(s, a)
    ensures EndIsComing(Next(s, a)) <==> !Stalls(s, a)
  {
    match a
    case Sending(x) => SendKeepsEnd(s, x);
    case Polling(x) => PollKeepsEnd(s, x);
    case Upgrading(x) => UpgradeKeepsEnd(s, x);
    case Shutting(x) => CloseKeepsEnd(s, x);
  }

  // ---------- over runs ----------

  ghost predicate EndIsComingThroughout(s: Session, run: seq<Action>)
    requires Legal(s, run)
    decreases |run|
  {
    EndIsComing(s) && (run == [] || EndIsComingThroughout(Next(s, run[0]), run[1..]))
  }

  ghost predicate NeverStalls(s: Session, run: seq<Action>)
    requires Legal(s, run)
    decreases |run|
  {
    run == [] || (!Stalls(s, run[0]) && NeverStalls(Next(s, run[0]), run[1..]))
  }

  lemma {:induction false} ChainHoldsIffNeverStalls(s: Session, run: seq<Action>)
    requires Inv(s) && Known(s) && EndIsComing(s) && Legal(s, run)
    ensures EndIsComingThroughout(s, run) <==> NeverStalls(s, run)
    ensures NeverStalls(s, run) ==> EndIsComing(After(s, run))
    decreases |run|
  {
    if run != [] {
      StepKeepsInv(s, run[0]);
      StepKeepsKnown(s, run[0]);
      StepKeepsEnd(s, run[0]);
      if !Stalls(s, run[0]) {
        ChainHoldsIffNeverStalls(Next(s, run[0]), run[1..]);
      } else {
        assert !EndIsComingThroughout(Next(s, run[0]), run[1..]);
      }
    }
  }

  lemma BeginningIsKnown(start: Session)
    requires Begins(start)
    ensures Inv(start) && Known(start) && EndIsComing(start)
  {
  }

  /**
   A closing session always has its end coming if and only if no event of its
   transport is heard in vain during an upgrade and no switch leaves the close
   behind.
   */
  lemma CloseEndsIffNeverStalls(start: Session, run: seq<Action>)
    requires Begins(start) && Legal(start, run)
    ensures EndIsComingThroughout(start, run) <==> NeverStalls(start, run)
  {
    BeginningIsKnown(start);
    ChainHoldsIffNeverStalls(start, run);
  }

  /** Then, once every call has returned, every event was heard and no timer is set, no session is left closing. */
  lemma QuietSessionsAreNotClosing(start: Session, run: seq<Action>)
    requires Begins(start) && Legal(start, run) && NeverStalls(start, run)
    requires var t := After(start, run); t.calls == IDLE.(notified := t.calls.notified) && !t.polling.timer
    ensures After(start, run).ready != Closing
  {
    BeginningIsKnown(start);
    ChainHoldsIffNeverStalls(start, run);
  }

  // ---------- a condition on the callers ----------

  /** Close is called only outside an upgrade. */
  predicate TimelyClose(s: Session, a: Action) {
    a == Shutting(Close) && s.ready == Open ==> !s.upgrading
  }

  ghost predicate TimelyCloses(s: Session, run: seq<Action>)
    requires Legal(s, run)
    decreases |run|
  {
    run == [] || (TimelyClose(s, run[0]) && TimelyCloses(Next(s, run[0]), run[1..]))
  }

  predicate ClosesOutsideUpgrade(s: Session) {
    s.ready == Closing ==> !s.upgrading
  }

  lemma StepStaysOutsideUpgrade(s: Session, a: Action)
    requires ClosesOutsideUpgrade(s) && Enabled(s, a) && TimelyClose(s, a)
    ensures ClosesOutsideUpgrade(Next(s, a))
  {
    match a
    case Sending(x) => SendKeepsUpgrade(s, x);
    case Polling(x) => PollKeepsUpgrade(s, x);
    case Upgrading(x) =>
    case Shutting(x) => CloseKeepsUpgrade(s, x);
    OnlyClosingChangesReady(s);
  }

  lemma {:induction false} TimelyRunsNeverStall(s: Session, run: seq<Action>)
    requires OneAttempt(s) && ClosesOutsideUpgrade(s)
    requires Legal(s, run) && OrderlyAborts(s, run) && TimelyCloses(s, run)
    ensures NeverStalls(s, run)
    decreases |run|
  {
    if run != [] {
      StepKeepsOneAttempt(s, run[0]);
      StepStaysOutsideUpgrade(s, run[0]);
      TimelyRunsNeverStall(Next(s, run[0]), run[1..]);
    }
  }

  /** With orderly aborts, and Close called only outside an upgrade, every orderly close comes to its end. */
  lemma TimelyCloseEnds(start: Session, run: seq<Action>)
    requires Begins(start) && Legal(start, run) && OrderlyAborts(start, run) && TimelyCloses(start, run)
    ensures NeverStalls(start, run) && EndIsComingThroughout(start, run)
  {
    TimelyRunsNeverStall(start, run);
    CloseEndsIffNeverStalls(start, run);
  }
}

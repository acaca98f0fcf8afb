/** What every interleaving of session actions keeps: where accepted packets are, and that none is forgotten. */
module SessionInvariants {
  import opened Octets
  import opened SessionSystem
  import E = EnginePayload
  import P = PollingTransport

  // ---------- the shape of a session ----------

  predicate Shape(s: Session) {
    && P.OnePoll(s.polling) && P.BufferIdle(s.polling)
    && (s.active == 0 <==> s.retirement.Serving?)
    && (s.upgraded ==> s.active != 0 && !s.upgrading)
    && (!s.retirement.Carrying? ==> s.books.carried == [])
  }

  /** Until the upgrade callback retires it, an open session's polling transport is untouched by any close. */
  predicate Intact(s: Session) {
    && (s.ready == Open ==> s.calls.ends.shuts == 0 && s.calls.ends.discards == 0)
    && (s.ready == Open && !s.retirement.Retired? ==>
          && !s.polling.closed && !s.polling.discarded && !s.polling.pendingClose && !s.polling.timer
          && s.calls.ends.closes == 0 && s.calls.ends.closeSends == 0 && s.calls.ends.reports == 0)
  }

  /** Once the callback has seen `sending` false, no flush in progress targets the polling transport. */
  predicate NoneForPolling(s: Session) {
    s.books.flight.Some? && s.books.flight.value.target == 0 ==> s.retirement.Serving? || s.retirement.Waiting?
  }

  predicate Inv(s: Session) {
    Shape(s) && Intact(s) && NoneForPolling(s)
  }

  lemma SendToKeepsInv(s: Session, t: nat, pkts: seq<Packet>)
    requires Inv(s)
    ensures Inv(SendTo(s, t, pkts))
  {
  }

  lemma SendKeepsInv(s: Session, a: SendStep)
    requires Inv(s) && CanSend(s, a)
    ensures Inv(NextSend(s, a))
  {
    match a
    case FlushSend =>
      var f := s.books.flight.value;
      SendToKeepsInv(s.(books := s.books.(flight := Some(f.(sent := true)))), f.target, f.batch);
    case Noop(t) => SendToKeepsInv(s, t, [P.NOOP]);
    case _ =>
  }

  lemma PollKeepsInv(s: Session, a: PollStep)
    requires Inv(s) && CanPoll(s, a)
    ensures Inv(NextPoll(s, a))
  {
    if a.Resend? {
      SendToKeepsInv(s.(books := s.books.(held := Without(s.books.held, a.i))), 0, s.books.held[a.i]);
    }
  }

  lemma UpgradeKeepsInv(s: Session, a: UpgradeStep)
    requires Inv(s) && CanUpgrade(s, a)
    ensures Inv(NextUpgrade(s, a))
  {
  }

  lemma CloseKeepsInv(s: Session, a: CloseStep)
    requires Inv(s) && CanShut(s, a)
    ensures Inv(NextShut(s, a))
  {
    if a.SendClose? {
      SendToKeepsInv(s, 0, [P.CLOSE]);
    }
  }

  lemma StepKeepsInv(s: Session, a: Action)
    requires Inv(s) && Enabled(s, a)
    ensures Inv(Next(s, a))
  {
    match a
    case Sending(x) => SendKeepsInv(s, x);
    case Polling(x) => PollKeepsInv(s, x);
    case Upgrading(x) => UpgradeKeepsInv(s, x);
    case Shutting(x) => CloseKeepsInv(s, x);
  }

  lemma {:induction false} InvAlways(s: Session, run: seq<Action>)
    requires Inv(s) && Legal(s, run)
    ensures Inv(After(s, run))
    decreases |run|
  {
    if run != [] {
      StepKeepsInv(s, run[0]);
      InvAlways(Next(s, run[0]), run[1..]);
    }
  }

  // ---------- weighing packets ----------

  /**
   A way of weighing packets: batches weigh what their packets weigh, and what the
   transports add of their own weighs nothing. Counting the copies of one packet is
   the weight the results below are read with.
   */
  type Weight = seq<Packet> -> nat

  ghost predicate Additive(w: Weight) {
    && w([]) == 0 && w([P.NOOP]) == 0 && w([P.CLOSE]) == 0
    && forall a: seq<Packet>, b: seq<Packet> {:trigger w(a + b)} :: w(a + b) == w(a) + w(b)
  }

  function HeldWeight(held: seq<seq<Packet>>, w: Weight): (n: nat)
  {
    if held == [] then 0 else w(held[0]) + HeldWeight(held[1..], w)
  }

  lemma {:induction false} HeldConcat(a: seq<seq<Packet>>, b: seq<seq<Packet>>, w: Weight)
    ensures HeldWeight(a + b, w) == HeldWeight(a, w) + HeldWeight(b, w)
  {
    if a == [] {
      assert a + b == b;
    } else {
      HeldConcat(a[1..], b, w);
      assert (a + b)[1..] == a[1..] + b;
    }
  }

  lemma HeldWithout(held: seq<seq<Packet>>, i: nat, w: Weight)
    requires i < |held|
    ensures HeldWeight(held, w) == HeldWeight(Without(held, i), w) + w(held[i])
  {
    HeldConcat(held[..i], held[i..], w);
    HeldConcat(held[..i], held[i + 1..], w);
    assert held == held[..i] + held[i..];
    assert held[i..][1..] == held[i + 1..];
  }

  lemma HeldSnoc(held: seq<seq<Packet>>, batch: seq<Packet>, w: Weight)
    ensures HeldWeight(held + [batch], w) == HeldWeight(held, w) + w(batch)
  {
    HeldConcat(held, [batch], w);
    assert [batch][1..] == [];
  }

  // ---------- the ledger ----------

  function InFlight(b: Books, w: Weight): (n: nat) {
    if b.flight.Some? && !b.flight.value.sent then w(b.flight.value.batch) else 0
  }

  /** What the session can still deliver. */
  function OnHand(b: Books, buffer: seq<Packet>, w: Weight): (n: nat) {
    w(b.writeBuffer) + InFlight(b, w) + w(buffer) + HeldWeight(b.held, w) + w(b.carried)
  }

  /** Everything accepted is delivered, on hand, or recorded as lost. */
  predicate Balanced(s: Session, w: Weight) {
    w(s.books.accepted) == w(s.books.delivered) + OnHand(s.books, s.polling.sendBuffer, w) + w(s.books.lost)
  }

  /** A batch handed to a transport ends up delivered, in the polling buffer, or lost. */
  lemma SendToBalance(s: Session, t: nat, pkts: seq<Packet>, w: Weight)
    requires Additive(w)
    ensures var u := SendTo(s, t, pkts);
            && u.books == s.books.(delivered := u.books.delivered, lost := u.books.lost)
            && w(u.books.delivered) + w(u.polling.sendBuffer) + w(u.books.lost)
            == w(s.books.delivered) + w(s.polling.sendBuffer) + w(s.books.lost) + w(pkts)
  {
    assert w(P.Outgoing(s.polling, pkts)) == w(pkts);
  }

  lemma FlushSendBalances(s: Session, w: Weight)
    requires Additive(w) && Balanced(s, w) && CanSend(s, FlushSend)
    ensures Balanced(DoFlushSend(s), w)
  {
    var f := s.books.flight.value;
    SendToBalance(s.(books := s.books.(flight := Some(f.(sent := true)))), f.target, f.batch, w);
    if |f.batch| > 1 {
      assert f.batch == [f.batch[0]] + f.batch[1..];
    }
  }

  lemma SendBalances(s: Session, a: SendStep, w: Weight)
    requires Additive(w) && Balanced(s, w) && CanSend(s, a)
    ensures Balanced(NextSend(s, a), w)
  {
    match a
    case FlushSend => FlushSendBalances(s, w);
    case Noop(t) => SendToBalance(s, t, [P.NOOP], w);
    case _ =>
  }

  lemma PollBalances(s: Session, a: PollStep, w: Weight)
    requires Additive(w) && Balanced(s, w) && CanPoll(s, a)
    ensures Balanced(NextPoll(s, a), w)
  {
    match a
    case PollArrives(r) => HeldSnoc(s.books.held, s.polling.sendBuffer, w);
    case Resend(i) =>
      HeldWithout(s.books.held, i, w);
      SendToBalance(s.(books := s.books.(held := Without(s.books.held, i))), 0, s.books.held[i], w);
    case _ =>
  }

  lemma UpgradeBalances(s: Session, a: UpgradeStep, w: Weight)
    requires Additive(w) && Balanced(s, w) && Shape(s) && CanUpgrade(s, a)
    ensures Balanced(NextUpgrade(s, a), w)
  {
  }

  lemma CloseBalances(s: Session, a: CloseStep, w: Weight)
    requires Additive(w) && Balanced(s, w) && CanShut(s, a)
    ensures Balanced(NextShut(s, a), w)
  {
    if a.SendClose? {
      SendToBalance(s, 0, [P.CLOSE], w);
    }
  }

  lemma StepBalances(s: Session, a: Action, w: Weight)
    requires Additive(w) && Balanced(s, w) && Inv(s) && Enabled(s, a)
    ensures Balanced(Next(s, a), w)
  {
    match a
    case Sending(x) => SendBalances(s, x, w);
    case Polling(x) => PollBalances(s, x, w);
    case Upgrading(x) => UpgradeBalances(s, x, w);
    case Shutting(x) => CloseBalances(s, x, w);
  }

  /** Whatever the interleaving, everything accepted stays accounted for. */
  lemma {:induction false} Conservation(s: Session, run: seq<Action>, w: Weight)
    requires Additive(w) && Balanced(s, w) && Inv(s) && Legal(s, run)
    ensures Balanced(After(s, run), w)
    decreases |run|
  {
    if run != [] {
      StepBalances(s, run[0], w);
      StepKeepsInv(s, run[0]);
      Conservation(Next(s, run[0]), run[1..], w);
    }
  }

  // ---------- the lifecycle ----------

  function Rank(r: Ready): nat {
    match r case Open => 0 case Closing => 1 case Closed => 2
  }

  lemma OnlyClosingChangesReady(s: Session)
    ensures forall a :: CanSend(s, a) ==> NextSend(s, a).ready == s.ready
    ensures forall a :: CanPoll(s, a) ==> NextPoll(s, a).ready == s.ready
    ensures forall a :: CanUpgrade(s, a) ==> NextUpgrade(s, a).ready == s.ready
  {
  }

  lemma ClosingMovesForward(s: Session, a: CloseStep)
    requires CanShut(s, a)
    ensures Rank(s.ready) <= Rank(NextShut(s, a).ready)
  {
  }

  lemma ReadyMovesForward(s: Session, a: Action)
    requires Enabled(s, a)
    ensures Rank(s.ready) <= Rank(Next(s, a).ready)
  {
    OnlyClosingChangesReady(s);
    if a.Shutting? {
      ClosingMovesForward(s, a.close);
    }
  }

  /** A session goes from open through closing to closed and never back. */
  lemma {:induction false} ReadyAlwaysForward(s: Session, run: seq<Action>)
    requires Legal(s, run)
    ensures Rank(s.ready) <= Rank(After(s, run).ready)
    decreases |run|
  {
    if run != [] {
      ReadyMovesForward(s, run[0]);
      ReadyAlwaysForward(Next(s, run[0]), run[1..]);
    }
  }

  // ---------- what is lost ----------

  /** A transport that drops whatever it is handed. */
  predicate Dead(s: Session, t: nat) {
    if t == 0 then s.polling.closed else t in s.severed
  }

  /** The weight of a batch taken for transport t and not yet handed over. */
  function FlightTo(s: Session, t: nat, w: Weight): (n: nat) {
    if s.books.flight.Some? && s.books.flight.value.target == t then InFlight(s.books, w) else 0
  }

  /** What is lost, or bound to be: a poll handler or a flush is about to hand it to a dead transport. */
  function Doomed(s: Session, w: Weight): (n: nat) {
    w(s.books.lost)
    + (if s.polling.closed then HeldWeight(s.books.held, w) else 0)
    + (if s.books.flight.Some? && Dead(s, s.books.flight.value.target) then InFlight(s.books, w) else 0)
  }

  /**
   What an action dooms. Closing the polling transport dooms what is in its
   buffer, with a poll handler or with a flush that took it for that transport;
   closing a websocket dooms what a flush took for it; and a flush that starts
   while the active transport is already closed dooms what it takes.
   */
  function Spill(s: Session, a: Action, w: Weight): (n: nat)
    requires Enabled(s, a)
  {
    match a
    case Shutting(Report) =>
      if s.polling.closed then 0 else w(s.polling.sendBuffer) + HeldWeight(s.books.held, w) + FlightTo(s, 0, w)
    case Shutting(Cut(t)) => if Dead(s, t) then 0 else FlightTo(s, t, w)
    case Upgrading(Rebound(t)) => if Dead(s, t) then 0 else FlightTo(s, t, w)
    case Upgrading(Expire(k)) => if Dead(s, k) then 0 else FlightTo(s, k, w)
    case Sending(FlushCall) => if CanTake(s) && Dead(s, s.active) then w(s.books.writeBuffer) else 0
    case _ => 0
  }

  /** Handing a batch over dooms it exactly when the transport is dead, and nothing else. */
  lemma SendToSpill(s: Session, t: nat, pkts: seq<Packet>, w: Weight)
    requires Additive(w)
    ensures Doomed(SendTo(s, t, pkts), w) == Doomed(s, w) + if Dead(s, t) then w(pkts) else 0
  {
  }

  lemma SendSpill(s: Session, a: SendStep, w: Weight)
    requires Additive(w) && Inv(s) && CanSend(s, a)
    ensures Doomed(NextSend(s, a), w) == Doomed(s, w) + Spill(s, Sending(a), w)
  {
    match a
    case FlushSend =>
      var f := s.books.flight.value;
      SendToSpill(s.(books := s.books.(flight := Some(f.(sent := true)))), f.target, f.batch, w);
    case Noop(t) => SendToSpill(s, t, [P.NOOP], w);
    case _ =>
  }

  lemma PollSpill(s: Session, a: PollStep, w: Weight)
    requires Additive(w) && Inv(s) && CanPoll(s, a)
    ensures Doomed(NextPoll(s, a), w) == Doomed(s, w)
  {
    match a
    case PollArrives(r) => HeldSnoc(s.books.held, s.polling.sendBuffer, w);
    case Resend(i) =>
      HeldWithout(s.books.held, i, w);
      SendToSpill(s.(books := s.books.(held := Without(s.books.held, i))), 0, s.books.held[i], w);
    case _ =>
  }

  lemma SeverSpill(s: Session, t: nat, w: Weight)
    requires t != 0
    ensures Doomed(DoSever(s, t), w) == Doomed(s, w) + if Dead(s, t) then 0 else FlightTo(s, t, w)
  {
  }

  lemma ReportSpill(s: Session, w: Weight)
    requires Additive(w) && s.calls.ends.reports > 0
    ensures Doomed(DoReport(s), w) == Doomed(s, w) + Spill(s, Shutting(Report), w)
  {
  }

  lemma UpgradeSpill(s: Session, a: UpgradeStep, w: Weight)
    requires Additive(w) && Inv(s) && CanUpgrade(s, a)
    ensures Doomed(NextUpgrade(s, a), w) == Doomed(s, w) + Spill(s, Upgrading(a), w)
  {
    match a
    case Rebound(t) => SeverSpill(s, t, w);
    case Expire(k) => SeverSpill(s, k, w);
    case _ =>
  }

  /** Other closing steps touch neither packets nor what is dead. */
  lemma OtherClosing(s: Session, a: CloseStep)
    requires CanShut(s, a) && !a.SendClose? && !a.Report? && !a.Cut?
    ensures var t := NextShut(s, a);
            t.books == s.books && t.severed == s.severed && t.polling.closed == s.polling.closed
  {
  }

  lemma CloseSpill(s: Session, a: CloseStep, w: Weight)
    requires Additive(w) && Inv(s) && CanShut(s, a)
    ensures Doomed(NextShut(s, a), w) == Doomed(s, w) + Spill(s, Shutting(a), w)
  {
    match a
    case SendClose => SendToSpill(s, 0, [P.CLOSE], w);
    case Report => ReportSpill(s, w);
    case Cut(t) => SeverSpill(s, t, w);
    case _ => OtherClosing(s, a);
  }

  lemma StepSpill(s: Session, a: Action, w: Weight)
    requires Additive(w) && Inv(s) && Enabled(s, a)
    ensures Doomed(Next(s, a), w) == Doomed(s, w) + Spill(s, a, w)
  {
    match a
    case Sending(x) => SendSpill(s, x, w);
    case Polling(x) => PollSpill(s, x, w);
    case Upgrading(x) => UpgradeSpill(s, x, w);
    case Shutting(x) => CloseSpill(s, x, w);
  }

  /** The total doomed along a run. */
  ghost function Spilled(s: Session, run: seq<Action>, w: Weight): (n: nat)
    requires Legal(s, run)
    decreases |run|
  {
    if run == [] then 0 else Spill(s, run[0], w) + Spilled(Next(s, run[0]), run[1..], w)
  }

  /** In any state of any run, what is lost or bound to be lost is exactly what the run spilled. */
  lemma {:induction false} LossIsWhatWasSpilled(s: Session, run: seq<Action>, w: Weight)
    requires Additive(w) && Inv(s) && Legal(s, run)
    ensures Doomed(After(s, run), w) == Doomed(s, w) + Spilled(s, run, w)
    decreases |run|
  {
    if run != [] {
      StepSpill(s, run[0], w);
      StepKeepsInv(s, run[0]);
      LossIsWhatWasSpilled(Next(s, run[0]), run[1..], w);
    }
  }

  /** No action of the run dooms anything. */
  ghost predicate NeverSpills(s: Session, run: seq<Action>, w: Weight)
    requires Legal(s, run)
    decreases |run|
  {
    run == [] || (Spill(s, run[0], w) == 0 && NeverSpills(Next(s, run[0]), run[1..], w))
  }

  lemma {:induction false} NothingSpilledMeansNever(s: Session, run: seq<Action>, w: Weight)
    requires Legal(s, run)
    ensures Spilled(s, run, w) == 0 <==> NeverSpills(s, run, w)
    decreases |run|
  {
    if run != [] {
      NothingSpilledMeansNever(Next(s, run[0]), run[1..], w);
    }
  }

  // ---------- counting copies ----------

  function CopiesOf(q: Packet): Weight {
    (batch: seq<Packet>) => multiset(batch)[q]
  }

  lemma CopiesAreAdditive(q: Packet)
    requires IsData(q)
    ensures Additive(CopiesOf(q))
  {
    var w := CopiesOf(q);
    forall a: seq<Packet>, b: seq<Packet>
      ensures w(a + b) == w(a) + w(b)
    {
    }
  }

  lemma BeginningIsSound(start: Session, w: Weight)
    requires Begins(start) && Additive(w)
    ensures Inv(start) && Balanced(start, w) && Doomed(start, w) == 0
  {
  }

  /**
   Conservation across upgrades and closes. In every state of every run each
   accepted copy of a packet has been delivered, or is in the write buffer, in the
   batch a flush has taken, in the polling buffer, with a poll handler or with the
   upgrade callback, or was lost; and what is lost or bound to be is exactly what
   the run spilled.
   */
  lemma ConservationAcrossUpgrade(start: Session, run: seq<Action>, q: Packet)
    requires IsData(q) && Begins(start) && Legal(start, run)
    ensures var w, t := CopiesOf(q), After(start, run);
            && w(t.books.accepted)
               == w(t.books.delivered) + OnHand(t.books, t.polling.sendBuffer, w) + w(t.books.lost)
            && Doomed(t, w) == Spilled(start, run, w)
  {
    var w := CopiesOf(q);
    CopiesAreAdditive(q);
    BeginningIsSound(start, w);
    Conservation(start, run, w);
    LossIsWhatWasSpilled(start, run, w);
  }

  /** Nothing is lost or bound to be, through upgrades and closes, if and only if no action of the run spills. */
  lemma NothingLostIffNothingSpilled(start: Session, run: seq<Action>, q: Packet)
    requires IsData(q) && Begins(start) && Legal(start, run)
    ensures Doomed(After(start, run), CopiesOf(q)) == 0 <==> NeverSpills(start, run, CopiesOf(q))
  {
    ConservationAcrossUpgrade(start, run, q);
    NothingSpilledMeansNever(start, run, CopiesOf(q));
  }
}

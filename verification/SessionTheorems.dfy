/**
 Consequences over whole runs of a session: how often it switches, when an upgrade
 loses nothing, that no packet is stranded, how a session ends and what can keep
 it from ending.
 */
module SessionTheorems {
  import opened Octets
  import opened SessionSystem
  import opened SessionInvariants
  import E = EnginePayload
  import P = PollingTransport

  // ---------- one switch per session ----------

  /** An abort callback of an attempt that is no longer probing must not run while a newer one probes. */
  predicate OrderlyAbort(s: Session, a: Action) {
    match a
    case Upgrading(AbortUpgrade(k)) =>
      k in s.candidates && s.candidates[k] != Probing ==>
        forall j :: j in s.candidates ==> s.candidates[j] != Probing
    case _ => true
  }

  ghost predicate OrderlyAborts(s: Session, run: seq<Action>)
    requires Legal(s, run)
    decreases |run|
  {
    run == [] || (OrderlyAbort(s, run[0]) && OrderlyAborts(Next(s, run[0]), run[1..]))
  }

  /** At most one attempt probes, only while the session says so, and only before the switch. */
  predicate OneAttempt(s: Session) {
    && (forall k :: k in s.candidates && s.candidates[k] == Probing ==> s.upgrading && !s.upgraded)
    && (forall j, k ::
          j in s.candidates && k in s.candidates && s.candidates[j] == s.candidates[k] == Probing ==> j == k)
    && s.switches == (if s.upgraded then 1 else 0)
  }

  /** The upgrade state, which only upgrade steps touch. */
  predicate SameUpgrade(s: Session, t: Session) {
    && t.candidates == s.candidates && t.upgrading == s.upgrading && t.upgraded == s.upgraded
    && t.switches == s.switches && t.active == s.active && t.retirement == s.retirement
  }

  lemma SendKeepsUpgrade(s: Session, a: SendStep)
    requires CanSend(s, a)
    ensures SameUpgrade(s, NextSend(s, a))
  {
  }

  lemma PollKeepsUpgrade(s: Session, a: PollStep)
    requires CanPoll(s, a)
    ensures SameUpgrade(s, NextPoll(s, a))
  {
  }

  lemma CloseKeepsUpgrade(s: Session, a: CloseStep)
    requires CanShut(s, a)
    ensures SameUpgrade(s, NextShut(s, a))
  {
  }

  /** An abort keeps the attempts in order if and only if it is orderly. */
  lemma AbortKeepsOneAttempt(s: Session, k: nat)
    requires OneAttempt(s) && CanUpgrade(s, AbortUpgrade(k))
    ensures OneAttempt(DoAbortUpgrade(s, k)) <==> OrderlyAbort(s, Upgrading(AbortUpgrade(k)))
  {
    var t := DoAbortUpgrade(s, k);
    assert forall j :: j in s.candidates && j != k ==> t.candidates[j] == s.candidates[j];
  }

  lemma UpgradeKeepsOneAttempt(s: Session, a: UpgradeStep)
    requires OneAttempt(s) && CanUpgrade(s, a) && !a.AbortUpgrade?
    ensures OneAttempt(NextUpgrade(s, a))
  {
  }

  lemma StepKeepsOneAttempt(s: Session, a: Action)
    requires OneAttempt(s) && Enabled(s, a)
    ensures OneAttempt(Next(s, a)) <==> OrderlyAbort(s, a)
  {
    match a
    case Sending(x) => SendKeepsUpgrade(s, x);
    case Polling(x) => PollKeepsUpgrade(s, x);
    case Upgrading(AbortUpgrade(k)) => AbortKeepsOneAttempt(s, k);
    case Upgrading(x) => UpgradeKeepsOneAttempt(s, x);
    case Shutting(x) => CloseKeepsUpgrade(s, x);
  }

  /** One attempt at a time, at every moment of the run. */
  ghost predicate OneAttemptThroughout(s: Session, run: seq<Action>)
    requires Legal(s, run)
    decreases |run|
  {
    OneAttempt(s) && (run == [] || OneAttemptThroughout(Next(s, run[0]), run[1..]))
  }

  /** Attempts stay one at a time if and only if aborts are orderly, and then the session switches at most once. */
  lemma {:induction false} SwitchesAtMostOnce(s: Session, run: seq<Action>)
    requires OneAttempt(s) && Legal(s, run)
    ensures OneAttemptThroughout(s, run) <==> OrderlyAborts(s, run)
    ensures OrderlyAborts(s, run) ==> OneAttempt(After(s, run)) && After(s, run).switches <= 1
    decreases |run|
  {
    if run != [] {
      StepKeepsOneAttempt(s, run[0]);
      if OrderlyAbort(s, run[0]) {
        SwitchesAtMostOnce(Next(s, run[0]), run[1..]);
      } else {
        assert !OneAttemptThroughout(Next(s, run[0]), run[1..]);
      }
    }
  }

  /**
   Any disorderly abort allows a second switch: attempt k is given up once more
   while j probes, so n starts beside j and both succeed.
   */
  lemma DisorderlyAbortAllowsTwoSwitches(s: Session, k: nat, j: nat, n: nat) returns (run: seq<Action>, t: Session)
    requires OneAttempt(s) && s.ready == Open
    requires CanUpgrade(s, AbortUpgrade(k)) && s.candidates[k] != Probing && CanUpgrade(s, Switch(j))
    requires CanUpgrade(s, MaybeUpgrade(n))
    ensures run == [Upgrading(AbortUpgrade(k)), Upgrading(MaybeUpgrade(n)), Upgrading(Switch(j)), Upgrading(Switch(n))]
    ensures Leads(s, run, t) && t.ready == Open && t.switches == 2 && t.active == n
  {
    run, t := Go(s, [], s, Upgrading(AbortUpgrade(k)));
    run, t := Go(s, run, t, Upgrading(MaybeUpgrade(n)));
    assert t.switches == 0 && t.candidates[j] == t.candidates[n] == Probing;
    run, t := Go(s, run, t, Upgrading(Switch(j)));
    run, t := Go(s, run, t, Upgrading(Switch(n)));
  }

  // ---------- when the upgrade loses nothing ----------

  /** A session begun on polling and switched at most once has replaced no websocket, nor closed one while open. */
  predicate Uncut(s: Session) {
    && (s.active != 0 ==> s.upgraded)
    && s.calls.rebinding == {}
    && (s.ready == Open ==> s.calls.ends.cuts == {})
    && (s.books.flight.Some? ==> s.books.flight.value.target == 0 || s.books.flight.value.target == s.active)
  }

  lemma SendKeepsUncut(s: Session, a: SendStep)
    requires Uncut(s) && CanSend(s, a)
    ensures Uncut(NextSend(s, a))
  {
  }

  lemma PollKeepsUncut(s: Session, a: PollStep)
    requires Uncut(s) && CanPoll(s, a)
    ensures Uncut(NextPoll(s, a))
  {
  }

  lemma UpgradeKeepsUncut(s: Session, a: UpgradeStep)
    requires Inv(s) && Uncut(s) && OneAttempt(s) && CanUpgrade(s, a)
    ensures Uncut(NextUpgrade(s, a))
  {
    if a.Switch? {
      assert s.candidates[a.k] == Probing;
    }
  }

  lemma CloseKeepsUncut(s: Session, a: CloseStep)
    requires Inv(s) && Uncut(s) && CanShut(s, a)
    ensures Uncut(NextShut(s, a))
  {
  }

  lemma StepKeepsUncut(s: Session, a: Action)
    requires Inv(s) && Uncut(s) && OneAttempt(s) && Enabled(s, a)
    ensures Uncut(Next(s, a))
  {
    match a
    case Sending(x) => SendKeepsUncut(s, x);
    case Polling(x) => PollKeepsUncut(s, x);
    case Upgrading(x) => UpgradeKeepsUncut(s, x);
    case Shutting(x) => CloseKeepsUncut(s, x);
  }

  /**
   When the polling transport is closed, neither its buffer nor a poll handler holds
   anything of weight; and no flush takes anything for a candidate that the upgrade
   timer had closed before it became active.
   */
  predicate Clean(s: Session, a: Action, w: Weight) {
    && (a == Shutting(Report) && !s.polling.closed ==>
          w(s.polling.sendBuffer) + HeldWeight(s.books.held, w) == 0)
    && (a == Sending(FlushCall) && CanTake(s) && Dead(s, s.active) ==> w(s.books.writeBuffer) == 0)
  }

  ghost predicate CleanThroughout(s: Session, run: seq<Action>, w: Weight)
    requires Legal(s, run)
    decreases |run|
  {
    run == [] || (Clean(s, run[0], w) && CleanThroughout(Next(s, run[0]), run[1..], w))
  }

  /** In such an open session nothing else can lose anything. */
  lemma OnlyTheseSpill(s: Session, a: Action, w: Weight)
    requires Inv(s) && Uncut(s) && OneAttempt(s) && s.ready == Open && Enabled(s, a)
    ensures Spill(s, a, w) == 0 <==> Clean(s, a, w)
  {
    match a
    case Upgrading(Expire(k)) => assert s.candidates[k] == Probing;
    case _ =>
  }

  lemma {:induction false} OpenRunsSpillThere(s: Session, run: seq<Action>, w: Weight)
    requires Inv(s) && Uncut(s) && OneAttempt(s) && Legal(s, run) && OrderlyAborts(s, run)
    requires After(s, run).ready == Open
    ensures NeverSpills(s, run, w) <==> CleanThroughout(s, run, w)
    decreases |run|
  {
    if run != [] {
      ReadyAlwaysForward(s, run);
      OnlyTheseSpill(s, run[0], w);
      StepKeepsInv(s, run[0]);
      StepKeepsUncut(s, run[0]);
      StepKeepsOneAttempt(s, run[0]);
      OpenRunsSpillThere(Next(s, run[0]), run[1..], w);
    }
  }

  /**
   An open session that started on polling, with orderly aborts, has lost nothing
   and is bound to lose nothing if and only if its polling transport was closed
   while neither its buffer nor a poll handler held a packet, and no packet was
   taken for a candidate the upgrade timer had already closed.
   */
  lemma UpgradeLosesNothing(open: Packet, run: seq<Action>, q: Packet)
    requires IsData(q) && Legal(Initial(open), run) && OrderlyAborts(Initial(open), run)
    requires After(Initial(open), run).ready == Open
    ensures Doomed(After(Initial(open), run), CopiesOf(q)) == 0
            <==> CleanThroughout(Initial(open), run, CopiesOf(q))
  {
    var w := CopiesOf(q);
    CopiesAreAdditive(q);
    BeginningIsSound(Initial(open), w);
    NothingLostIffNothingSpilled(Initial(open), run, q);
    OpenRunsSpillThere(Initial(open), run, w);
  }

  // ---------- no lost wake-up ----------

  predicate RetirementUnderWay(s: Session) {
    s.retirement.Waiting? || s.retirement.Waited? || s.retirement.Carrying? || s.retirement.Requeued?
  }

  /** A flush is running, or some call in progress is going to start one. */
  predicate FlushIsComing(s: Session) {
    || s.books.flight.Some?
    || s.calls.flushes > 0
    || s.active in s.calls.checks
    || RetirementUnderWay(s)
    || s.calls.rebinding != {}
  }

  predicate Awake(s: Session) {
    s.ready != Closed && !s.upgrading && s.books.writeBuffer != [] && Writable(s, s.active) ==> FlushIsComing(s)
  }

  /** After a flush has taken a batch or sent of it, it is still running. */
  lemma FlushKeepsAwake(s: Session, a: SendStep)
    requires Awake(s) && CanSend(s, a) && (a.FlushCall? || a.FlushSend?)
    ensures Awake(NextSend(s, a))
  {
    if a.FlushSend? {
      assert DoFlushSend(s).books.flight.Some?;
    }
  }

  lemma CheckKeepsAwake(s: Session, t: nat)
    requires Awake(s) && t in s.calls.checks
    ensures Awake(DoCheck(s, t))
  {
    assert s.active != t && s.active in s.calls.checks ==> s.active in s.calls.checks - multiset{t};
  }

  lemma SendKeepsAwake(s: Session, a: SendStep)
    requires Shape(s) && Awake(s) && CanSend(s, a)
    ensures Awake(NextSend(s, a))
  {
    if a.FlushCall? || a.FlushSend? {
      FlushKeepsAwake(s, a);
    } else if a.Check? {
      CheckKeepsAwake(s, a.t);
    }
  }

  lemma PollKeepsAwake(s: Session, a: PollStep)
    requires Shape(s) && Awake(s) && CanPoll(s, a)
    ensures Awake(NextPoll(s, a))
  {
  }

  lemma UpgradeKeepsAwake(s: Session, a: UpgradeStep)
    requires Shape(s) && Awake(s) && CanUpgrade(s, a)
    ensures Awake(NextUpgrade(s, a))
  {
  }

  lemma CloseKeepsAwake(s: Session, a: CloseStep)
    requires Shape(s) && Awake(s) && CanShut(s, a)
    ensures Awake(NextShut(s, a))
  {
  }

  /** Packets that could be sent never wait without a flush under way or bound to come. */
  lemma {:induction false} NoLostWakeUp(s: Session, run: seq<Action>)
    requires Inv(s) && Awake(s) && Legal(s, run)
    ensures Awake(After(s, run))
    decreases |run|
  {
    if run != [] {
      StepKeepsInv(s, run[0]);
      match run[0] {
        case Sending(x) => SendKeepsAwake(s, x);
        case Polling(x) => PollKeepsAwake(s, x);
        case Upgrading(x) => UpgradeKeepsAwake(s, x);
        case Shutting(x) => CloseKeepsAwake(s, x);
      }
      NoLostWakeUp(Next(s, run[0]), run[1..]);
    }
  }

  /** When every call has returned, packets wait only for a poll, or for an upgrade to settle. */
  lemma QuietSessionsAreDrained(start: Session, run: seq<Action>)
    requires Begins(start) && Legal(start, run)
    requires !FlushIsComing(After(start, run))
    ensures var t := After(start, run);
            t.books.writeBuffer == [] || t.ready == Closed || t.upgrading || (t.active == 0 && !t.polling.writable)
  {
    NoLostWakeUp(start, run);
  }

  // ---------- how a session ends ----------

  /** The close callback is due or has run exactly once, exactly when the session is closed. */
  predicate OneFarewell(s: Session) {
    s.calls.farewells + s.calls.notified == (if s.ready == Closed then 1 else 0)
  }

  predicate SameFarewells(s: Session, t: Session) {
    t.calls.farewells == s.calls.farewells && t.calls.notified == s.calls.notified
  }

  lemma OnlyClosingSaysFarewell(s: Session)
    ensures forall a :: CanSend(s, a) ==> SameFarewells(s, NextSend(s, a))
    ensures forall a :: CanPoll(s, a) ==> SameFarewells(s, NextPoll(s, a))
    ensures forall a :: CanUpgrade(s, a) ==> SameFarewells(s, NextUpgrade(s, a))
  {
  }

  lemma CloseKeepsOneFarewell(s: Session, a: CloseStep)
    requires OneFarewell(s) && CanShut(s, a)
    ensures OneFarewell(NextShut(s, a))
  {
  }

  lemma StepKeepsOneFarewell(s: Session, a: Action)
    requires OneFarewell(s) && Enabled(s, a)
    ensures OneFarewell(Next(s, a))
  {
    OnlyClosingSaysFarewell(s);
    OnlyClosingChangesReady(s);
    if a.Shutting? {
      CloseKeepsOneFarewell(s, a.close);
    }
  }

  /** The close callback runs at most once, only for a closed session, and is due until it has. */
  lemma {:induction false} FarewellExactlyOnce(s: Session, run: seq<Action>)
    requires OneFarewell(s) && Legal(s, run)
    ensures OneFarewell(After(s, run))
    decreases |run|
  {
    if run != [] {
      StepKeepsOneFarewell(s, run[0]);
      FarewellExactlyOnce(Next(s, run[0]), run[1..]);
    }
  }

  /** What holds of every session, however it began, at every moment. */
  lemma EverySession(start: Session, run: seq<Action>)
    requires Begins(start) && Legal(start, run)
    ensures var t := After(start, run); Awake(t) && NoneForPolling(t) && OneFarewell(t)
  {
    InvAlways(start, run);
    NoLostWakeUp(start, run);
    FarewellExactlyOnce(start, run);
  }

  /** What may end the session: a call to close it, or its active transport's event heard outside an upgrade. */
  predicate MayEnd(s: Session, a: Action) {
    match a
    case Shutting(End) => true
    case Shutting(Close) => true
    case Shutting(Hear(t)) => t == s.active && !s.upgrading
    case _ => false
  }

  ghost predicate NothingEnds(s: Session, run: seq<Action>)
    requires Legal(s, run)
    decreases |run|
  {
    run == [] || (!MayEnd(s, run[0]) && NothingEnds(Next(s, run[0]), run[1..]))
  }

  lemma SendStaysOpen(s: Session, a: SendStep)
    requires CanSend(s, a)
    ensures NextSend(s, a).ready == s.ready && NextSend(s, a).calls.kills == s.calls.kills
  {
  }

  lemma PollStaysOpen(s: Session, a: PollStep)
    requires CanPoll(s, a)
    ensures NextPoll(s, a).ready == s.ready && NextPoll(s, a).calls.kills == s.calls.kills
  {
  }

  lemma UpgradeStaysOpen(s: Session, a: UpgradeStep)
    requires CanUpgrade(s, a)
    ensures NextUpgrade(s, a).ready == s.ready && NextUpgrade(s, a).calls.kills == s.calls.kills
  {
  }

  lemma CloseStaysOpen(s: Session, a: CloseStep)
    requires s.ready == Open && s.calls.kills == 0 && CanShut(s, a) && !MayEnd(s, Shutting(a))
    ensures NextShut(s, a).ready == Open && NextShut(s, a).calls.kills == 0
  {
  }

  /** Errors and closes of a replaced transport, or heard during an upgrade, never end a session. */
  lemma {:induction false} ReplacedTransportsCannotEndIt(s: Session, run: seq<Action>)
    requires s.ready == Open && s.calls.kills == 0 && Legal(s, run) && NothingEnds(s, run)
    ensures After(s, run).ready == Open
    decreases |run|
  {
    if run != [] {
      match run[0] {
        case Sending(x) => SendStaysOpen(s, x);
        case Polling(x) => PollStaysOpen(s, x);
        case Upgrading(x) => UpgradeStaysOpen(s, x);
        case Shutting(x) => CloseStaysOpen(s, x);
      }
      ReplacedTransportsCannotEndIt(Next(s, run[0]), run[1..]);
    }
  }
}

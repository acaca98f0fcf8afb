/** Reconnection: exponential backoff in 64-bit arithmetic, a cap, and a limit on attempts. */
module Backoff {
  import opened Octets

  const TWO_TO_62: int := 0x4000_0000_0000_0000

  function Min(a: int, b: int): (m: int) {
    if a <= b then a else b
  }

  function Pow2(k: nat): (p: nat)
    ensures p > 0
  {
    if k == 0 then 1 else 2 * Pow2(k - 1)
  }

  predicate Duration(d: int) {
    0 < d <= MAX_INT64
  }

  function NextDelay(delay: int, max: int): (d: int) {
    var doubled := Wrap64(delay * 2);
    if doubled > max then max else doubled
  }

  /** The delay before jitter after `k` failures. */
  function DelayAfter(base: int, max: int, k: nat): (d: int) {
    if k == 0 then base else NextDelay(DelayAfter(base, max, k - 1), max)
  }

  /** What the backoff is meant to be. */
  function Intended(base: int, max: int, k: nat): (d: int) {
    Min(base * Pow2(k), max)
  }

  predicate AsIntended(base: int, max: int, k: nat) {
    Min(DelayAfter(base, max, k), max) == Intended(base, max, k)
  }

  /** A small delay doubles; whether it stands for itself or for more than the cap, so does its double. */
  lemma SmallDelayDoubles(delay: int, meant: int, max: int)
    requires 0 < delay < TWO_TO_62 && 0 < max < TWO_TO_62 && 0 < meant && Min(delay, max) == Min(meant, max)
    ensures 0 < NextDelay(delay, max) < TWO_TO_62 && Min(NextDelay(delay, max), max) == Min(2 * meant, max)
  {
    assert Wrap64(delay * 2) == delay * 2;
  }

  lemma {:induction false} SmallDelaysDouble(base: int, max: int, k: nat)
    requires 0 < base < TWO_TO_62 && 0 < max < TWO_TO_62
    ensures AsIntended(base, max, k)
    ensures 0 < DelayAfter(base, max, k) < TWO_TO_62
  {
    if k > 0 {
      SmallDelaysDouble(base, max, k - 1);
      PowerDoubles(base, k);
      SmallDelayDoubles(DelayAfter(base, max, k - 1), base * Pow2(k - 1), max);
    }
  }

  lemma PowerDoubles(base: int, k: nat)
    requires 0 < base && 0 < k
    ensures base * Pow2(k) == 2 * (base * Pow2(k - 1)) && 0 < base * Pow2(k - 1)
  {
  }

  /** A delay of 2^62 or more doubles into a negative one. */
  lemma LargeDelayWraps(delay: int, max: int)
    requires TWO_TO_62 <= delay <= MAX_INT64 && 0 < max
    ensures NextDelay(delay, max) < 0
  {
    assert delay * 2 + MAX_INT64 + 1 == TWO_TO_64 + (delay * 2 - MAX_INT64 - 1);
  }

  /** The first delay at or over 2^62, when the cap allows one. */
  lemma {:induction false} DelayGrowsTo(base: int, max: int, k: nat) returns (n: nat)
    requires 0 < base < TWO_TO_62 <= max <= MAX_INT64
    requires 0 < DelayAfter(base, max, k) < TWO_TO_62
    ensures TWO_TO_62 <= DelayAfter(base, max, n) <= MAX_INT64
    decreases TWO_TO_62 - DelayAfter(base, max, k)
  {
    var d := DelayAfter(base, max, k);
    assert Wrap64(d * 2) == d * 2;
    if d * 2 >= TWO_TO_62 {
      n := k + 1;
    } else {
      n := DelayGrowsTo(base, max, k + 1);
    }
  }

  lemma NegativeIsNotIntended(base: int, max: int, k: nat)
    requires Duration(base) && Duration(max) && DelayAfter(base, max, k) < 0
    ensures !AsIntended(base, max, k)
  {
    assert base * Pow2(k) > 0;
  }

  /**
   Before attempt k+1 the capped delay is min(base * 2^k, max) for every k if
   and only if both settings are below 2^62; from there on it turns negative.
   */
  lemma BackoffIsExponential(base: int, max: int)
    requires Duration(base) && Duration(max)
    ensures (forall k: nat :: AsIntended(base, max, k)) <==> base < TWO_TO_62 && max < TWO_TO_62
  {
    if base < TWO_TO_62 && max < TWO_TO_62 {
      forall k: nat ensures AsIntended(base, max, k) {
        SmallDelaysDouble(base, max, k);
      }
    } else {
      var n := 0;
      if base < TWO_TO_62 {
        assert DelayAfter(base, max, 0) == base;
        n := DelayGrowsTo(base, max, 0);
      }
      LargeDelayWraps(DelayAfter(base, max, n), max);
      assert DelayAfter(base, max, n + 1) < 0;
      NegativeIsNotIntended(base, max, n + 1);
    }
  }

  // ---------- the loop ----------

  /** One turn as the outside decides it: a stop before or during the wait, the jittered delay, the dial's outcome. */
  datatype Turn = Turn(stopBefore: bool, jittered: int, stopDuring: bool, connects: bool)

  datatype End = Stopped | GaveUp | Reconnected | StillTrying

  predicate Fails(t: Turn) {
    !t.stopBefore && !t.stopDuring && !t.connects
  }

  predicate FirstFail(turns: seq<Turn>, n: int)
    requires n <= |turns|
  {
    forall i :: 0 <= i < n ==> Fails(turns[i])
  }

  /** No wait exceeds the cap: each is the capped delay, or its jittered form. */
  predicate Backed(waits: seq<int>, base: int, max: int, randomised: bool, turns: seq<Turn>)
    requires |waits| <= |turns|
  {
    forall i :: 0 <= i < |waits| ==>
      waits[i] == Min(if randomised then turns[i].jittered else DelayAfter(base, max, i), max) <= max
  }

  method WaitFor(delay: int, max: int, randomised: bool, jittered: int) returns (wait: int)
    ensures wait == Min(if randomised then jittered else delay, max)
  {
    wait := delay;
    if randomised {
      wait := jittered;
    }
    if wait > max {
      wait := max;
    }
  }

  /** Runs for as many turns as are given; `waits` has one entry per turn begun, `dials` counts the attempts. */
  method ReconnectLoop(base: int, max: int, limit: int, randomised: bool, turns: seq<Turn>)
    returns (waits: seq<int>, dials: nat, end: End)
    ensures dials <= |waits| <= dials + 1 && |waits| <= |turns|
    ensures Backed(waits, base, max, randomised, turns)
    ensures FirstFail(turns, if end == Reconnected then dials - 1 else dials)
    ensures limit > 0 ==> dials <= limit
    ensures end == GaveUp <==> limit > 0 && |turns| > limit && FirstFail(turns, limit) && !turns[limit].stopBefore
    ensures end == GaveUp ==> dials == limit
    ensures end == Reconnected ==> 0 < dials <= |turns| && turns[dials - 1].connects
    ensures end == Stopped ==>
              dials < |turns| && if |waits| == dials then turns[dials].stopBefore else turns[dials].stopDuring
    ensures end == StillTrying ==> dials == |turns|
  {
    waits, dials := [], 0;
    var delay := base;
    var attempt := 0;
    while attempt < |turns|
      invariant attempt == dials == |waits| <= |turns|
      invariant limit > 0 ==> attempt <= limit
      invariant delay == DelayAfter(base, max, attempt)
      invariant FirstFail(turns, attempt)
      invariant Backed(waits, base, max, randomised, turns)
    {
      var turn := turns[attempt];
      if turn.stopBefore {
        return waits, dials, Stopped;
      }
      if limit > 0 && attempt >= limit {
        return waits, dials, GaveUp;
      }
      attempt := attempt + 1;
      var wait := WaitFor(delay, max, randomised, turn.jittered);
      waits := waits + [wait];
      if turn.stopDuring {
        return waits, dials, Stopped;
      }
      dials := dials + 1;
      if turn.connects {
        return waits, dials, Reconnected;
      }
      delay := NextDelay(delay, max);
    }
    end := StillTrying;
  }
}

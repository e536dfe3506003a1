/**
 * The fixed-window counters of the auth rate limiter. Times are in milliseconds; a Redis key is
 * gone from its expiry on, and the increment and the expiry of a call are one step.
 */
module RateLimit {
  import opened Common

  type Key = string

  datatype Counter = Counter(count: nat, expiresAt: int)

  datatype Verdict = Verdict(allowed: bool, current: nat, remaining: int, resetInSeconds: int)

  type Store = map<Key, Counter>

  predicate Alive(c: Option<Counter>, now: int) {
    c.Some? && now < c.value.expiresAt
  }

  /** The counter after one more call. */
  function Hit(c: Option<Counter>, windowSeconds: int, now: int): Counter {
    if Alive(c, now) then Counter(c.value.count + 1, c.value.expiresAt) else Counter(1, now + 1000 * windowSeconds)
  }

  /** Redis answers -2 for a key that is gone and rounds to the nearest second otherwise. */
  function Ttl(c: Counter, now: int): int {
    if now < c.expiresAt then (c.expiresAt - now + 500) / 1000 else -2
  }

  function VerdictOf(c: Counter, maxAttempts: int, windowSeconds: int, now: int): Verdict {
    var ttl := Ttl(c, now);
    Verdict(c.count <= maxAttempts, c.count, Max(0, maxAttempts - c.count), if ttl > 0 then ttl else windowSeconds)
  }

  /** What is left of the limit, and the rounded seconds left of the window, or a whole window if they are none. */
  predicate Reports(v: Verdict, current: nat, maxAttempts: int, windowSeconds: int, left: int) {
    && v.current == current && (v.allowed <==> current <= maxAttempts)
    && v.remaining == (if current < maxAttempts then maxAttempts - current else 0)
    && (left < 500 ==> v.resetInSeconds == windowSeconds)
    && (left >= 500 ==> v.resetInSeconds > 0 && -500 <= left - 1000 * v.resetInSeconds < 500)
  }

  class Limiter {
    var store: Store

    constructor ()
      ensures store == map[]
    {
      store := map[];
    }

    method Consume(key: Key, maxAttempts: int, windowSeconds: int, now: int) returns (v: Verdict)
      modifies this
      ensures store == Apply(old(store), Consumed(key, windowSeconds, now))
      ensures v == VerdictOf(store[key], maxAttempts, windowSeconds, now)
      ensures Reports(v, store[key].count, maxAttempts, windowSeconds, store[key].expiresAt - now)
    {
      var current := 1;
      if key in store && now < store[key].expiresAt {
        current := store[key].count + 1;
        store := store[key := Counter(current, store[key].expiresAt)];
      } else {
        store := store[key := Counter(1, now + 1000 * windowSeconds)];
      }
      var ttl := Ttl(store[key], now);
      var reset := if ttl > 0 then ttl else windowSeconds;
      v := Verdict(current <= maxAttempts, current, Max(0, maxAttempts - current), reset);
    }

    method Clear(key: Key)
      modifies this
      ensures store == Apply(old(store), Cleared(key)) && key !in store
    {
      store := store - {key};
    }
  }

  // ---------------------------------------------------------------- traces

  datatype Event = Consumed(key: Key, windowSeconds: int, now: int) | Cleared(key: Key)

  function Apply(s: Store, e: Event): (r: Store)
    ensures forall k | k != e.key :: (k in r <==> k in s) && (k in s ==> r[k] == s[k])
  {
    match e
    case Consumed(key, windowSeconds, now) => s[key := Hit(Find(s, key), windowSeconds, now)]
    case Cleared(key) => s - {key}
  }

  function Run(s: Store, events: seq<Event>): Store {
    if events == [] then s else Apply(Run(s, events[..|events| - 1]), events[|events| - 1])
  }

  /** The times of the calls for `key` since it was last cleared. */
  function Calls(events: seq<Event>, key: Key): seq<int> {
    if events == [] then []
    else
      var e := events[|events| - 1];
      if e.key != key then Calls(events[..|events| - 1], key)
      else if e.Cleared? then []
      else Calls(events[..|events| - 1], key) + [e.now]
  }

  /** The counter of one key alone after calls at these times. */
  function After(times: seq<int>, windowSeconds: int): Option<Counter> {
    if times == [] then None
    else Some(Hit(After(times[..|times| - 1], windowSeconds), windowSeconds, times[|times| - 1]))
  }

  /** The key is always counted with the same window. */
  predicate Steady(events: seq<Event>, key: Key, windowSeconds: int) {
    forall i | 0 <= i < |events| && events[i].key == key && events[i].Consumed? ::
      events[i].windowSeconds == windowSeconds
  }

  /** Traffic on other keys does not count, and neither does what came before the last clear. */
  lemma {:induction false} KeysAreIndependent(events: seq<Event>, key: Key, windowSeconds: int)
    requires Steady(events, key, windowSeconds)
    ensures Find(Run(map[], events), key) == After(Calls(events, key), windowSeconds)
  {
    if events != [] {
      var before, e := events[..|events| - 1], events[|events| - 1];
      KeysAreIndependent(before, key, windowSeconds);
      assert Steady(before, key, windowSeconds);
      if e.key == key && e.Consumed? {
        assert e.windowSeconds == windowSeconds;
        assert Calls(events, key)[..|Calls(events, key)| - 1] == Calls(before, key);
      }
    }
  }

  // ---------------------------------------------------------------- windows

  ghost predicate Ordered(times: seq<int>) {
    forall i, j | 0 <= i <= j < |times| :: times[i] <= times[j]
  }

  /** The call that opened the window call `i` falls in. */
  function Opening(times: seq<int>, windowSeconds: int, i: nat): (o: nat)
    requires i < |times|
    ensures o <= i
  {
    if i == 0 then 0
    else
      var o := Opening(times, windowSeconds, i - 1);
      if times[i] < times[o] + 1000 * windowSeconds then o else i
  }

  /** The limiter's answer to call `i`. */
  predicate Allowed(times: seq<int>, windowSeconds: int, maxAttempts: int, i: nat)
    requires i < |times|
  {
    After(times[..i + 1], windowSeconds).value.count <= maxAttempts
  }

  lemma {:induction false} CounterCountsTheWindow(times: seq<int>, windowSeconds: int, i: nat)
    requires i < |times|
    ensures var o := Opening(times, windowSeconds, i);
            After(times[..i + 1], windowSeconds) == Some(Counter(i - o + 1, times[o] + 1000 * windowSeconds))
  {
    assert times[..i + 1][..i] == times[..i];
    if i == 0 {
      assert times[..0] == [];
    } else {
      CounterCountsTheWindow(times, windowSeconds, i - 1);
    }
  }

  /** Each window allows exactly its first `maxAttempts` calls. */
  lemma EachWindowAllowsItsFirstCalls(times: seq<int>, windowSeconds: int, maxAttempts: int, i: nat)
    requires i < |times|
    ensures Allowed(times, windowSeconds, maxAttempts, i) <==> i < Opening(times, windowSeconds, i) + maxAttempts
  {
    CounterCountsTheWindow(times, windowSeconds, i);
  }

  /**
   * So the limiter's answer to a call for a key, whatever else it served, is decided by that key's own windows since
   * the last clear: it counts the calls of the open window and the time since the call that opened it.
   */
  lemma VerdictDependsOnItsWindow(events: seq<Event>, key: Key, windowSeconds: int, maxAttempts: int, now: int)
    requires Steady(events, key, windowSeconds)
    ensures var times := Calls(events, key) + [now];
            var store := Apply(Run(map[], events), Consumed(key, windowSeconds, now));
            var o := Opening(times, windowSeconds, |times| - 1);
            && key in store
            && Reports(VerdictOf(store[key], maxAttempts, windowSeconds, now), |times| - o, maxAttempts, windowSeconds,
                       times[o] + 1000 * windowSeconds - now)
  {
    var times := Calls(events, key) + [now];
    KeysAreIndependent(events, key, windowSeconds);
    assert times[..|times| - 1] == Calls(events, key) && times[..|times|] == times;
    CounterCountsTheWindow(times, windowSeconds, |times| - 1);
  }

  /** A clear gives the whole limit back: the next `maxAttempts` calls are allowed, however many came before it. */
  lemma ClearRestoresTheLimit(events: seq<Event>, key: Key, times: seq<int>, windowSeconds: int, maxAttempts: int,
                              now: int)
    requires Steady(events, key, windowSeconds) && |times| < maxAttempts
    ensures var since := events + [Cleared(key)] + Consumes(key, windowSeconds, times);
            var store := Apply(Run(map[], since), Consumed(key, windowSeconds, now));
            key in store && VerdictOf(store[key], maxAttempts, windowSeconds, now).allowed
  {
    var since := events + [Cleared(key)] + Consumes(key, windowSeconds, times);
    assert Steady(since, key, windowSeconds);
    CallsSinceClear(events + [Cleared(key)], key, windowSeconds, times);
    assert Calls(events + [Cleared(key)], key) == [];
    VerdictDependsOnItsWindow(since, key, windowSeconds, maxAttempts, now);
  }

  function Consumes(key: Key, windowSeconds: int, times: seq<int>): seq<Event> {
    seq(|times|, i requires 0 <= i < |times| => Consumed(key, windowSeconds, times[i]))
  }

  lemma {:induction false} CallsSinceClear(events: seq<Event>, key: Key, windowSeconds: int, times: seq<int>)
    ensures Calls(events + Consumes(key, windowSeconds, times), key) == Calls(events, key) + times
    decreases |times|
  {
    var all := events + Consumes(key, windowSeconds, times);
    if times == [] {
      assert all == events;
    } else {
      var n := |times| - 1;
      CallsSinceClear(events, key, windowSeconds, times[..n]);
      assert all[..|all| - 1] == events + Consumes(key, windowSeconds, times[..n]);
      assert times == times[..n] + [times[n]];
    }
  }

  /** Windows are disjoint, consecutive runs of calls, and each opens at least a window's length after the last. */
  lemma {:induction false} WindowsAreApart(times: seq<int>, windowSeconds: int, i: nat, j: nat)
    requires Ordered(times) && i <= j < |times|
    ensures var o, p := Opening(times, windowSeconds, i), Opening(times, windowSeconds, j);
            o == p || (i < p && times[o] + 1000 * windowSeconds <= times[p])
    decreases j
  {
    if i < j {
      WindowsAreApart(times, windowSeconds, i, j - 1);
    }
  }

  // ---------------------------------------------------------------- bursts

  function Range(lo: int, hi: int): (r: set<int>)
    ensures forall i :: i in r <==> lo <= i < hi
    ensures |r| == Max(0, hi - lo)
    decreases hi - lo
  {
    if hi <= lo then {} else Range(lo, hi - 1) + {hi - 1}
  }

  lemma {:induction false} SubsetSize<T>(a: set<T>, b: set<T>)
    requires a <= b
    ensures |a| <= |b|
  {
    if a != {} {
      var x :| x in a;
      SubsetSize(a - {x}, b - {x});
    }
  }

  /** The first call at or after time `from`. */
  function FirstFrom(times: seq<int>, from: int): (k: nat)
    ensures k <= |times| && (k < |times| ==> times[k] >= from)
    ensures forall i | 0 <= i < k :: times[i] < from
  {
    if times == [] then 0
    else if times[0] >= from then 0
    else
      assert forall i | 1 <= i < |times| :: times[i] == times[1..][i - 1];
      1 + FirstFrom(times[1..], from)
  }

  /** The calls allowed at a time in `[from, to]`. */
  function AllowedWithin(times: seq<int>, windowSeconds: int, maxAttempts: int, from: int, to: int): set<int> {
    set i | 0 <= i < |times| && from <= times[i] <= to && Allowed(times, windowSeconds, maxAttempts, i)
  }

  /** The window open at the first call of a span, then at most one more, fill a span of one window's length. */
  lemma LaterWindowsCoincide(times: seq<int>, windowSeconds: int, from: int, lo: nat, i: nat, j: nat)
    requires Ordered(times) && windowSeconds > 0 && lo == FirstFrom(times, from) && lo <= i <= j < |times|
    requires times[j] <= from + 1000 * windowSeconds
    requires Opening(times, windowSeconds, i) != Opening(times, windowSeconds, lo)
    ensures Opening(times, windowSeconds, j) == Opening(times, windowSeconds, i)
  {
    WindowsAreApart(times, windowSeconds, lo, i);
    WindowsAreApart(times, windowSeconds, i, j);
    OpenAtItsCalls(times, windowSeconds, lo);
  }

  lemma OneLaterWindow(times: seq<int>, windowSeconds: int, from: int, lo: nat, i: nat, j: nat)
    requires Ordered(times) && windowSeconds > 0 && lo == FirstFrom(times, from)
    requires lo <= i < |times| && lo <= j < |times|
    requires times[i] <= from + 1000 * windowSeconds && times[j] <= from + 1000 * windowSeconds
    requires Opening(times, windowSeconds, i) != Opening(times, windowSeconds, lo)
    requires Opening(times, windowSeconds, j) != Opening(times, windowSeconds, lo)
    ensures Opening(times, windowSeconds, i) == Opening(times, windowSeconds, j)
  {
    if i <= j {
      LaterWindowsCoincide(times, windowSeconds, from, lo, i, j);
    } else {
      LaterWindowsCoincide(times, windowSeconds, from, lo, j, i);
    }
  }

  lemma {:induction false} OpenAtItsCalls(times: seq<int>, windowSeconds: int, i: nat)
    requires i < |times| && windowSeconds > 0
    ensures times[i] < times[Opening(times, windowSeconds, i)] + 1000 * windowSeconds
  {
  }

  /** The calls of a span outside its first window, if there are any, share one window. */
  lemma SecondWindow(times: seq<int>, windowSeconds: int, from: int, lo: nat, found: set<int>) returns (p: nat)
    requires Ordered(times) && windowSeconds > 0 && lo == FirstFrom(times, from) && lo < |times|
    requires forall i | i in found :: lo <= i < |times| && times[i] <= from + 1000 * windowSeconds
    ensures forall i | i in found ::
              Opening(times, windowSeconds, i) in {Opening(times, windowSeconds, lo), p}
  {
    p := 0;
    if later :| later in found && Opening(times, windowSeconds, later) != Opening(times, windowSeconds, lo) {
      p := Opening(times, windowSeconds, later);
      forall i | i in found && Opening(times, windowSeconds, i) != Opening(times, windowSeconds, lo)
        ensures Opening(times, windowSeconds, i) == p
      {
        OneLaterWindow(times, windowSeconds, from, lo, i, later);
      }
    }
  }

  /** The first call of a window is in no earlier one, and within less than a window no later one opens. */
  lemma FirstCallInSpan(times: seq<int>, windowSeconds: int, lo: nat, i: nat)
    requires Ordered(times) && windowSeconds > 0 && lo <= i < |times| && Opening(times, windowSeconds, lo) == lo
    requires times[i] < times[lo] + 1000 * windowSeconds
    ensures Opening(times, windowSeconds, i) == lo
  {
    WindowsAreApart(times, windowSeconds, lo, i);
  }

  /** The allowed calls of a span are the first ones of at most two windows. */
  lemma TwoWindowsCover(times: seq<int>, windowSeconds: int, maxAttempts: int, from: int, to: int)
    returns (o: nat, p: nat)
    requires Ordered(times) && windowSeconds > 0 && to <= from + 1000 * windowSeconds
    ensures AllowedWithin(times, windowSeconds, maxAttempts, from, to)
         <= Range(o, o + maxAttempts) + Range(p, p + maxAttempts)
    ensures to < from + 1000 * windowSeconds ==>
              o !in AllowedWithin(times, windowSeconds, maxAttempts, from, to)
              || AllowedWithin(times, windowSeconds, maxAttempts, from, to) <= Range(o, o + maxAttempts)
  {
    var lo, found := FirstFrom(times, from), AllowedWithin(times, windowSeconds, maxAttempts, from, to);
    o, p := 0, 0;
    if lo < |times| {
      o := Opening(times, windowSeconds, lo);
      p := SecondWindow(times, windowSeconds, from, lo, found);
      forall i | i in found ensures i in Range(o, o + maxAttempts) + Range(p, p + maxAttempts) {
        EachWindowAllowsItsFirstCalls(times, windowSeconds, maxAttempts, i);
      }
      if to < from + 1000 * windowSeconds && o in found {
        forall i | i in found ensures i in Range(o, o + maxAttempts) {
          FirstCallInSpan(times, windowSeconds, lo, i);
          EachWindowAllowsItsFirstCalls(times, windowSeconds, maxAttempts, i);
        }
      }
    }
  }

  /**
   * Any closed span of one window's length contains at most twice `maxAttempts` allowed calls, and
   * one call less if the span excludes either end.
   */
  lemma BurstBound(times: seq<int>, windowSeconds: int, maxAttempts: int, from: int, to: int)
    requires Ordered(times) && windowSeconds > 0 && to <= from + 1000 * windowSeconds
    ensures |AllowedWithin(times, windowSeconds, maxAttempts, from, to)| <= 2 * Max(0, maxAttempts)
    ensures to < from + 1000 * windowSeconds ==>
            |AllowedWithin(times, windowSeconds, maxAttempts, from, to)| <= Max(0, 2 * maxAttempts - 1)
  {
    var o, p := TwoWindowsCover(times, windowSeconds, maxAttempts, from, to);
    var found := AllowedWithin(times, windowSeconds, maxAttempts, from, to);
    var first, second := Range(o, o + maxAttempts), Range(p, p + maxAttempts);
    SubsetSize(found, first + second);
    if to < from + 1000 * windowSeconds {
      if o !in found {
        SubsetSize(found, Range(o + 1, o + maxAttempts) + second);
      } else {
        SubsetSize(found, first);
      }
    }
  }

  // ---------------------------------------------------------------- the bounds are met

  /** One call at time 0, the rest of its window at time `mid`, and a full window right after it. */
  function Burst(windowSeconds: int, maxAttempts: nat, mid: int): seq<int> {
    seq(2 * maxAttempts, i => if i == 0 then 0 else if i < maxAttempts then mid else 1000 * windowSeconds)
  }

  lemma {:induction false} BurstOpenings(windowSeconds: int, maxAttempts: nat, mid: int, i: nat)
    requires windowSeconds > 0 && 0 <= mid < 1000 * windowSeconds && i < 2 * maxAttempts
    ensures Opening(Burst(windowSeconds, maxAttempts, mid), windowSeconds, i)
         == if i < maxAttempts then 0 else maxAttempts
  {
    if i > 0 {
      BurstOpenings(windowSeconds, maxAttempts, mid, i - 1);
    }
  }

  lemma BurstIsAllowed(windowSeconds: int, maxAttempts: nat, mid: int, from: int, to: int, skip: nat)
    requires windowSeconds > 0 && 0 <= mid < 1000 * windowSeconds && skip <= 1
    requires skip == 0 ==> from <= 0 && from <= mid
    requires from <= mid && to == 1000 * windowSeconds
    ensures var times := Burst(windowSeconds, maxAttempts, mid);
            |AllowedWithin(times, windowSeconds, maxAttempts, from, to)| >= 2 * maxAttempts - skip
  {
    var times := Burst(windowSeconds, maxAttempts, mid);
    forall i | skip <= i < 2 * maxAttempts ensures i in AllowedWithin(times, windowSeconds, maxAttempts, from, to) {
      BurstOpenings(windowSeconds, maxAttempts, mid, i);
      EachWindowAllowsItsFirstCalls(times, windowSeconds, maxAttempts, i);
    }
    SubsetSize(Range(skip, 2 * maxAttempts), AllowedWithin(times, windowSeconds, maxAttempts, from, to));
  }

  /** Both bounds are met, for every window and every limit. */
  lemma BurstBoundIsSharp(windowSeconds: int, maxAttempts: nat) returns (closed: seq<int>, open: seq<int>)
    requires windowSeconds > 0 && maxAttempts > 0
    ensures Ordered(closed) && Ordered(open)
    ensures |AllowedWithin(closed, windowSeconds, maxAttempts, 0, 1000 * windowSeconds)| == 2 * maxAttempts
    ensures var end := 1000 * windowSeconds;
            |AllowedWithin(open, windowSeconds, maxAttempts, end - 1, end)| == 2 * maxAttempts - 1
  {
    closed := Burst(windowSeconds, maxAttempts, 0);
    open := Burst(windowSeconds, maxAttempts, 1000 * windowSeconds - 1);
    BurstIsAllowed(windowSeconds, maxAttempts, 0, 0, 1000 * windowSeconds, 0);
    BurstIsAllowed(windowSeconds, maxAttempts, 1000 * windowSeconds - 1, 1000 * windowSeconds - 1,
                   1000 * windowSeconds, 1);
    BurstBound(closed, windowSeconds, maxAttempts, 0, 1000 * windowSeconds);
    BurstBound(open, windowSeconds, maxAttempts, 1000 * windowSeconds - 1, 1000 * windowSeconds);
  }
}

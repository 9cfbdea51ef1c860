/**
 Rate limiting: the `RateBuckets` of backend/main.py. One fixed-window counter per frame
 class; every frame is counted, the refused ones too, and a window begins with the first
 frame that comes too late for the one before.
 */
module RateBuckets {

  datatype Class = Interactive | Signal | Bulk | Http | Cursor | Stream

  datatype Bucket = Bucket(count: nat, start: real)

  datatype Arrival = Arrival(cls: Class, at: real)

  const WINDOW: real := 1.0

  function Limit(cls: Class): nat {
    match cls
    case Interactive => 10
    case Signal => 60
    case Bulk => 400
    case Http => 60
    case Cursor => 20
    case Stream => 20
  }

  // ------------------------------------------------------------------
  // One class.
  // ------------------------------------------------------------------

  function Counted(window: real, b: Bucket, now: real): Bucket {
    if now - b.start > window then Bucket(1, now) else Bucket(b.count + 1, b.start)
  }

  /** How many of these frames, arriving at these times, are let through. */
  function Passed(window: real, limit: nat, b: Bucket, times: seq<real>): nat
    decreases |times|
  {
    if times == [] then 0
    else
      var b1 := Counted(window, b, times[0]);
      (if b1.count <= limit then 1 else 0) + Passed(window, limit, b1, times[1..])
  }

  function Left(limit: nat, b: Bucket): nat {
    if b.count < limit then limit - b.count else 0
  }

  predicate InOrder(times: seq<real>) {
    forall i, j :: 0 <= i < j < |times| ==> times[i] <= times[j]
  }

  function Windows(n: nat, window: real): real {
    if n == 0 then 0.0 else Windows(n - 1, window) + window
  }

  lemma WindowsFew(window: real)
    ensures Windows(0, window) == 0.0 && Windows(1, window) == window
  {
    assert Windows(1, window) == Windows(0, window) + window;
  }

  /** What is left of this window, and a full allowance for each that may still begin. */
  lemma {:induction false} PassedFrom(window: real, limit: nat, b: Bucket, times: seq<real>, end: real, n: nat)
    requires window > 0.0 && InOrder(times) && (times != [] ==> times[|times| - 1] <= end)
    requires end - b.start <= Windows(n + 1, window)
    ensures Passed(window, limit, b, times) <= Left(limit, b) + limit * n
    decreases |times|
  {
    WindowsFew(window);
    if times != [] {
      var now, rest := times[0], times[1..];
      var b1 := Counted(window, b, now);
      assert now <= end;
      assert InOrder(rest);
      if now - b.start > window {
        assert n > 0;
        assert Windows(n + 1, window) == Windows(n, window) + window;
        PassedFrom(window, limit, b1, rest, end, n - 1);
        assert limit * n == limit * (n - 1) + limit;
      } else {
        PassedFrom(window, limit, b1, rest, end, n);
      }
    }
  }

  /** Whatever came before: in any interval no longer than `n` windows, at most `n + 1` allowances pass. */
  lemma PassedWithin(window: real, limit: nat, b: Bucket, times: seq<real>, begin: real, length: real, n: nat)
    requires window > 0.0 && length > 0.0 && InOrder(times) && length <= Windows(n, window)
    requires forall i :: 0 <= i < |times| ==> begin <= times[i] <= begin + length
    ensures Passed(window, limit, b, times) <= limit * (n + 1)
  {
    WindowsFew(window);
    assert n > 0;
    assert limit * (n + 1) == limit * n + limit;
    if times != [] {
      var now, rest := times[0], times[1..];
      assert InOrder(rest);
      if now - b.start > window {
        PassedFrom(window, limit, Counted(window, b, now), rest, begin + length, n - 1);
        assert limit * n == limit * (n - 1) + limit;
      } else {
        assert Windows(n + 1, window) == Windows(n, window) + window;
        PassedFrom(window, limit, b, times, begin + length, n);
      }
    }
  }

  // ------------------------------------------------------------------
  // Every class, interleaved.
  // ------------------------------------------------------------------

  type Buckets = map<Class, Bucket>

  predicate Complete(buckets: Buckets) {
    forall cls: Class :: cls in buckets
  }

  function Judged(window: real, buckets: Buckets, a: Arrival): (r: (Buckets, bool))
    requires Complete(buckets)
    ensures Complete(r.0)
  {
    var b := Counted(window, buckets[a.cls], a.at);
    (buckets[a.cls := b], b.count <= Limit(a.cls))
  }

  /** How many frames of one class get through a mixed sequence of arrivals. */
  function Admitted(window: real, buckets: Buckets, arrivals: seq<Arrival>, cls: Class): nat
    requires Complete(buckets)
    decreases |arrivals|
  {
    if arrivals == [] then 0
    else
      var (after, ok) := Judged(window, buckets, arrivals[0]);
      (if ok && arrivals[0].cls == cls then 1 else 0) + Admitted(window, after, arrivals[1..], cls)
  }

  function TimesOf(arrivals: seq<Arrival>, cls: Class): seq<real> {
    if arrivals == [] then []
    else (if arrivals[0].cls == cls then [arrivals[0].at] else []) + TimesOf(arrivals[1..], cls)
  }

  /** The classes do not see each other. */
  lemma {:induction false} Independent(window: real, buckets: Buckets, arrivals: seq<Arrival>, cls: Class)
    requires Complete(buckets)
    ensures Admitted(window, buckets, arrivals, cls) == Passed(window, Limit(cls), buckets[cls], TimesOf(arrivals, cls))
    decreases |arrivals|
  {
    if arrivals != [] {
      var first, rest := arrivals[0], TimesOf(arrivals[1..], cls);
      var after, ok := Judged(window, buckets, first).0, Judged(window, buckets, first).1;
      Independent(window, after, arrivals[1..], cls);
      assert Admitted(window, buckets, arrivals, cls) == (if ok && first.cls == cls then 1 else 0) + Admitted(window, after, arrivals[1..], cls);
      if first.cls == cls {
        var times := TimesOf(arrivals, cls);
        assert times == [first.at] + rest;
        assert times[0] == first.at && times[1..] == rest;
        assert after[cls] == Counted(window, buckets[cls], first.at);
      } else {
        assert TimesOf(arrivals, cls) == rest;
        assert after[cls] == buckets[cls];
      }
    }
  }

  predicate Chronological(arrivals: seq<Arrival>) {
    forall i, j :: 0 <= i < j < |arrivals| ==> arrivals[i].at <= arrivals[j].at
  }

  lemma {:induction false} TimesWithin(arrivals: seq<Arrival>, cls: Class, begin: real, end: real)
    requires Chronological(arrivals) && forall i :: 0 <= i < |arrivals| ==> begin <= arrivals[i].at <= end
    ensures InOrder(TimesOf(arrivals, cls))
    ensures forall i :: 0 <= i < |TimesOf(arrivals, cls)| ==> begin <= TimesOf(arrivals, cls)[i] <= end
    decreases |arrivals|
  {
    if arrivals != [] {
      var rest := arrivals[1..];
      TimesWithin(rest, cls, arrivals[0].at, end);
    }
  }

  function Ceil(x: real): int {
    -((-x).Floor)
  }

  lemma {:induction false} WindowsAre(n: nat, window: real)
    ensures Windows(n, window) == n as real * window
  {
    if n > 0 {
      WindowsAre(n - 1, window);
      assert n as real * window == (n - 1) as real * window + window;
    }
  }

  lemma CeilCovers(length: real, window: real)
    requires length > 0.0 && window > 0.0
    ensures Ceil(length / window) >= 0 && length <= Windows(Ceil(length / window), window)
  {
    var x := length / window;
    assert x * window == length;
    assert x > 0.0;
    var n := Ceil(x);
    assert x <= n as real;
    WindowsAre(n, window);
    Scaled(x, n as real, window);
  }

  lemma Scaled(x: real, y: real, k: real)
    requires x <= y && k > 0.0
    ensures x * k <= y * k
  {
    assert (y - x) * k >= 0.0;
  }

  /** In any interval of any length, from any state, of any class. */
  lemma Throttled(window: real, buckets: Buckets, arrivals: seq<Arrival>, cls: Class, begin: real, length: real)
    requires window > 0.0 && length > 0.0 && Complete(buckets) && Chronological(arrivals)
    requires forall i :: 0 <= i < |arrivals| ==> begin <= arrivals[i].at <= begin + length
    ensures Admitted(window, buckets, arrivals, cls) <= Limit(cls) * (Ceil(length / window) + 1)
  {
    Independent(window, buckets, arrivals, cls);
    TimesWithin(arrivals, cls, begin, begin + length);
    CeilCovers(length, window);
    PassedWithin(window, Limit(cls), buckets[cls], TimesOf(arrivals, cls), begin, length, Ceil(length / window));
  }

  // ------------------------------------------------------------------
  // Nobody is refused for somebody else's frames.
  // ------------------------------------------------------------------

  function After(window: real, buckets: Buckets, arrivals: seq<Arrival>): (r: Buckets)
    requires Complete(buckets)
    ensures Complete(r)
  {
    if arrivals == [] then buckets
    else Judged(window, After(window, buckets, arrivals[..|arrivals| - 1]), arrivals[|arrivals| - 1]).0
  }

  /** How many frames of this class arrived no earlier than `from`. */
  function Since(arrivals: seq<Arrival>, cls: Class, from: real): nat {
    if arrivals == [] then 0
    else
      var last := arrivals[|arrivals| - 1];
      Since(arrivals[..|arrivals| - 1], cls, from) + (if last.cls == cls && last.at >= from then 1 else 0)
  }

  lemma {:induction false} StartedBefore(window: real, buckets: Buckets, arrivals: seq<Arrival>, cls: Class, now: real)
    requires Complete(buckets) && buckets[cls].start <= now && forall i :: 0 <= i < |arrivals| ==> arrivals[i].at <= now
    ensures After(window, buckets, arrivals)[cls].start <= now
    decreases |arrivals|
  {
    if arrivals != [] {
      StartedBefore(window, buckets, arrivals[..|arrivals| - 1], cls, now);
    }
  }

  /** The count is the number of frames of its class that arrived in its window. */
  lemma {:induction false} CountIsTrue(window: real, buckets: Buckets, arrivals: seq<Arrival>, cls: Class)
    requires Complete(buckets) && buckets[cls].count == 0 && Chronological(arrivals)
    requires forall i :: 0 <= i < |arrivals| ==> buckets[cls].start <= arrivals[i].at
    ensures After(window, buckets, arrivals)[cls].count <= Since(arrivals, cls, After(window, buckets, arrivals)[cls].start)
    decreases |arrivals|
  {
    if arrivals != [] {
      var front, last := arrivals[..|arrivals| - 1], arrivals[|arrivals| - 1];
      CountIsTrue(window, buckets, front, cls);
      StartedBefore(window, buckets, front, cls, last.at);
      var b := After(window, buckets, front);
      assert After(window, buckets, arrivals) == b[last.cls := Counted(window, b[last.cls], last.at)];
    }
  }

  lemma {:induction false} SinceShrinks(arrivals: seq<Arrival>, cls: Class, from: real, later: real)
    requires from >= later
    ensures Since(arrivals, cls, from) <= Since(arrivals, cls, later)
  {
    if arrivals != [] { SinceShrinks(arrivals[..|arrivals| - 1], cls, from, later); }
  }

  /** A frame is refused only if as many of its own class as the limit came within the last window. */
  lemma RefusedOnlyOver(window: real, buckets: Buckets, before: seq<Arrival>, a: Arrival)
    requires Complete(buckets) && buckets[a.cls].count == 0 && Chronological(before + [a])
    requires forall i :: 0 <= i < |before| ==> buckets[a.cls].start <= before[i].at
    requires !Judged(window, After(window, buckets, before), a).1
    ensures Since(before, a.cls, a.at - window) >= Limit(a.cls)
  {
    assert Chronological(before) by {
      assert forall i :: 0 <= i < |before| ==> before[i] == (before + [a])[i];
    }
    var b := After(window, buckets, before)[a.cls];
    CountIsTrue(window, buckets, before, a.cls);
    SinceShrinks(before, a.cls, b.start, a.at - window);
  }

  // ------------------------------------------------------------------
  // The counters themselves.
  // ------------------------------------------------------------------

  class RateCounters {
    var count: map<Class, nat>
    var start: map<Class, real>

    ghost predicate Valid()
      reads this
    {
      forall cls: Class :: cls in count && cls in start
    }

    ghost function View(): Buckets
      reads this
      requires Valid()
    {
      map cls: Class | cls in count :: Bucket(count[cls], start[cls])
    }

    constructor (now: real)
      ensures Valid() && forall cls :: cls in View() ==> View()[cls] == Bucket(0, now)
    {
      count := map[Interactive := 0, Signal := 0, Bulk := 0, Http := 0, Cursor := 0, Stream := 0];
      start := map[Interactive := now, Signal := now, Bulk := now, Http := now, Cursor := now, Stream := now];
      new;
      forall cls: Class
        ensures cls in count && cls in start && count[cls] == 0 && start[cls] == now
      {
        match cls {
          case Interactive => case Signal => case Bulk => case Http => case Cursor => case Stream =>
        }
      }
    }

    method Allow(cls: Class, now: real) returns (ok: bool)
      requires Valid() && Complete(View())
      modifies this
      ensures Valid() && (View(), ok) == Judged(WINDOW, old(View()), Arrival(cls, now))
    {
      ghost var was := View();
      if now - start[cls] > WINDOW {
        count, start := count[cls := 0], start[cls := now];
      }
      count := count[cls := count[cls] + 1];
      ok := count[cls] <= Limit(cls);
      ghost var after := Judged(WINDOW, was, Arrival(cls, now)).0;
      assert after == was[cls := Bucket(count[cls], start[cls])];
      assert View() == after;
    }
  }
}

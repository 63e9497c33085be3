/**
 The token bucket, with each call taken as one step. Times are nanoseconds on one monotonic clock; the
 wall clock chooses the phase of the windows.

 `Bucket` is the limiter's value, on unbounded numbers. The functions on it are the specification of
 the class in module `Ratelimiter`, whose fields have the original's 64-bit width.
 */
module TokenBucket {

  const U64_MAX: nat := 0xFFFF_FFFF_FFFF_FFFF

  /** `lastTick` counts from `start`. */
  datatype Bucket = Bucket(
    available: nat, dropped: nat, lastTick: nat, start: nat,
    capacity: nat, refill: nat, interval: nat)

  datatype Outcome = Granted | Denied(wait: nat)

  /** The ticks that have passed and are not yet credited. */
  function Ticks(b: Bucket, now: nat): nat {
    if b.interval == 0 || now < b.start + b.lastTick then 0 else (now - b.start - b.lastTick) / b.interval
  }

  function Refilled(b: Bucket, now: nat): Bucket {
    var ticks := Ticks(b, now);
    if ticks == 0 then b
    else
      var total := b.available + ticks * b.refill;
      b.(lastTick := b.lastTick + ticks * b.interval,
         available := if total < b.capacity then total else b.capacity,
         dropped := if total > b.capacity then b.dropped + (total - b.capacity) else b.dropped)
  }

  function NextRefill(b: Bucket): nat {
    b.start + b.lastTick + b.interval
  }

  /** One call of `try_wait_n` that reads the clock at `t1` and, when it is denied, again at `t2`. */
  function TryWaitN(b: Bucket, tokens: nat, t1: nat, t2: nat): (Bucket, Outcome) {
    var r := Refilled(b, t1);
    if r.available >= tokens then (r.(available := r.available - tokens), Granted)
    else (r, Denied(if NextRefill(r) > t2 then NextRefill(r) - t2 else 0))
  }

  // ---------------------------------------------------------------- arithmetic

  lemma MulMonotone(a: nat, x: nat, y: nat)
    requires x <= y
    ensures a * x <= a * y
  {
  }

  lemma MulGap(a: int, b: int, d: nat)
    requires a > b
    ensures a * d >= b * d + d
  {
    MulMonotone(d, 1, a - b);
    assert a * d - b * d == d * (a - b);
  }

  lemma DivUnique(x: int, d: nat, q: int, r: int)
    requires d > 0 && x == q * d + r && 0 <= r < d
    ensures x / d == q
  {
    var q', r' := x / d, x % d;
    assert x == q' * d + r';
    if q > q' { MulGap(q, q', d); }
    if q < q' { MulGap(q', q, d); }
  }

  lemma DivSteps(x: int, k: int, d: nat)
    requires d > 0
    ensures (x - k * d) / d == x / d - k
  {
    var q, r := x / d, x % d;
    assert x == q * d + r;
    assert x - k * d == (q - k) * d + r;
    DivUnique(x - k * d, d, q - k, r);
  }

  lemma DivMonotone(x: int, y: int, d: nat)
    requires d > 0 && x <= y
    ensures x / d <= y / d
  {
    var qx, rx, qy, ry := x / d, x % d, y / d, y % d;
    assert x == qx * d + rx && y == qy * d + ry;
    if qx > qy { MulGap(qx, qy, d); }
  }

  // ---------------------------------------------------------------- one refill

  /** A refill credits whole ticks: nothing is lost or minted, the phase of the ticks is kept, the tick
      never passes the clock, and less than one interval is left uncredited. */
  lemma RefillConserves(b: Bucket, now: nat)
    ensures var r := Refilled(b, now);
            && r.available + r.dropped == b.available + b.dropped + Ticks(b, now) * b.refill
            && r.lastTick == b.lastTick + Ticks(b, now) * b.interval
            && (b.start + b.lastTick <= now ==> b.start + r.lastTick <= now)
            && (b.interval > 0 ==> now < NextRefill(r))
            && (b.available <= b.capacity ==> r.available <= b.capacity)
            && (r.dropped > b.dropped ==> r.available == b.capacity)
            && r == b.(available := r.available, dropped := r.dropped, lastTick := r.lastTick)
  {
  }

  /** A call credits the ticks that are due and then takes exactly what it asks for, if that much is there, and
      otherwise nothing. */
  lemma CallConserves(b: Bucket, tokens: nat, t1: nat, t2: nat)
    ensures var (r, outcome) := TryWaitN(b, tokens, t1, t2);
            var stock := b.available + Ticks(b, t1) * b.refill - (r.dropped - b.dropped);
            && b.dropped <= r.dropped && (r.dropped > b.dropped ==> stock == b.capacity)
            && (outcome == Granted <==> tokens <= stock)
            && r.available == stock - (if outcome == Granted then tokens else 0)
  {
    hide Ticks;
    RefillConserves(b, t1);
  }

  /** Crediting ticks earlier does not change how many there are. */
  lemma TicksSplit(b: Bucket, t: nat, end: nat)
    requires t <= end
    ensures Ticks(b, end) == Ticks(b, t) + Ticks(Refilled(b, t), end)
  {
    if b.interval > 0 && t >= b.start + b.lastTick {
      RefillConserves(b, t);
      DivSteps(end - b.start - b.lastTick, Ticks(b, t), b.interval);
    }
  }

  // ---------------------------------------------------------------- the sliding-window bound

  datatype Call = Call(tokens: nat, at: nat, deniedAt: nat)

  ghost predicate InTimeOrder(calls: seq<Call>) {
    forall i, j :: 0 <= i < j < |calls| ==> calls[i].at <= calls[j].at
  }

  function After(b: Bucket, calls: seq<Call>): Bucket
    decreases |calls|
  {
    if calls == [] then b
    else After(TryWaitN(b, calls[0].tokens, calls[0].at, calls[0].deniedAt).0, calls[1..])
  }

  function GrantedBy(b: Bucket, calls: seq<Call>): nat
    decreases |calls|
  {
    if calls == [] then 0
    else
      var (b', outcome) := TryWaitN(b, calls[0].tokens, calls[0].at, calls[0].deniedAt);
      (if outcome.Granted? then calls[0].tokens else 0) + GrantedBy(b', calls[1..])
  }

  /** Calls up to `end` are granted at most what is there and what the ticks up to `end` bring. */
  lemma {:induction false} GrantedFromStock(b: Bucket, calls: seq<Call>, end: nat)
    requires InTimeOrder(calls) && forall c :: c in calls ==> c.at <= end
    ensures GrantedBy(b, calls) <= b.available + b.refill * Ticks(b, end)
    decreases |calls|
  {
    if calls != [] {
      var c := calls[0];
      var (b', outcome) := TryWaitN(b, c.tokens, c.at, c.deniedAt);
      OneCallStock(b, c, end);
      GrantedFromStock(b', calls[1..], end);
    }
  }

  lemma OneCallStock(b: Bucket, c: Call, end: nat)
    requires c.at <= end
    ensures var (b', outcome) := TryWaitN(b, c.tokens, c.at, c.deniedAt);
            && b'.refill == b.refill
            && (if outcome.Granted? then c.tokens else 0) + b'.available + b.refill * Ticks(b', end)
               <= b.available + b.refill * Ticks(b, end)
  {
    var r := Refilled(b, c.at);
    RefillConserves(b, c.at);
    TicksSplit(b, c.at, end);
    Distribute(b.refill, Ticks(b, c.at), Ticks(r, end));
    assert Ticks(TryWaitN(b, c.tokens, c.at, c.deniedAt).0, end) == Ticks(r, end);
  }

  lemma Distribute(a: int, x: int, y: int)
    ensures a * (x + y) == a * x + a * y
  {
  }

  /** How many ticks a window of a given length can contain. */
  function TicksIn(window: nat, interval: nat): nat {
    if interval == 0 then 0 else (window + interval - 1) / interval
  }

  /** Calls inside one window get at most the capacity and one refill per tick of the window. */
  lemma WindowBound(b: Bucket, calls: seq<Call>, window: nat)
    requires b.available <= b.capacity && InTimeOrder(calls)
    requires calls != [] ==> calls[|calls| - 1].at <= calls[0].at + window
    ensures GrantedBy(b, calls) <= b.capacity + b.refill * TicksIn(window, b.interval)
  {
    hide Ticks, TicksIn;
    if calls != [] {
      var t, end := calls[0].at, calls[|calls| - 1].at;
      var r := Refilled(b, t);
      RefillConserves(b, t);
      TicksSplit(b, t, t);
      assert Refilled(r, t) == r;
      GrantedAfterRefill(b, calls);
      forall c | c in calls ensures c.at <= end {}
      GrantedFromStock(r, calls, end);
      TicksInWindow(r, t, end, window);
      MulMonotone(b.refill, Ticks(r, end), TicksIn(window, b.interval));
    }
  }

  /** When less than one interval is uncredited at the window's start, the window brings `TicksIn` at most. */
  lemma TicksInWindow(b: Bucket, t: nat, end: nat, window: nat)
    requires end <= t + window && (b.interval > 0 ==> t < NextRefill(b))
    ensures Ticks(b, end) <= TicksIn(window, b.interval)
  {
    if b.interval > 0 && end >= b.start + b.lastTick {
      DivMonotone(end - b.start - b.lastTick, window + b.interval - 1, b.interval);
    }
  }

  lemma GrantedAfterRefill(b: Bucket, calls: seq<Call>)
    requires calls != []
    ensures GrantedBy(Refilled(b, calls[0].at), calls) == GrantedBy(b, calls)
  {
    RefillConserves(b, calls[0].at);
    TicksSplit(b, calls[0].at, calls[0].at);
  }

  lemma {:induction false} StateAfter(b: Bucket, calls: seq<Call>)
    requires b.available <= b.capacity
    ensures var r := After(b, calls);
            r.available <= r.capacity == b.capacity && r.refill == b.refill && r.interval == b.interval
    decreases |calls|
  {
    if calls != [] {
      RefillConserves(b, calls[0].at);
      StateAfter(TryWaitN(b, calls[0].tokens, calls[0].at, calls[0].deniedAt).0, calls[1..]);
    }
  }

  /** The rate bound of calls that do not overlap: in any run, any consecutive calls that span at most `window` are
      granted at most capacity plus refill times the number of ticks the window can contain. `LimiterWindow` has
      the bound of calls that do. */
  lemma SlidingWindowBound(b: Bucket, before: seq<Call>, calls: seq<Call>, window: nat)
    requires b.available <= b.capacity && InTimeOrder(before + calls)
    requires calls != [] ==> calls[|calls| - 1].at <= calls[0].at + window
    ensures GrantedBy(After(b, before), calls) <= b.capacity + b.refill * TicksIn(window, b.interval)
  {
    StateAfter(b, before);
    assert InTimeOrder(calls) by {
      forall i, j | 0 <= i < j < |calls| ensures calls[i].at <= calls[j].at {
        assert (before + calls)[|before| + i] == calls[i] && (before + calls)[|before| + j] == calls[j];
      }
    }
    WindowBound(After(b, before), calls, window);
  }

  // ---------------------------------------------------------------- the bound is exact

  /** A call for one refill at every tick from number `from` to number `until`. */
  function AtEveryTick(refill: nat, interval: nat, from: nat, until: nat): seq<Call>
    decreases until - from
  {
    if from > until then [] else [Call(refill, from * interval, 0)] + AtEveryTick(refill, interval, from + 1, until)
  }

  lemma {:induction false} AtEveryTickTimes(refill: nat, interval: nat, from: nat, until: nat)
    requires from <= until + 1
    ensures |AtEveryTick(refill, interval, from, until)| == until + 1 - from
    ensures forall i :: 0 <= i < until + 1 - from ==>
              AtEveryTick(refill, interval, from, until)[i] == Call(refill, (from + i) * interval, 0)
    decreases until + 1 - from
  {
    if from <= until { AtEveryTickTimes(refill, interval, from + 1, until); }
  }

  /** An empty bucket credited up to tick `from - 1` grants one refill at each of the next ticks. */
  lemma {:induction false} EveryTickGrants(b: Bucket, from: nat, until: nat)
    requires b.available == 0 && b.start == 0 && b.interval > 0 && b.refill <= b.capacity
    requires 0 < from <= until + 1 && b.lastTick == (from - 1) * b.interval
    ensures GrantedBy(b, AtEveryTick(b.refill, b.interval, from, until)) == b.refill * (until + 1 - from)
    decreases until + 1 - from
  {
    hide TryWaitN;
    if from <= until {
      OneTickGrants(b, from);
      EveryTickGrants(b.(lastTick := from * b.interval), from + 1, until);
      Distribute(b.refill, until - from, 1);
    }
  }

  lemma OneTickGrants(b: Bucket, from: nat)
    requires b.available == 0 && b.start == 0 && b.interval > 0 && b.refill <= b.capacity
    requires from > 0 && b.lastTick == (from - 1) * b.interval
    ensures TryWaitN(b, b.refill, from * b.interval, 0) == (b.(lastTick := from * b.interval), Granted)
  {
    var d := b.interval;
    assert from * d == (from - 1) * d + d;
    DivUnique(d, d, 1, 0);
    assert Ticks(b, from * d) == 1;
  }

  ghost function FullBucket(capacity: nat, refill: nat, interval: nat): Bucket {
    Bucket(capacity, 0, 0, 0, capacity, refill, interval)
  }

  /** The run that reaches the bound: everything just before the first tick, then every tick. */
  ghost function BusyCalls(capacity: nat, refill: nat, interval: nat, window: nat): seq<Call>
    requires interval > 0
  {
    [Call(capacity, interval - 1, 0)] + AtEveryTick(refill, interval, 1, TicksIn(window, interval))
  }

  /** For every configuration and window there are calls inside one window that are granted exactly the
      bound. */
  lemma BoundIsReached(capacity: nat, refill: nat, interval: nat, window: nat)
    requires refill <= capacity && interval > 0
    ensures var calls := BusyCalls(capacity, refill, interval, window);
            && InTimeOrder(calls) && calls[|calls| - 1].at <= calls[0].at + window
            && GrantedBy(FullBucket(capacity, refill, interval), calls)
               == capacity + refill * TicksIn(window, interval)
  {
    BusyCallsFit(capacity, refill, interval, window);
    BusyCallsAreGranted(capacity, refill, interval, window);
  }

  lemma BusyCallsFit(capacity: nat, refill: nat, interval: nat, window: nat)
    requires interval > 0
    ensures var calls := BusyCalls(capacity, refill, interval, window);
            InTimeOrder(calls) && calls[|calls| - 1].at <= calls[0].at + window
  {
    hide AtEveryTick;
    var k := TicksIn(window, interval);
    var ticks := AtEveryTick(refill, interval, 1, k);
    var calls := BusyCalls(capacity, refill, interval, window);
    AtEveryTickTimes(refill, interval, 1, k);
    forall i, j | 0 <= i < j < |calls| ensures calls[i].at <= calls[j].at {
      assert calls[j] == ticks[j - 1];
      if i > 0 {
        assert calls[i] == ticks[i - 1];
        MulMonotone(interval, i, j);
      } else {
        MulMonotone(interval, 1, j);
      }
    }
    if k > 0 {
      assert calls[|calls| - 1] == ticks[k - 1];
      var x := window + interval - 1;
      assert x == x / interval * interval + x % interval;
    }
  }

  lemma BusyCallsAreGranted(capacity: nat, refill: nat, interval: nat, window: nat)
    requires refill <= capacity && interval > 0
    ensures GrantedBy(FullBucket(capacity, refill, interval), BusyCalls(capacity, refill, interval, window))
            == capacity + refill * TicksIn(window, interval)
  {
    hide AtEveryTick, TicksIn;
    var k := TicksIn(window, interval);
    var b := FullBucket(capacity, refill, interval);
    assert Ticks(b, interval - 1) == 0 by { DivUnique(interval - 1, interval, 0, interval - 1); }
    var b' := b.(available := 0);
    assert TryWaitN(b, capacity, interval - 1, 0) == (b', Granted);
    EveryTickGrants(b', 1, k);
    assert BusyCalls(capacity, refill, interval, window)[1..] == AtEveryTick(refill, interval, 1, k);
  }

  ghost predicate Configured(b: Bucket, capacity: nat, refill: nat, interval: nat) {
    b.capacity == capacity && b.refill == refill && b.interval == interval && b.available <= capacity
  }

  ghost predicate WithinWindow(calls: seq<Call>, window: nat) {
    InTimeOrder(calls) && (calls != [] ==> calls[|calls| - 1].at <= calls[0].at + window)
  }

  /** The crate's documentation promises that a sliding window of one interval never grants more than
      `max_tokens`. To calls that do not overlap, a limiter keeps that promise for a window exactly when it never
      refills or the window is an instant; shared between threads, not even then (`LimiterWindow`). */
  lemma DocumentedWindowIff(capacity: nat, refill: nat, interval: nat, window: nat)
    requires refill <= capacity
    ensures (forall b, calls :: Configured(b, capacity, refill, interval) && WithinWindow(calls, window) ==>
               GrantedBy(b, calls) <= capacity)
       <==> refill == 0 || window == 0 || interval == 0
  {
    if refill > 0 && window > 0 && interval > 0 {
      BoundIsReached(capacity, refill, interval, window);
      var calls := BusyCalls(capacity, refill, interval, window);
      assert WithinWindow(calls, window);
      assert Configured(FullBucket(capacity, refill, interval), capacity, refill, interval);
      DivMonotone(interval, window + interval - 1, interval);
      DivUnique(interval, interval, 1, 0);
      MulMonotone(refill, 1, TicksIn(window, interval));
    } else {
      if interval > 0 && window == 0 { DivUnique(interval - 1, interval, 0, interval - 1); }
      forall b, calls' | Configured(b, capacity, refill, interval) && WithinWindow(calls', window)
        ensures GrantedBy(b, calls') <= capacity
      {
        WindowBound(b, calls', window);
      }
    }
  }

  // ---------------------------------------------------------------- the wait hint

  /** After a denial with hint `d`: the hint ends at the next tick (or now, if that has already passed)
      and is at most one interval; until then no retry finds more tokens; from then on a retry for at
      most one refill succeeds. */
  lemma WaitHintIsExact(b: Bucket, tokens: nat, t1: nat, t2: nat, retry: nat, more: nat, t3: nat)
    requires b.interval > 0 && b.refill <= b.capacity && b.start + b.lastTick <= t1 <= t2 <= t3
    requires TryWaitN(b, tokens, t1, t2).1.Denied?
    ensures var (b', outcome) := TryWaitN(b, tokens, t1, t2);
            var d := outcome.wait;
            && d <= b.interval && (t1 == t2 ==> d > 0)
            && (t3 < t2 + d && more >= tokens ==> TryWaitN(b', more, t3, t3) == (b', Denied(t2 + d - t3)))
            && (t3 >= t2 + d && retry <= b.refill ==> TryWaitN(b', retry, t3, t3).1 == Granted)
  {
    hide Ticks;
    RefillConserves(b, t1);
    var (b', outcome) := TryWaitN(b, tokens, t1, t2);
    if t3 < NextRefill(b') { NoTickBeforeNext(b', t3); } else { RetryFindsRefill(b', t3); }
  }

  // ---------------------------------------------------------------- alignment

  datatype Alignment = Interval | Minute | Second

  /** The length of a window in nanoseconds; 0 when there are no windows. */
  function Unit(alignment: Alignment, interval: nat): nat {
    match alignment
    case Interval => interval
    case Minute => 60_000_000_000
    case Second => 1_000_000_000
  }

  /** How far into its window a wall-clock time lies. */
  function Phase(alignment: Alignment, interval: nat, epoch: nat): nat {
    if Unit(alignment, interval) == 0 then 0 else epoch % Unit(alignment, interval)
  }

  /** Synchronised at monotonic time `now`, when the wall clock shows `epoch`. */
  function Synchronised(b: Bucket, alignment: Alignment, now: nat, epoch: nat): Bucket
    requires Phase(alignment, b.interval, epoch) <= now
  {
    var phase := Phase(alignment, b.interval, epoch);
    b.(start := now - phase, lastTick := phase)
  }

  /** A wall-clock time at which a window starts. */
  predicate OnWindowStart(alignment: Alignment, interval: nat, time: nat) {
    Unit(alignment, interval) > 0 && time % Unit(alignment, interval) == 0
  }

  /** Synchronising makes nothing due. Both the start and the last tick move by the phase, so the next refill
      comes one interval after the call whatever the phase is. It falls on a window's start exactly when the phase
      and one interval together do: with windows of one interval, only when the call did. */
  lemma SynchronisedTicks(b: Bucket, alignment: Alignment, now: nat, epoch: nat)
    requires Phase(alignment, b.interval, epoch) <= now
    ensures var r := Synchronised(b, alignment, now, epoch);
            var refillAt := epoch + b.interval;
            && Ticks(r, now) == 0 && NextRefill(r) == now + b.interval
            && r.available == b.available && r.dropped == b.dropped
            && (OnWindowStart(alignment, b.interval, refillAt)
                <==> OnWindowStart(alignment, b.interval, Phase(alignment, b.interval, epoch) + b.interval))
            && (alignment.Interval? ==>
                  (OnWindowStart(alignment, b.interval, refillAt) <==> OnWindowStart(alignment, b.interval, epoch)))
  {
    var (d, unit) := (b.interval, Unit(alignment, b.interval));
    if d > 0 { DivUnique(0, d, 0, 0); }
    if unit > 0 { ModPlus(epoch, d, unit); }
    if alignment.Interval? && d > 0 { ModPlus(epoch, d, d); ModSelf(epoch % d, d); }
  }

  lemma ModPlus(x: nat, y: nat, d: nat)
    requires d > 0
    ensures (x + y) % d == (x % d + y) % d
  {
    var k := x / d;
    assert x + y - k * d == x % d + y;
    DivSteps(x + y, k, d);
    assert x + y == (x + y) / d * d + (x + y) % d;
    assert x % d + y == (x % d + y) / d * d + (x % d + y) % d;
    assert ((x + y) / d - k) * d == (x + y) / d * d - k * d;
  }

  lemma ModSelf(r: nat, d: nat)
    requires d > 0 && r < d
    ensures (r + d) % d == r
  {
    DivUnique(r + d, d, 1, r);
    assert r + d == (r + d) / d * d + (r + d) % d;
  }

  lemma NoTickBeforeNext(b: Bucket, now: nat)
    requires now < NextRefill(b)
    ensures Ticks(b, now) == 0
  {
  }

  lemma RetryFindsRefill(b: Bucket, now: nat)
    requires b.interval > 0 && b.refill <= b.capacity && now >= NextRefill(b)
    ensures Refilled(b, now).available >= b.refill
  {
  }
}

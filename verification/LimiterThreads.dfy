/**
 The token bucket shared between threads: any number of threads run `try_wait_n`, each load,
 compare-and-swap or fetch-and-add being one step, in any interleaving and with a clock that moves at any
 time. The parameters stay fixed. Memory is sequentially consistent.
 */
module LimiterThreads {
  import opened TokenBucket

  /** Where a thread stands inside `try_wait_n(tokens)`; each name says what it is about to do. A thread that is
      `Idle` or was `Refused`, at time `now` with the hint `wait`, may call again. */
  datatype Thread =
    | Idle
    | LoadTick(tokens: nat)
    | ReadClock(tokens: nat, last: nat)
    | ClaimTicks(tokens: nat, last: nat, ticks: nat)
    | LoadForRefill(tokens: nat, add: nat)
    | AddTokens(tokens: nat, add: nat, current: nat)
    | RecordDrop(tokens: nat, over: nat)
    | LoadForTake(tokens: nat)
    | TakeTokens(tokens: nat, current: nat)
    | ReadNow
    | LoadNext(now: nat)
    | Refused(now: nat, wait: nat)

  datatype Config = Config(capacity: nat, refill: nat, interval: nat)

  /** Times count from `start`. `acquired` and `claims` are bookkeeping: tokens granted so far and
      ticks claimed so far. */
  datatype Shared = Shared(
    available: nat, dropped: nat, lastTick: nat, clock: nat,
    threads: seq<Thread>, acquired: nat, claims: nat)

  datatype Action =
    | Tick(elapsed: nat)
    | Spawn
    | Call(t: nat, tokens: nat)
    | Advance(t: nat)
    | SpuriousFailure(t: nat)

  function Go(s: Shared, t: nat, next: Thread): Shared
    requires t < |s.threads|
  {
    s.(threads := s.threads[t := next])
  }

  function AdvanceStep(c: Config, s: Shared, t: nat): Shared
    requires t < |s.threads|
  {
    match s.threads[t]
    case Idle => s
    case LoadTick(n) =>
      if c.interval == 0 then Go(s, t, LoadForTake(n)) else Go(s, t, ReadClock(n, s.lastTick))
    case ReadClock(n, last) =>
      var ticks := if c.interval == 0 || s.clock < last then 0 else (s.clock - last) / c.interval;
      if ticks == 0 then Go(s, t, LoadForTake(n)) else Go(s, t, ClaimTicks(n, last, ticks))
    case ClaimTicks(n, last, ticks) =>
      if s.lastTick == last then
        Go(s, t, LoadForRefill(n, ticks * c.refill)).(
          lastTick := last + ticks * c.interval, claims := s.claims + ticks)
      else Go(s, t, LoadForTake(n))
    case LoadForRefill(n, add) => Go(s, t, AddTokens(n, add, s.available))
    case AddTokens(n, add, current) =>
      if s.available != current then Go(s, t, AddTokens(n, add, s.available))
      else if current + add > c.capacity then
        Go(s, t, RecordDrop(n, current + add - c.capacity)).(available := c.capacity)
      else Go(s, t, LoadForTake(n)).(available := current + add)
    case RecordDrop(n, over) => Go(s, t, LoadForTake(n)).(dropped := s.dropped + over)
    case LoadForTake(n) => if s.available >= n then Go(s, t, TakeTokens(n, s.available)) else Go(s, t, ReadNow)
    case TakeTokens(n, current) =>
      if s.available == current && current >= n then
        Go(s, t, Idle).(available := current - n, acquired := s.acquired + n)
      else Go(s, t, LoadForTake(n))
    case ReadNow => Go(s, t, LoadNext(s.clock))
    case LoadNext(now) =>
      var next := s.lastTick + c.interval;
      Go(s, t, Refused(now, if next > now then next - now else 0))
    case Refused(_, _) => s
  }

  predicate MayCall(t: Thread) {
    t.Idle? || t.Refused?
  }

  /** Actions that do not apply change nothing. */
  function Step(c: Config, s: Shared, a: Action): Shared {
    match a
    case Tick(elapsed) => s.(clock := s.clock + elapsed)
    case Spawn => s.(threads := s.threads + [Idle])
    case Call(t, tokens) => if t < |s.threads| && MayCall(s.threads[t]) then Go(s, t, LoadTick(tokens)) else s
    case Advance(t) => if t < |s.threads| then AdvanceStep(c, s, t) else s
    case SpuriousFailure(t) =>
      if t < |s.threads| && s.threads[t].AddTokens? then
        Go(s, t, AddTokens(s.threads[t].tokens, s.threads[t].add, s.available))
      else s
  }

  function Run(c: Config, s: Shared, actions: seq<Action>): Shared
    decreases |actions|
  {
    if actions == [] then s else Run(c, Step(c, s, actions[0]), actions[1..])
  }

  /** Tokens a thread has claimed and not yet added, or overflowed and not yet recorded. */
  function InFlight(t: Thread): nat {
    match t
    case LoadForRefill(_, add) => add
    case AddTokens(_, add, _) => add
    case RecordDrop(_, over) => over
    case _ => 0
  }

  function AllInFlight(threads: seq<Thread>): nat {
    if threads == [] then 0
    else AllInFlight(threads[..|threads| - 1]) + InFlight(threads[|threads| - 1])
  }

  lemma {:induction false} InFlightUpdate(threads: seq<Thread>, t: nat, next: Thread)
    requires t < |threads|
    ensures AllInFlight(threads[t := next]) == AllInFlight(threads) - InFlight(threads[t]) + InFlight(next)
    ensures InFlight(threads[t]) <= AllInFlight(threads)
  {
    var n := |threads| - 1;
    if t == n {
      assert threads[t := next][..n] == threads[..n];
    } else {
      InFlightUpdate(threads[..n], t, next);
      assert threads[t := next][..n] == threads[..n][t := next];
    }
  }

  lemma InFlightSpawn(threads: seq<Thread>)
    ensures AllInFlight(threads + [Idle]) == AllInFlight(threads)
  {
  }

  // ---------------------------------------------------------------- the invariant

  /** Everything that ever entered the bucket. */
  function Supply(c: Config, origin: Shared, s: Shared): nat {
    origin.available + origin.dropped + origin.acquired + AllInFlight(origin.threads)
    + (if s.claims >= origin.claims then s.claims - origin.claims else 0) * c.refill
  }

  ghost predicate Balanced(c: Config, origin: Shared, s: Shared) {
    && s.claims >= origin.claims
    && s.available + s.acquired + s.dropped + AllInFlight(s.threads) == Supply(c, origin, s)
    && s.lastTick == origin.lastTick + (s.claims - origin.claims) * c.interval
  }

  /** A claim never passes the clock, a refill in progress never computes more than the supply, and a hint never
      ends later than one interval from now. */
  ghost predicate ThreadGood(c: Config, origin: Shared, s: Shared, t: Thread) {
    match t
    case ClaimTicks(_, last, ticks) => ticks > 0 && last + ticks * c.interval <= s.clock
    case AddTokens(_, add, current) => current + add <= Supply(c, origin, s)
    case TakeTokens(n, current) => n <= current
    case LoadNext(now) => now <= s.clock
    case Refused(now, wait) => now <= s.clock && (wait > 0 ==> now + wait <= s.clock + c.interval)
    case _ => true
  }

  ghost predicate Inv(c: Config, origin: Shared, s: Shared) {
    && Balanced(c, origin, s)
    && origin.lastTick <= s.lastTick <= s.clock
    && (origin.available <= c.capacity ==> s.available <= c.capacity)
    && forall t :: 0 <= t < |s.threads| ==> ThreadGood(c, origin, s, s.threads[t])
  }

  /** A limiter at rest: its tick is not ahead of the clock and no call is in progress. */
  ghost predicate AtRest(s: Shared) {
    s.lastTick <= s.clock && forall t :: 0 <= t < |s.threads| ==> s.threads[t].Idle?
  }

  lemma RestIsGood(c: Config, s: Shared)
    requires AtRest(s)
    ensures Inv(c, s, s)
  {
  }

  lemma DivTimes(x: nat, d: nat)
    requires d > 0
    ensures x / d * d <= x
  {
  }

  lemma SupplyGrows(c: Config, origin: Shared, s: Shared, ticks: nat)
    requires s.claims >= origin.claims
    ensures Supply(c, origin, s.(claims := s.claims + ticks)) == Supply(c, origin, s) + ticks * c.refill
    ensures (s.claims + ticks - origin.claims) * c.interval == (s.claims - origin.claims) * c.interval + ticks * c.interval
  {
  }

  /** A step that leaves ticks and clock alone and moves tokens between the places that are counted. */
  lemma MoveKeepsInv(c: Config, origin: Shared, s: Shared, r: Shared, t: nat, next: Thread)
    requires Inv(c, origin, s) && t < |s.threads| && r.threads == s.threads[t := next]
    requires r.lastTick == s.lastTick && r.clock == s.clock && r.claims == s.claims
    requires r.available + r.acquired + r.dropped + InFlight(next)
          == s.available + s.acquired + s.dropped + InFlight(s.threads[t])
    requires r.available <= s.available || r.available <= c.capacity
    requires ThreadGood(c, origin, s, next)
    ensures Inv(c, origin, r)
  {
    hide AllInFlight;
    InFlightUpdate(s.threads, t, next);
    assert Supply(c, origin, r) == Supply(c, origin, s);
    forall u | 0 <= u < |r.threads| ensures ThreadGood(c, origin, r, r.threads[u]) {
      if u != t { assert ThreadGood(c, origin, s, s.threads[u]); }
    }
  }

  lemma ReadClockKeepsInv(c: Config, origin: Shared, s: Shared, t: nat)
    requires Inv(c, origin, s) && t < |s.threads| && s.threads[t].ReadClock?
    ensures Inv(c, origin, AdvanceStep(c, s, t))
  {
    hide AllInFlight, Supply, Balanced;
    var ReadClock(n, last) := s.threads[t];
    var r := AdvanceStep(c, s, t);
    if c.interval > 0 && s.clock >= last { DivTimes(s.clock - last, c.interval); }
    MoveKeepsInv(c, origin, s, r, t, r.threads[t]);
  }

  lemma ClaimKeepsInv(c: Config, origin: Shared, s: Shared, t: nat)
    requires Inv(c, origin, s) && t < |s.threads| && s.threads[t].ClaimTicks?
    ensures Inv(c, origin, AdvanceStep(c, s, t)) && Grows(s, AdvanceStep(c, s, t))
  {
    hide AllInFlight;
    var ClaimTicks(n, last, ticks) := s.threads[t];
    var r := AdvanceStep(c, s, t);
    assert ThreadGood(c, origin, s, s.threads[t]);
    if s.lastTick != last {
      MoveKeepsInv(c, origin, s, r, t, LoadForTake(n));
    } else {
      SupplyGrows(c, origin, s, ticks);
      MulMonotone(ticks, 0, c.interval);
      InFlightUpdate(s.threads, t, r.threads[t]);
      assert Supply(c, origin, r) == Supply(c, origin, s) + ticks * c.refill;
      forall u | 0 <= u < |r.threads| ensures ThreadGood(c, origin, r, r.threads[u]) {
        if u != t { assert ThreadGood(c, origin, s, s.threads[u]); }
      }
    }
  }

  lemma AdvanceKeepsInv(c: Config, origin: Shared, s: Shared, t: nat)
    requires Inv(c, origin, s) && t < |s.threads|
    ensures Inv(c, origin, AdvanceStep(c, s, t)) && Grows(s, AdvanceStep(c, s, t))
  {
    hide AllInFlight, Supply;
    if s.threads[t].ReadClock? {
      ReadClockKeepsInv(c, origin, s, t);
    } else if s.threads[t].ClaimTicks? {
      ClaimKeepsInv(c, origin, s, t);
    } else if !MayCall(s.threads[t]) {
      var r := AdvanceStep(c, s, t);
      assert ThreadGood(c, origin, s, s.threads[t]);
      SupplyBounds(c, origin, s, t);
      MoveKeepsInv(c, origin, s, r, t, r.threads[t]);
    }
  }

  lemma SupplyBounds(c: Config, origin: Shared, s: Shared, t: nat)
    requires Balanced(c, origin, s) && t < |s.threads|
    ensures s.available + s.dropped + InFlight(s.threads[t]) <= Supply(c, origin, s)
  {
    InFlightUpdate(s.threads, t, Idle);
  }

  ghost predicate Grows(s: Shared, r: Shared) {
    s.lastTick <= r.lastTick && s.clock <= r.clock && s.dropped <= r.dropped && s.acquired <= r.acquired
    && s.claims <= r.claims
  }

  lemma StepKeepsInv(c: Config, origin: Shared, s: Shared, a: Action)
    requires Inv(c, origin, s)
    ensures Inv(c, origin, Step(c, s, a)) && Grows(s, Step(c, s, a))
  {
    hide AllInFlight, AdvanceStep;
    match a
    case Advance(t) => if t < |s.threads| { AdvanceKeepsInv(c, origin, s, t); }
    case Spawn => InFlightSpawn(s.threads);
    case Call(t, tokens) =>
      if t < |s.threads| && MayCall(s.threads[t]) {
        MoveKeepsInv(c, origin, s, Step(c, s, a), t, LoadTick(tokens));
      }
    case SpuriousFailure(t) =>
      if t < |s.threads| && s.threads[t].AddTokens? {
        SupplyBounds(c, origin, s, t);
        MoveKeepsInv(c, origin, s, Step(c, s, a), t, Step(c, s, a).threads[t]);
      }
    case Tick(_) =>
  }

  lemma {:induction false} RunKeepsInv(c: Config, origin: Shared, s: Shared, actions: seq<Action>)
    requires Inv(c, origin, s)
    ensures Inv(c, origin, Run(c, s, actions)) && Grows(s, Run(c, s, actions))
    decreases |actions|
  {
    hide Inv, Step;
    if actions != [] {
      StepKeepsInv(c, origin, s, actions[0]);
      RunKeepsInv(c, origin, Step(c, s, actions[0]), actions[1..]);
    }
  }

  // ---------------------------------------------------------------- what every run keeps

  /** The balance may be drawn up afresh at any point of a run. */
  lemma Rebase(c: Config, origin: Shared, s: Shared)
    requires Inv(c, origin, s)
    ensures Inv(c, s, s)
  {
    hide AllInFlight;
    forall t | 0 <= t < |s.threads| ensures ThreadGood(c, s, s, s.threads[t]) {
      assert ThreadGood(c, origin, s, s.threads[t]);
    }
  }

  /** Conservation and the rate bound under any interleaving, between any two points of a run: what is available,
      acquired, dropped and in flight at the second is what was available and in flight at the first and one
      refill per interval that the tick has advanced; so no more than that is acquired in between. */
  lemma TokensBetween(c: Config, start: Shared, before: seq<Action>, during: seq<Action>)
    requires AtRest(start) && c.interval > 0
    ensures var s := Run(c, start, before);
            var r := Run(c, s, during);
            var supply := s.available + AllInFlight(s.threads) + c.refill * ((r.lastTick - s.lastTick) / c.interval);
            && Grows(s, r) && r.lastTick <= r.clock && (r.lastTick - s.lastTick) % c.interval == 0
            && r.available + (r.acquired - s.acquired) + (r.dropped - s.dropped) + AllInFlight(r.threads) == supply
            && r.acquired - s.acquired <= supply
  {
    hide AllInFlight, Run;
    RestIsGood(c, start);
    RunKeepsInv(c, start, start, before);
    var s := Run(c, start, before);
    Rebase(c, start, s);
    RunKeepsInv(c, s, s, during);
    var r := Run(c, s, during);
    ClaimsAreTicks(r.lastTick - s.lastTick, r.claims - s.claims, c.interval);
  }

  /** From a limiter at rest: available, acquired, dropped and in flight add up to the initial tokens and one refill
      per interval that the tick has advanced; the tick keeps its phase and never passes the clock; and the
      bucket never exceeds its capacity. */
  lemma TokensAreConserved(c: Config, s: Shared, actions: seq<Action>)
    requires AtRest(s) && c.interval > 0
    ensures var r := Run(c, s, actions);
            && r.available + (r.acquired - s.acquired) + (r.dropped - s.dropped) + AllInFlight(r.threads)
               == s.available + c.refill * ((r.lastTick - s.lastTick) / c.interval)
            && s.lastTick <= r.lastTick <= r.clock && (r.lastTick - s.lastTick) % c.interval == 0
            && (s.available <= c.capacity ==> r.available <= c.capacity)
  {
    hide AllInFlight;
    assert Run(c, s, []) == s;
    TokensBetween(c, s, [], actions);
    RestIsGood(c, s);
    RunKeepsInv(c, s, s, actions);
    NoneInFlight(s.threads);
  }

  lemma ClaimsAreTicks(x: nat, k: nat, d: nat)
    requires d > 0 && x == k * d
    ensures x / d == k && x % d == 0
  {
    DivUnique(x, d, k, 0);
    assert x == x / d * d + x % d;
  }

  lemma {:induction false} NoneInFlight(threads: seq<Thread>)
    requires forall t :: 0 <= t < |threads| ==> threads[t].Idle?
    ensures AllInFlight(threads) == 0
  {
    if threads != [] { NoneInFlight(threads[..|threads| - 1]); }
  }

  /** Every number of tokens that a thread is about to compute is at most the initial tokens plus one refill per
      interval that the clock has advanced, and every time at most the clock plus one interval. So 64
      bits suffice in a run as long as they hold these two. */
  lemma NothingOverflows(c: Config, s: Shared, actions: seq<Action>, t: nat)
    requires AtRest(s) && c.interval > 0 && t < |Run(c, s, actions).threads|
    ensures var r := Run(c, s, actions);
            var most := s.available + s.dropped + s.acquired + c.refill * ((r.clock - s.lastTick) / c.interval);
            && r.available <= most && r.dropped <= most
            && match r.threads[t] {
                 case ClaimTicks(_, last, ticks) => last + ticks * c.interval <= r.clock
                 case LoadForRefill(_, add) => add <= most
                 case AddTokens(_, add, current) => current + add <= most
                 case RecordDrop(_, over) => r.dropped + over <= most
                 case LoadNext(now) => now <= r.clock && r.lastTick + c.interval <= r.clock + c.interval
                 case Refused(now, wait) => wait > 0 ==> now + wait <= r.clock + c.interval
                 case _ => true
               }
  {
    hide AllInFlight, Run;
    RestIsGood(c, s);
    RunKeepsInv(c, s, s, actions);
    var r := Run(c, s, actions);
    NoneInFlight(s.threads);
    SupplyBounds(c, s, r, t);
    var k := r.claims - s.claims;
    assert ThreadGood(c, s, r, r.threads[t]);
    ClaimsAreTicks(r.lastTick - s.lastTick, k, c.interval);
    DivMonotone(r.lastTick - s.lastTick, r.clock - s.lastTick, c.interval);
    MulMonotone(c.refill, k, (r.clock - s.lastTick) / c.interval);
  }

  // ---------------------------------------------------------------- a call without interference

  ghost function AsBucket(c: Config, s: Shared): Bucket {
    Bucket(s.available, s.dropped, s.lastTick, 0, c.capacity, c.refill, c.interval)
  }

  function Advances(c: Config, s: Shared, t: nat, k: nat): (r: Shared)
    requires t < |s.threads|
    ensures |r.threads| == |s.threads|
    decreases k
  {
    if k == 0 then s else Advances(c, AdvanceStep(c, s, t), t, k - 1)
  }

  lemma {:induction false} RestingStays(c: Config, s: Shared, t: nat, k: nat)
    requires t < |s.threads| && MayCall(s.threads[t])
    ensures Advances(c, s, t, k) == s
    decreases k
  {
    if k > 0 { RestingStays(c, s, t, k - 1); }
  }

  /** The second half of a call: take the tokens, or be refused with the time to the next tick. */
  lemma SoloTake(c: Config, s: Shared, t: nat, n: nat, k: nat)
    requires t < |s.threads| && s.threads[t] == LoadForTake(n) && k >= 3
    ensures var r := Advances(c, s, t, k);
            var next := s.lastTick + c.interval;
            r == if s.available >= n
                 then Go(s, t, Idle).(available := s.available - n, acquired := s.acquired + n)
                 else Go(s, t, Refused(s.clock, if next > s.clock then next - s.clock else 0))
  {
    var s1 := AdvanceStep(c, s, t);
    var s2 := AdvanceStep(c, s1, t);
    var s3 := AdvanceStep(c, s2, t);
    if s.available >= n {
      assert s2.threads == s.threads[t := Idle];
    } else {
      assert s2.threads == s.threads[t := LoadNext(s.clock)];
      var next := s.lastTick + c.interval;
      assert s3.threads[t] == Refused(s.clock, if next > s.clock then next - s.clock else 0);
      assert s3.threads == s.threads[t := s3.threads[t]];
    }
    assert Advances(c, s, t, k) == Advances(c, s1, t, k - 1) == Advances(c, s2, t, k - 2) == Advances(c, s3, t, k - 3);
    RestingStays(c, s3, t, k - 3);
  }

  /** The middle of a call that has claimed ticks: add the tokens, capped, and record the overflow. */
  lemma SoloAdd(c: Config, s: Shared, t: nat, n: nat, add: nat)
    requires t < |s.threads| && s.threads[t] == LoadForRefill(n, add)
    ensures exists k: nat :: 2 <= k <= 3 && Advances(c, s, t, k) ==
              var total := s.available + add;
              Go(s, t, LoadForTake(n)).(
                available := if total > c.capacity then c.capacity else total,
                dropped := if total > c.capacity then s.dropped + (total - c.capacity) else s.dropped)
  {
    var total := s.available + add;
    var s1 := AdvanceStep(c, s, t);
    var s2 := AdvanceStep(c, s1, t);
    assert s1.threads == s.threads[t := AddTokens(n, add, s.available)];
    if total > c.capacity {
      var s3 := AdvanceStep(c, s2, t);
      assert s3.threads == s.threads[t := LoadForTake(n)];
      assert Advances(c, s, t, 3) == Advances(c, s1, t, 2) == Advances(c, s2, t, 1) == s3;
    } else {
      assert s2.threads == s.threads[t := LoadForTake(n)];
      assert Advances(c, s, t, 2) == Advances(c, s1, t, 1) == s2;
    }
  }

  lemma {:induction false} AdvancesCompose(c: Config, s: Shared, t: nat, j: nat, k: nat)
    requires t < |s.threads|
    ensures Advances(c, s, t, j + k) == Advances(c, Advances(c, s, t, j), t, k)
    decreases j
  {
    if j > 0 { AdvancesCompose(c, AdvanceStep(c, s, t), t, j - 1, k); }
  }

  /** The first half of a call: after at most six steps the thread is about to take, and the shared
      fields are those of one atomic refill. */
  lemma SoloRefill(c: Config, s: Shared, t: nat, n: nat)
    requires t < |s.threads| && s.threads[t] == LoadTick(n)
    ensures exists k: nat :: k <= 6 && var r := Advances(c, s, t, k);
                                  && AsBucket(c, r) == Refilled(AsBucket(c, s), s.clock)
                                  && r.threads == s.threads[t := LoadForTake(n)] && r.acquired == s.acquired
  {
    var s1 := AdvanceStep(c, s, t);
    if c.interval == 0 {
      assert Advances(c, s, t, 1) == s1;
    } else {
      var s2 := AdvanceStep(c, s1, t);
      assert s1.threads == s.threads[t := ReadClock(n, s.lastTick)];
      assert Advances(c, s, t, 2) == Advances(c, s1, t, 1) == s2;
      var ticks := Ticks(AsBucket(c, s), s.clock);
      if ticks == 0 {
        assert s2.threads == s.threads[t := LoadForTake(n)];
      } else {
        assert s2.threads == s.threads[t := ClaimTicks(n, s.lastTick, ticks)];
        var s3 := AdvanceStep(c, s2, t);
        assert s3.threads == s.threads[t := LoadForRefill(n, ticks * c.refill)];
        SoloAdd(c, s3, t, n, ticks * c.refill);
        var k: nat :| 2 <= k <= 3 && Advances(c, s3, t, k) ==
          var total := s3.available + ticks * c.refill;
          Go(s3, t, LoadForTake(n)).(
            available := if total > c.capacity then c.capacity else total,
            dropped := if total > c.capacity then s3.dropped + (total - c.capacity) else s3.dropped);
        assert Advances(c, s, t, 3) == Advances(c, s2, t, 1) == s3;
        AdvancesCompose(c, s, t, 3, k);
        assert Advances(c, s, t, 3 + k).threads == s.threads[t := LoadForTake(n)];
      }
    }
  }

  /** A call that no other thread interrupts does exactly what the one-step call of `TokenBucket` does, its
      hint included. */
  lemma SoloCallIsAtomic(c: Config, s: Shared, t: nat, n: nat)
    requires t < |s.threads| && MayCall(s.threads[t])
    ensures var r := Advances(c, Step(c, s, Action.Call(t, n)), t, 9);
            var (b, outcome) := TryWaitN(AsBucket(c, s), n, s.clock, s.clock);
            && AsBucket(c, r) == b
            && r.threads == s.threads[t := if outcome.Granted? then Idle else Refused(s.clock, outcome.wait)]
            && r.acquired == s.acquired + (if outcome.Granted? then n else 0)
  {
    hide Refilled, Advances, AdvanceStep;
    var s1 := Step(c, s, Action.Call(t, n));
    SoloRefill(c, s1, t, n);
    var k: nat :| k <= 6 && var r := Advances(c, s1, t, k);
                       && AsBucket(c, r) == Refilled(AsBucket(c, s1), s1.clock)
                       && r.threads == s1.threads[t := LoadForTake(n)] && r.acquired == s1.acquired;
    var r := Advances(c, s1, t, k);
    AdvancesCompose(c, s1, t, k, 9 - k);
    SoloTake(c, r, t, n, 9 - k);
    AdvancesKeepClock(c, s1, t, k);
    Overwrites(s.threads, t, LoadTick(n), LoadForTake(n), Advances(c, r, t, 9 - k).threads[t]);
  }

  lemma Overwrites(threads: seq<Thread>, t: nat, x: Thread, y: Thread, z: Thread)
    requires t < |threads|
    ensures threads[t := x][t := y][t := z] == threads[t := z]
  {
  }

  lemma {:induction false} AdvancesKeepClock(c: Config, s: Shared, t: nat, k: nat)
    requires t < |s.threads|
    ensures Advances(c, s, t, k).clock == s.clock
    decreases k
  {
    if k > 0 { AdvancesKeepClock(c, AdvanceStep(c, s, t), t, k - 1); }
  }
}

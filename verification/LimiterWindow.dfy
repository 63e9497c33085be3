/**
 How much a shared limiter grants within a window. A thread that has claimed ticks and is suspended before it
 adds their tokens adds them whenever it goes on, so every such claim can bring one more capacity. The
 bound counts them, it is reached, and no claim about capacity alone survives any refill.
 */
module LimiterWindow {
  import opened TokenBucket
  import opened LimiterThreads

  // ---------------------------------------------------------------- the bound

  /** What a suspended claim can still bring: the add is capped at the capacity. */
  function Pending(c: Config, t: Thread): nat {
    match t
    case LoadForRefill(_, add) => if add < c.capacity then add else c.capacity
    case AddTokens(_, add, _) => if add < c.capacity then add else c.capacity
    case _ => 0
  }

  function AllPending(c: Config, threads: seq<Thread>): nat {
    if threads == [] then 0
    else AllPending(c, threads[..|threads| - 1]) + Pending(c, threads[|threads| - 1])
  }

  /** How many threads hold a claim that they have not added. */
  function Suspended(threads: seq<Thread>): nat {
    if threads == [] then 0
    else
      var last := threads[|threads| - 1];
      Suspended(threads[..|threads| - 1]) + if last.LoadForRefill? || last.AddTokens? then 1 else 0
  }

  lemma {:induction false} PendingUpdate(c: Config, threads: seq<Thread>, t: nat, next: Thread)
    requires t < |threads|
    ensures AllPending(c, threads[t := next]) == AllPending(c, threads) - Pending(c, threads[t]) + Pending(c, next)
  {
    var n := |threads| - 1;
    if t == n {
      assert threads[t := next][..n] == threads[..n];
    } else {
      PendingUpdate(c, threads[..n], t, next);
      assert threads[t := next][..n] == threads[..n][t := next];
    }
  }

  lemma {:induction false} PendingBound(c: Config, threads: seq<Thread>)
    ensures AllPending(c, threads) <= c.capacity * Suspended(threads)
  {
    if threads != [] {
      PendingBound(c, threads[..|threads| - 1]);
      Distribute(c.capacity, Suspended(threads[..|threads| - 1]), 1);
    }
  }

  /** Everything that can still be or has been acquired without another claim. */
  function Potential(c: Config, s: Shared): nat {
    s.available + s.acquired + AllPending(c, s.threads)
  }

  /** Only a claim raises the potential, by at most its refills. */
  lemma StepPays(c: Config, s: Shared, a: Action)
    ensures var r := Step(c, s, a);
            r.claims >= s.claims && Potential(c, r) <= Potential(c, s) + (r.claims - s.claims) * c.refill
  {
    hide AllPending;
    match a
    case Tick(_) =>
    case Spawn => assert (s.threads + [Idle])[..|s.threads|] == s.threads; SpawnPends(c, s.threads);
    case Call(t, tokens) =>
      if t < |s.threads| { PendingUpdate(c, s.threads, t, LoadTick(tokens)); }
    case Advance(t) =>
      if t < |s.threads| {
        AdvanceTouches(c, s, t);
        PendingUpdate(c, s.threads, t, AdvanceStep(c, s, t).threads[t]);
      }
    case SpuriousFailure(t) =>
      if t < |s.threads| && s.threads[t].AddTokens? {
        PendingUpdate(c, s.threads, t, AddTokens(s.threads[t].tokens, s.threads[t].add, s.available));
      }
  }

  lemma SpawnPends(c: Config, threads: seq<Thread>)
    ensures AllPending(c, threads + [Idle]) == AllPending(c, threads)
  {
    assert (threads + [Idle])[..|threads|] == threads;
  }

  lemma AdvanceTouches(c: Config, s: Shared, t: nat)
    requires t < |s.threads|
    ensures var r := AdvanceStep(c, s, t);
            && r.threads == s.threads[t := r.threads[t]] && r.claims >= s.claims
            && r.available + r.acquired + Pending(c, r.threads[t])
               <= s.available + s.acquired + Pending(c, s.threads[t]) + (r.claims - s.claims) * c.refill
  {
    hide AdvanceStep, Pending;
    if s.threads[t].ClaimTicks? { ClaimTouches(c, s, t); } else { OthersTouch(c, s, t); }
  }

  lemma ClaimTouches(c: Config, s: Shared, t: nat)
    requires t < |s.threads| && s.threads[t].ClaimTicks?
    ensures var r := AdvanceStep(c, s, t);
            && r.threads == s.threads[t := r.threads[t]] && r.claims >= s.claims
            && r.available == s.available && r.acquired == s.acquired
            && Pending(c, r.threads[t]) <= (r.claims - s.claims) * c.refill
  {
  }

  /** Every other stretch of a call leaves the claims alone. */
  lemma OthersTouch(c: Config, s: Shared, t: nat)
    requires t < |s.threads| && !s.threads[t].ClaimTicks?
    ensures var r := AdvanceStep(c, s, t);
            && r.threads == s.threads[t := r.threads[t]] && r.claims == s.claims
            && r.available + r.acquired + Pending(c, r.threads[t]) <= s.available + s.acquired + Pending(c, s.threads[t])
  {
  }

  lemma {:induction false} RunPays(c: Config, s: Shared, actions: seq<Action>)
    ensures var r := Run(c, s, actions);
            r.claims >= s.claims && Potential(c, r) <= Potential(c, s) + (r.claims - s.claims) * c.refill
    decreases |actions|
  {
    hide Step, Potential;
    if actions != [] {
      var next := Step(c, s, actions[0]);
      StepPays(c, s, actions[0]);
      RunPays(c, next, actions[1..]);
      var r := Run(c, s, actions);
      Distribute(c.refill, r.claims - next.claims, next.claims - s.claims);
    }
  }

  /** Between two points of a run: the claims are the ticks that passed, and what was acquired was available or
      pending at the first point or has been claimed since. */
  lemma ClaimsBetween(c: Config, start: Shared, before: seq<Action>, during: seq<Action>)
    requires AtRest(start) && start.available <= c.capacity && c.interval > 0
    ensures var s := Run(c, start, before);
            var r := Run(c, s, during);
            && s.available <= c.capacity && s.lastTick <= s.clock && s.lastTick <= r.lastTick <= r.clock
            && s.clock <= r.clock && s.acquired <= r.acquired
            && r.acquired - s.acquired
               <= s.available + AllPending(c, s.threads) + c.refill * ((r.lastTick - s.lastTick) / c.interval)
  {
    hide Run, AllPending, AllInFlight, ThreadGood, Supply;
    RestIsGood(c, start);
    RunKeepsInv(c, start, start, before);
    var s := Run(c, start, before);
    Rebase(c, start, s);
    RunKeepsInv(c, s, s, during);
    RunPays(c, s, during);
    var r := Run(c, s, during);
    ClaimsAreTicks(r.lastTick - s.lastTick, r.claims - s.claims, c.interval);
  }

  /** The rate bound of a shared limiter: between two points of any interleaving that lie at most `window` apart, no
      more is acquired than one capacity, one more for every claim suspended at the first point, and one
      refill per interval since the last credited tick. If that tick was the latest there was, the
      refills are those of the window. */
  lemma SharedWindowBound(c: Config, start: Shared, before: seq<Action>, during: seq<Action>, window: nat)
    requires AtRest(start) && start.available <= c.capacity && c.interval > 0
    requires var s := Run(c, start, before); Run(c, s, during).clock <= s.clock + window
    ensures var s := Run(c, start, before);
            var r := Run(c, s, during);
            && s.lastTick <= s.clock
            && r.acquired - s.acquired
               <= c.capacity * (1 + Suspended(s.threads)) + c.refill * ((r.clock - s.lastTick) / c.interval)
            && (s.clock < s.lastTick + c.interval ==>
                  r.acquired - s.acquired
                  <= c.capacity * (1 + Suspended(s.threads)) + c.refill * TicksIn(window, c.interval))
  {
    hide Run, AllPending, Suspended, TicksIn;
    ClaimsBetween(c, start, before, during);
    var s := Run(c, start, before);
    var r := Run(c, s, during);
    PendingBound(c, s.threads);
    Distribute(c.capacity, 1, Suspended(s.threads));
    var ticks := (r.lastTick - s.lastTick) / c.interval;
    DivMonotone(r.lastTick - s.lastTick, r.clock - s.lastTick, c.interval);
    MulMonotone(c.refill, ticks, (r.clock - s.lastTick) / c.interval);
    if s.clock < s.lastTick + c.interval {
      TicksOfWindow(r.lastTick - s.lastTick, window, c.interval);
      MulMonotone(c.refill, ticks, TicksIn(window, c.interval));
    }
  }

  lemma TicksOfWindow(x: nat, window: nat, interval: nat)
    requires interval > 0 && x < window + interval
    ensures 0 <= x / interval <= TicksIn(window, interval)
  {
    DivMonotone(x, window + interval - 1, interval);
    DivMonotone(0, x, interval);
    DivUnique(0, interval, 0, 0);
  }

  // ---------------------------------------------------------------- a run that reaches it

  lemma {:induction false} RunAppends(c: Config, s: Shared, a: seq<Action>, b: seq<Action>)
    ensures Run(c, s, a + b) == Run(c, Run(c, s, a), b)
    decreases |a|
  {
    hide Step;
    if a == [] {
      assert a + b == b;
    } else {
      assert (a + b)[0] == a[0] && (a + b)[1..] == a[1..] + b;
      RunAppends(c, Step(c, s, a[0]), a[1..], b);
    }
  }

  function Advancing(t: nat, n: nat): seq<Action> {
    if n == 0 then [] else [Advance(t)] + Advancing(t, n - 1)
  }

  lemma {:induction false} RunAdvancing(c: Config, s: Shared, t: nat, n: nat)
    requires t < |s.threads|
    ensures Run(c, s, Advancing(t, n)) == Advances(c, s, t, n)
    decreases n
  {
    hide AdvanceStep;
    if n > 0 {
      assert Advancing(t, n)[1..] == Advancing(t, n - 1);
      AdvanceKeepsThreads(c, s, t);
      RunAdvancing(c, AdvanceStep(c, s, t), t, n - 1);
    }
  }

  lemma AdvanceKeepsThreads(c: Config, s: Shared, t: nat)
    requires t < |s.threads|
    ensures |AdvanceStep(c, s, t).threads| == |s.threads|
  {
  }

  /** A pause and a call, taken so many steps. */
  function PauseAndCall(pause: nat, t: nat, tokens: nat, n: nat): seq<Action> {
    [Tick(pause), Action.Call(t, tokens)] + Advancing(t, n)
  }

  lemma RunPauseAndCall(c: Config, s: Shared, pause: nat, t: nat, tokens: nat, n: nat)
    requires t < |s.threads|
    ensures var s' := Step(c, s.(clock := s.clock + pause), Action.Call(t, tokens));
            |s'.threads| == |s.threads| && Run(c, s, PauseAndCall(pause, t, tokens, n)) == Advances(c, s', t, n)
  {
    var both := [Tick(pause), Action.Call(t, tokens)];
    RunAppends(c, s, both, Advancing(t, n));
    assert both[1..] == [Action.Call(t, tokens)] && both[1..][1..] == [];
    var s' := Step(c, s.(clock := s.clock + pause), Action.Call(t, tokens));
    assert Run(c, s, both) == Run(c, s.(clock := s.clock + pause), both[1..]) == Run(c, s', both[1..][1..]) == s';
    RunAdvancing(c, s', t, n);
  }

  /** A claim of as many ticks as fill the bucket. */
  function Holding(c: Config): Thread {
    LoadForRefill(c.capacity, c.capacity * c.refill)
  }

  /** Threads `from` to `to` hold such claims; the others of the first `k`, and one more, are idle. */
  function Layout(c: Config, from: nat, to: nat, k: nat): seq<Thread> {
    seq(k + 1, j => if from <= j < to then Holding(c) else Idle)
  }

  function FullLimiter(c: Config, k: nat): Shared {
    Shared(c.capacity, 0, 0, 0, Layout(c, 0, 0, k), 0, 0)
  }

  predicate Stage(s: Shared, available: nat, behind: nat, acquired: nat, threads: seq<Thread>) {
    s.available == available && s.clock == s.lastTick + behind && s.acquired == acquired && s.threads == threads
  }

  predicate Refills(c: Config) {
    0 < c.refill <= c.capacity && c.interval > 0
  }

  /** The bucket stays full while one thread after the other claims ticks and is suspended. */
  function Suspends(c: Config, i: nat, k: nat): seq<Action>
    decreases k - i
  {
    if i >= k then [] else PauseAndCall(c.capacity * c.interval, i, c.capacity, 3) + Suspends(c, i + 1, k)
  }

  lemma SuspendsOne(c: Config, s: Shared, i: nat, k: nat)
    requires Refills(c) && i < k && Stage(s, c.capacity, 0, 0, Layout(c, 0, i, k))
    ensures Stage(Run(c, s, PauseAndCall(c.capacity * c.interval, i, c.capacity, 3)),
                  c.capacity, 0, 0, Layout(c, 0, i + 1, k))
  {
    hide Run;
    var pause := c.capacity * c.interval;
    RunPauseAndCall(c, s, pause, i, c.capacity, 3);
    var s1 := Step(c, s.(clock := s.clock + pause), Action.Call(i, c.capacity));
    var s2 := AdvanceStep(c, s1, i);
    DivUnique(pause, c.interval, c.capacity, 0);
    var s3 := AdvanceStep(c, s2, i);
    assert s3.threads[i] == ClaimTicks(c.capacity, s.lastTick, c.capacity);
    var s4 := AdvanceStep(c, s3, i);
    assert Advances(c, s1, i, 3) == Advances(c, s2, i, 2) == Advances(c, s3, i, 1) == Advances(c, s4, i, 0) == s4;
    assert s4.threads == s.threads[i := Holding(c)] == Layout(c, 0, i + 1, k);
  }

  lemma {:induction false} SuspendsAll(c: Config, s: Shared, i: nat, k: nat)
    requires Refills(c) && i <= k && Stage(s, c.capacity, 0, 0, Layout(c, 0, i, k))
    ensures Stage(Run(c, s, Suspends(c, i, k)), c.capacity, 0, 0, Layout(c, 0, k, k))
    decreases k - i
  {
    hide Stage, Layout, PauseAndCall;
    if i < k {
      var first := PauseAndCall(c.capacity * c.interval, i, c.capacity, 3);
      SuspendsOne(c, s, i, k);
      RunAppends(c, s, first, Suspends(c, i + 1, k));
      SuspendsAll(c, Run(c, s, first), i + 1, k);
    }
  }

  /** An undisturbed call of the idle thread. */
  lemma IdleCalls(c: Config, s: Shared, pause: nat, k: nat, i: nat, behind: nat, acquired: nat, tokens: nat)
    requires Refills(c) && i <= k && Stage(s, if tokens == c.capacity && pause == 0 then c.capacity else 0, behind, acquired,
                                           Layout(c, i, k, k))
    requires (pause == 0 && tokens == c.capacity && behind < c.interval)
             || (pause > 0 && tokens == c.refill && behind + pause == c.interval)
    ensures var r := Run(c, s, PauseAndCall(pause, k, tokens, 9));
            && Stage(r, 0, if pause == 0 then behind else 0, acquired + tokens, Layout(c, i, k, k))
            && r.clock == s.clock + pause
  {
    hide Run, Advances, AdvanceStep;
    RunPauseAndCall(c, s, pause, k, tokens, 9);
    var s1 := s.(clock := s.clock + pause);
    SoloCallIsAtomic(c, s1, k, tokens);
    AdvancesKeepClock(c, Step(c, s1, Action.Call(k, tokens)), k, 9);
    if pause == 0 {
      DivUnique(behind, c.interval, 0, behind);
    } else {
      DivUnique(c.interval, c.interval, 1, 0);
    }
    assert s.threads[k := Idle] == s.threads;
  }

  /** One after the other, the suspended threads go on: each fills the empty bucket and takes all of it. */
  function Resumes(i: nat, k: nat): seq<Action>
    decreases k - i
  {
    if i >= k then [] else Advancing(i, 6) + Resumes(i + 1, k)
  }

  lemma ResumesOne(c: Config, s: Shared, i: nat, k: nat, behind: nat, acquired: nat)
    requires Refills(c) && i < k && Stage(s, 0, behind, acquired, Layout(c, i, k, k))
    ensures var r := Run(c, s, Advancing(i, 6));
            Stage(r, 0, behind, acquired + c.capacity, Layout(c, i + 1, k, k)) && r.clock == s.clock
  {
    hide Run, Advances, AdvanceStep;
    RunAdvancing(c, s, i, 6);
    assert s.threads[i] == Layout(c, i, k, k)[i] == Holding(c);
    MulMonotone(c.capacity, 1, c.refill);
    SoloAdd(c, s, i, c.capacity, c.capacity * c.refill);
    var total := c.capacity * c.refill;
    var n: nat :| 2 <= n <= 3 && Advances(c, s, i, n) ==
      Go(s, i, LoadForTake(c.capacity)).(
        available := if total > c.capacity then c.capacity else total,
        dropped := if total > c.capacity then s.dropped + (total - c.capacity) else s.dropped);
    AdvancesCompose(c, s, i, n, 6 - n);
    SoloTake(c, Advances(c, s, i, n), i, c.capacity, 6 - n);
    assert s.threads[i := LoadForTake(c.capacity)][i := Idle] == Layout(c, i + 1, k, k);
  }

  lemma {:induction false} ResumesAll(c: Config, s: Shared, i: nat, k: nat, behind: nat, acquired: nat)
    requires Refills(c) && i <= k && Stage(s, 0, behind, acquired, Layout(c, i, k, k))
    ensures var r := Run(c, s, Resumes(i, k));
            Stage(r, 0, behind, acquired + c.capacity * (k - i), Layout(c, k, k, k)) && r.clock == s.clock
    decreases k - i
  {
    hide Stage, Layout, Advancing;
    if i < k {
      ResumesOne(c, s, i, k, behind, acquired);
      RunAppends(c, s, Advancing(i, 6), Resumes(i + 1, k));
      ResumesAll(c, Run(c, s, Advancing(i, 6)), i + 1, k, behind, acquired + c.capacity);
      Distribute(c.capacity, k - i - 1, 1);
    }
  }

  /** At each of the next `m` ticks, the first of which comes after `pause`, the idle thread takes one refill. */
  function Harvests(c: Config, k: nat, pause: nat, m: nat): seq<Action>
    decreases m
  {
    if m == 0 then [] else PauseAndCall(pause, k, c.refill, 9) + Harvests(c, k, c.interval, m - 1)
  }

  lemma {:induction false} HarvestsAll(c: Config, s: Shared, k: nat, pause: nat, m: nat, acquired: nat)
    requires Refills(c) && 0 < pause <= c.interval && Stage(s, 0, c.interval - pause, acquired, Layout(c, k, k, k))
    ensures var r := Run(c, s, Harvests(c, k, pause, m));
            && r.acquired == acquired + c.refill * m
            && r.clock == s.clock + if m == 0 then 0 else pause + (m - 1) * c.interval
    decreases m
  {
    hide Layout, PauseAndCall;
    if m > 0 {
      var first := PauseAndCall(pause, k, c.refill, 9);
      IdleCalls(c, s, pause, k, k, c.interval - pause, acquired, c.refill);
      RunAppends(c, s, first, Harvests(c, k, c.interval, m - 1));
      HarvestsAll(c, Run(c, s, first), k, c.interval, m - 1, acquired + c.refill);
      Distribute(c.refill, m - 1, 1);
    }
  }

  function BeforeBurst(c: Config, k: nat): seq<Action>
    requires c.interval > 0
  {
    Suspends(c, 0, k) + [Tick(c.interval - 1)]
  }

  function Burst(c: Config, k: nat, window: nat): seq<Action> {
    PauseAndCall(0, k, c.capacity, 9) + (Resumes(0, k) + Harvests(c, k, 1, TicksIn(window, c.interval)))
  }

  lemma {:induction false} SuspendedCount(threads: seq<Thread>, n: nat)
    requires n <= |threads|
    requires forall j :: 0 <= j < |threads| ==> if j < n then threads[j].LoadForRefill? else threads[j].Idle?
    ensures Suspended(threads) == n
  {
    if threads != [] {
      SuspendedCount(threads[..|threads| - 1], if n == |threads| then n - 1 else n);
    }
  }

  lemma BeforeBurstStage(c: Config, k: nat)
    requires Refills(c)
    ensures var s := Run(c, FullLimiter(c, k), BeforeBurst(c, k));
            Stage(s, c.capacity, c.interval - 1, 0, Layout(c, 0, k, k)) && Suspended(s.threads) == k
  {
    hide Suspends;
    SuspendsAll(c, FullLimiter(c, k), 0, k);
    RunAppends(c, FullLimiter(c, k), Suspends(c, 0, k), [Tick(c.interval - 1)]);
    var s := Run(c, FullLimiter(c, k), Suspends(c, 0, k));
    assert [Tick(c.interval - 1)][1..] == [];
    assert Run(c, s, [Tick(c.interval - 1)]) == s.(clock := s.clock + (c.interval - 1));
    var threads := Layout(c, 0, k, k);
    forall j | 0 <= j < k + 1 ensures if j < k then threads[j].LoadForRefill? else threads[j].Idle? {
      assert threads[j] == if j < k then Holding(c) else Idle;
    }
    SuspendedCount(threads, k);
  }

  /** The bound is reached, for every configuration that refills, every number of suspended claims and every window. */
  lemma SharedBoundIsReached(c: Config, k: nat, window: nat)
    requires Refills(c)
    ensures var start := FullLimiter(c, k);
            var s := Run(c, start, BeforeBurst(c, k));
            var r := Run(c, s, Burst(c, k, window));
            && AtRest(start) && start.available == c.capacity
            && Suspended(s.threads) == k && s.clock < s.lastTick + c.interval && r.clock <= s.clock + window
            && r.acquired - s.acquired == c.capacity * (1 + k) + c.refill * TicksIn(window, c.interval)
  {
    hide PauseAndCall, Resumes, Harvests, Layout, BeforeBurst, TicksIn, Run;
    BeforeBurstStage(c, k);
    var s := Run(c, FullLimiter(c, k), BeforeBurst(c, k));
    var m := TicksIn(window, c.interval);
    var (first, rest, last) := (PauseAndCall(0, k, c.capacity, 9), Resumes(0, k), Harvests(c, k, 1, m));
    IdleCalls(c, s, 0, k, 0, c.interval - 1, 0, c.capacity);
    var s1 := Run(c, s, first);
    ResumesAll(c, s1, 0, k, c.interval - 1, c.capacity);
    var s2 := Run(c, s1, rest);
    HarvestsAll(c, s2, k, 1, m, c.capacity + c.capacity * k);
    RunAppends(c, s, first, rest + last);
    RunAppends(c, s1, rest, last);
    Distribute(c.capacity, 1, k);
    TicksFit(window, c.interval);
    assert AtRest(FullLimiter(c, k)) by { FullLimiterRests(c, k); }
  }

  lemma FullLimiterRests(c: Config, k: nat)
    ensures AtRest(FullLimiter(c, k))
  {
  }

  lemma TicksFit(window: nat, interval: nat)
    requires interval > 0
    ensures var m := TicksIn(window, interval); m > 0 ==> 1 + (m - 1) * interval <= window
  {
    var x := window + interval - 1;
    assert x == x / interval * interval + x % interval;
    var m := TicksIn(window, interval);
    assert m * interval == (m - 1) * interval + interval;
  }

  // ---------------------------------------------------------------- what a promise about capacity alone is worth

  /** An interval of zero switches refills off: no tick is ever claimed. */
  lemma {:induction false} NothingIsClaimed(c: Config, s: Shared, actions: seq<Action>)
    requires c.interval == 0 && forall t :: 0 <= t < |s.threads| ==> !s.threads[t].ClaimTicks?
    ensures var r := Run(c, s, actions);
            r.claims == s.claims && forall t :: 0 <= t < |r.threads| ==> !r.threads[t].ClaimTicks?
    decreases |actions|
  {
    hide AdvanceStep;
    if actions != [] {
      var a := actions[0];
      if a.Advance? && a.t < |s.threads| { NoClaimStep(c, s, a.t); }
      NothingIsClaimed(c, Step(c, s, a), actions[1..]);
    }
  }

  lemma NoClaimStep(c: Config, s: Shared, t: nat)
    requires c.interval == 0 && t < |s.threads| && !s.threads[t].ClaimTicks?
    ensures var r := AdvanceStep(c, s, t);
            r.claims == s.claims && r.threads == s.threads[t := r.threads[t]] && !r.threads[t].ClaimTicks?
  {
  }

  lemma {:induction false} AcquiredGrows(c: Config, s: Shared, actions: seq<Action>)
    ensures Run(c, s, actions).acquired >= s.acquired
    decreases |actions|
  {
    if actions != [] { AcquiredGrows(c, Step(c, s, actions[0]), actions[1..]); }
  }

  lemma {:induction false} RestingPendsNothing(c: Config, threads: seq<Thread>)
    requires forall t :: 0 <= t < |threads| ==> threads[t].Idle?
    ensures AllPending(c, threads) == 0
  {
    if threads != [] { RestingPendsNothing(c, threads[..|threads| - 1]); }
  }

  lemma PotentialStays(c: Config, s: Shared, actions: seq<Action>)
    requires c.refill == 0 || (c.interval == 0 && forall t :: 0 <= t < |s.threads| ==> !s.threads[t].ClaimTicks?)
    ensures Potential(c, Run(c, s, actions)) <= Potential(c, s)
  {
    hide Run, Potential;
    RunPays(c, s, actions);
    if c.refill == 0 {
      MulMonotone(Run(c, s, actions).claims - s.claims, 0, c.refill);
    } else {
      NothingIsClaimed(c, s, actions);
    }
  }

  lemma OnlyTheFirstTokens(c: Config, start: Shared, before: seq<Action>, during: seq<Action>)
    requires AtRest(start) && start.available <= c.capacity && (c.refill == 0 || c.interval == 0)
    ensures var s := Run(c, start, before); Run(c, s, during).acquired - s.acquired <= c.capacity
  {
    hide Run, AllPending;
    var s := Run(c, start, before);
    RestingPendsNothing(c, start.threads);
    if c.interval == 0 { NothingIsClaimed(c, start, before); }
    PotentialStays(c, start, before);
    PotentialStays(c, s, during);
    AcquiredGrows(c, start, before);
  }

  ghost predicate KeepsPromise(c: Config, start: Shared, before: seq<Action>, during: seq<Action>, window: nat) {
    var s := Run(c, start, before);
    var r := Run(c, s, during);
    AtRest(start) && start.available <= c.capacity && r.clock <= s.clock + window ==> r.acquired - s.acquired <= c.capacity
  }

  /** The documented promise, that a window grants no more than the capacity, for a limiter that threads share: it
      holds of any window, an instant included, exactly of a limiter that never refills. */
  lemma SharedWindowIff(c: Config, window: nat)
    requires c.refill <= c.capacity
    ensures (forall start, before, during :: KeepsPromise(c, start, before, during, window))
       <==> c.refill == 0 || c.interval == 0
  {
    hide Run, AtRest, FullLimiter, BeforeBurst, Burst, Suspended;
    if c.refill == 0 || c.interval == 0 {
      forall start, before, during ensures KeepsPromise(c, start, before, during, window) {
        if AtRest(start) && start.available <= c.capacity { OnlyTheFirstTokens(c, start, before, during); }
      }
    } else {
      SharedBoundIsReached(c, 1, window);
      assert !KeepsPromise(c, FullLimiter(c, 1), BeforeBurst(c, 1), Burst(c, 1, window), window);
    }
  }
}

/**
 What a shared limiter must do, under contention too: tokens are dropped only over a full bucket, a call that goes on
 still asks for its tokens, and it ends with exactly them or because they were not there.
 */
module LimiterCalls {
  import opened Wrappers
  import opened TokenBucket
  import opened LimiterThreads

  // ---------------------------------------------------------------- drops

  /** A drop comes into being only over a bucket that is full, and is exactly what does not fit. */
  lemma DropsOnlyWhenFull(c: Config, s: Shared, a: Action, t: nat)
    requires t < |Step(c, s, a).threads| && Step(c, s, a).threads[t].RecordDrop?
    requires t < |s.threads| ==> !s.threads[t].RecordDrop?
    ensures var r := Step(c, s, a);
            && r.available == c.capacity && t < |s.threads| && s.threads[t].AddTokens?
            && r.threads[t].over == s.available + s.threads[t].add - c.capacity > 0
  {
    hide AdvanceStep;
    if a.Advance? && a.t < |s.threads| { DropAdvances(c, s, a.t, t); }
  }

  lemma DropAdvances(c: Config, s: Shared, u: nat, t: nat)
    requires u < |s.threads|
    ensures var r := AdvanceStep(c, s, u);
            && |r.threads| == |s.threads|
            && (t < |s.threads| && r.threads[t].RecordDrop? && !s.threads[t].RecordDrop? ==>
                  && r.available == c.capacity && s.threads[t].AddTokens?
                  && r.threads[t].over == s.available + s.threads[t].add - c.capacity > 0)
  {
  }

  /** What a refill has claimed it adds, as far as the bucket has room, or tries again with all of it when another
      thread came between. */
  lemma AddsAllThatFits(c: Config, s: Shared, t: nat)
    requires t < |s.threads| && s.threads[t].AddTokens?
    ensures var r := Step(c, s, Advance(t));
            var AddTokens(n, add, current) := s.threads[t];
            if s.available != current then
              r == s.(threads := r.threads) && r.threads == s.threads[t := AddTokens(n, add, s.available)]
            else
              && r.available == (if s.available + add <= c.capacity then s.available + add else c.capacity)
              && r.available + (if r.threads[t].RecordDrop? then r.threads[t].over else 0) == s.available + add
              && r.acquired == s.acquired && r.lastTick == s.lastTick && r.claims == s.claims
  {
  }

  /** The weak compare-and-swap may fail for no reason; that costs nothing but another try. */
  lemma SpuriousFailureRetries(c: Config, s: Shared, t: nat)
    requires t < |s.threads| && s.threads[t].AddTokens?
    ensures var AddTokens(n, add, _) := s.threads[t];
            Step(c, s, SpuriousFailure(t)) == s.(threads := s.threads[t := AddTokens(n, add, s.available)])
  {
  }

  ghost predicate NoDrops(origin: Shared, s: Shared) {
    s.dropped == origin.dropped && forall t :: 0 <= t < |s.threads| ==> !s.threads[t].RecordDrop?
  }

  /** One step that the bucket has room for. */
  lemma StepHasRoom(c: Config, origin: Shared, s: Shared, a: Action)
    requires Inv(c, origin, s) && NoDrops(origin, s) && AllInFlight(origin.threads) == 0
    requires origin.acquired <= s.acquired
    requires origin.available + (s.claims - origin.claims) * c.refill <= c.capacity
    ensures NoDrops(origin, Step(c, s, a))
  {
    hide AllInFlight, AdvanceStep;
    var r := Step(c, s, a);
    forall t | 0 <= t < |r.threads| ensures !r.threads[t].RecordDrop? {
      if r.threads[t].RecordDrop? {
        DropsOnlyWhenFull(c, s, a, t);
        InFlightUpdate(s.threads, t, Idle);
      }
    }
    if a.Advance? && a.t < |s.threads| { DropsOnlyByRecording(c, s, a.t); }
  }

  lemma DropsOnlyByRecording(c: Config, s: Shared, t: nat)
    requires t < |s.threads|
    ensures AdvanceStep(c, s, t).dropped != s.dropped ==> s.threads[t].RecordDrop?
  {
  }

  lemma {:induction false} RunHasRoom(c: Config, origin: Shared, s: Shared, actions: seq<Action>)
    requires Inv(c, origin, s) && NoDrops(origin, s) && AllInFlight(origin.threads) == 0
    requires origin.acquired <= s.acquired && s.claims >= origin.claims
    requires origin.available + (Run(c, s, actions).claims - origin.claims) * c.refill <= c.capacity
    ensures NoDrops(origin, Run(c, s, actions))
    decreases |actions|
  {
    hide Step, Inv, NoDrops, AllInFlight;
    RunKeepsInv(c, origin, s, actions);
    MulMonotone(c.refill, s.claims - origin.claims, Run(c, s, actions).claims - origin.claims);
    if actions != [] {
      StepHasRoom(c, origin, s, actions[0]);
      StepKeepsInv(c, origin, s, actions[0]);
      RunHasRoom(c, origin, Step(c, s, actions[0]), actions[1..]);
    }
  }

  /** As long as the initial tokens and the refills of all elapsed ticks fit, no interleaving drops a token. */
  lemma NothingIsDroppedWithRoom(c: Config, start: Shared, actions: seq<Action>)
    requires AtRest(start) && c.interval > 0
    requires var r := Run(c, start, actions);
             start.available + c.refill * ((r.lastTick - start.lastTick) / c.interval) <= c.capacity
    ensures var r := Run(c, start, actions);
            r.dropped == start.dropped && forall t :: 0 <= t < |r.threads| ==> !r.threads[t].RecordDrop?
  {
    hide Run, AllInFlight;
    RestIsGood(c, start);
    NoneInFlight(start.threads);
    RunKeepsInv(c, start, start, actions);
    var r := Run(c, start, actions);
    ClaimsAreTicks(r.lastTick - start.lastTick, r.claims - start.claims, c.interval);
    RunHasRoom(c, start, start, actions);
  }

  // ---------------------------------------------------------------- calls

  /** The tokens that a thread's call in progress asks for. */
  function Wants(t: Thread): Option<nat> {
    match t
    case LoadTick(n) => Some(n)
    case ReadClock(n, _) => Some(n)
    case ClaimTicks(n, _, _) => Some(n)
    case LoadForRefill(n, _) => Some(n)
    case AddTokens(n, _, _) => Some(n)
    case RecordDrop(n, _) => Some(n)
    case LoadForTake(n) => Some(n)
    case TakeTokens(n, _) => Some(n)
    case _ => None
  }

  /** A call goes on asking for the same, or ends with exactly that taken from the bucket, or is refused at a moment at
      which the bucket has less. Nobody else acquires anything by its step. */
  lemma CallEnds(c: Config, s: Shared, t: nat)
    requires t < |s.threads| && Wants(s.threads[t]).Some?
    ensures var n := Wants(s.threads[t]).value;
            var r := Step(c, s, Advance(t));
            && (forall u :: 0 <= u < |s.threads| && u != t ==> r.threads[u] == s.threads[u])
            && (|| (Wants(r.threads[t]) == Some(n) && r.acquired == s.acquired)
                || (r.threads[t] == Idle && r.acquired == s.acquired + n && r.available + n == s.available)
                || (r.threads[t] == ReadNow && s.available < n && r.acquired == s.acquired && r.available == s.available))
  {
  }

  /** A call goes back to an earlier point, or gives up a claim, only because another thread changed what it had read. */
  lemma RetriesOnlyAfterAChange(c: Config, s: Shared, t: nat)
    requires t < |s.threads|
    ensures var r := Step(c, s, Advance(t));
            match s.threads[t] {
              case ClaimTicks(n, last, ticks) =>
                s.lastTick != last || (r.threads[t] == LoadForRefill(n, ticks * c.refill) && r.claims == s.claims + ticks)
              case AddTokens(n, add, current) => s.available != current || !r.threads[t].AddTokens?
              case TakeTokens(n, current) =>
                n <= current ==> s.available != current || (r.threads[t] == Idle && r.acquired == s.acquired + n)
              case _ => true
            }
  {
  }

  /** A refusal is answered with the time from the clock that the thread read to the tick that it then loads. */
  lemma RefusalHints(c: Config, s: Shared, t: nat)
    requires t < |s.threads|
    ensures var r := Step(c, s, Advance(t));
            && (s.threads[t].ReadNow? ==> r == s.(threads := s.threads[t := LoadNext(s.clock)]))
            && (s.threads[t].LoadNext? ==>
                  && r.threads[t].Refused? && r.threads[t].now == s.threads[t].now
                  && (s.lastTick + c.interval >= r.threads[t].now ==>
                        r.threads[t].now + r.threads[t].wait == s.lastTick + c.interval)
                  && (s.lastTick + c.interval < r.threads[t].now ==> r.threads[t].wait == 0))
  {
  }
}

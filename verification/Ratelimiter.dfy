/**
 The rate limiter's fields and the methods that change them, at the original's 64-bit width.
 A method call here is one whole call of the original without interference, so each of its
 compare-and-swap loops succeeds the first time; `LimiterThreads` takes the calls apart.
 */
module Ratelimiter {
  import opened Wrappers
  import opened TokenBucket

  newtype u64 = x: int | 0 <= x < 0x1_0000_0000_0000_0000

  datatype Error = AvailableTokensTooHigh | MaxTokensTooLow | RefillAmountTooHigh | RefillIntervalTooLong

  datatype Result = Ok | Err(error: Error)

  datatype BuildResult = Built(limiter: Limiter) | Failed(error: Error)

  /** The numbers that a call at time `now` computes fit into 64 bits. */
  ghost predicate Fits(b: Bucket, now: nat) {
    && b.start <= now && now - b.start + b.interval <= U64_MAX
    && b.lastTick + b.interval <= U64_MAX
    && b.dropped + b.available + Ticks(b, now) * b.refill <= U64_MAX
  }

  class Limiter {
    var available: u64
    var dropped: u64
    var lastTick: u64
    var capacity: u64
    var refillAmount: u64
    var refillInterval: u64
    var alignment: Alignment
    var start: nat

    ghost function View(): Bucket
      reads this
    {
      Bucket(available as nat, dropped as nat, lastTick as nat, start,
             capacity as nat, refillAmount as nat, refillInterval as nat)
    }

    /** One refill never exceeds the capacity: what the wait hint relies on. */
    ghost predicate Valid()
      reads this
    {
      refillAmount <= capacity
    }

    constructor (available: u64, capacity: u64, refillAmount: u64, refillInterval: u64, alignment: Alignment,
                 start: nat, phase: u64)
      requires refillAmount <= capacity
      ensures Valid() && this.alignment == alignment
      ensures View() == Bucket(available as nat, 0, phase as nat, start,
                               capacity as nat, refillAmount as nat, refillInterval as nat)
    {
      this.available, this.dropped, this.lastTick := available, 0, phase;
      this.capacity, this.refillAmount, this.refillInterval := capacity, refillAmount, refillInterval;
      this.alignment, this.start := alignment, start;
    }

    method MaybeRefill(now: nat)
      requires Valid() && Fits(View(), now)
      modifies this`available, this`dropped, this`lastTick
      ensures Valid() && View() == Refilled(old(View()), now)
    {
      RefillFits(View(), now);
      hide Ticks, Fits;
      if refillInterval == 0 { return; }
      var last := lastTick;
      var nowNanos := (now - start) as u64;
      var elapsed := if nowNanos >= last then nowNanos - last else 0;
      var ticks := elapsed / refillInterval;
      assert ticks as nat == Ticks(View(), now);
      if ticks == 0 { return; }
      lastTick := last + ticks * refillInterval;
      var tokensToAdd := ticks * refillAmount;
      var current := available;
      available := if current + tokensToAdd < capacity then current + tokensToAdd else capacity;
      if current + tokensToAdd > capacity {
        dropped := dropped + (current + tokensToAdd - capacity);
      }
    }

    method TryWaitN(tokens: u64, t1: nat, t2: nat) returns (outcome: Outcome)
      requires Valid() && Fits(View(), t1)
      modifies this`available, this`dropped, this`lastTick
      ensures Valid() && (View(), outcome) == TokenBucket.TryWaitN(old(View()), tokens as nat, t1, t2)
    {
      RefillFits(View(), t1);
      MaybeRefill(t1);
      hide Ticks, Fits;
      if available >= tokens {
        available := available - tokens;
        return Granted;
      }
      var next := start + (lastTick + refillInterval) as nat;
      return Denied(if next > t2 then next - t2 else 0);
    }

    method SetRefillInterval(interval: nat) returns (r: Result)
      requires Valid()
      modifies this`refillInterval
      ensures Valid() && r == if interval > U64_MAX then Err(RefillIntervalTooLong) else Ok
      ensures View() == if r.Ok? then old(View()).(interval := interval) else old(View())
    {
      if interval > U64_MAX { return Err(RefillIntervalTooLong); }
      refillInterval := interval as u64;
      return Ok;
    }

    method SetRefillAmount(amount: u64) returns (r: Result)
      requires Valid()
      modifies this`refillAmount
      ensures Valid() && r == if amount > capacity then Err(RefillAmountTooHigh) else Ok
      ensures View() == if r.Ok? then old(View()).(refill := amount as nat) else old(View())
    {
      if amount > capacity { return Err(RefillAmountTooHigh); }
      refillAmount := amount;
      return Ok;
    }

    /** A larger capacity makes its difference available at once, as far as 64 bits go; a smaller one
        takes nothing away. */
    method SetMaxTokens(amount: u64) returns (r: Result)
      requires Valid()
      modifies this`capacity, this`available
      ensures Valid() && r == if amount < refillAmount then Err(MaxTokensTooLow) else Ok
      ensures r.Err? ==> View() == old(View())
      ensures r.Ok? ==>
                var raised := if amount > old(capacity)
                              then old(available) as nat + (amount - old(capacity)) as nat
                              else old(available) as nat;
                View() == old(View()).(capacity := amount as nat,
                                       available := if raised > U64_MAX then U64_MAX else raised)
    {
      if amount < refillAmount { return Err(MaxTokensTooLow); }
      var oldCapacity := capacity;
      capacity := amount;
      if amount > oldCapacity {
        var room := 0xFFFF_FFFF_FFFF_FFFF - available;
        var added := amount - oldCapacity;
        var newAmount := if added <= room then available + added else 0xFFFF_FFFF_FFFF_FFFF;
        if newAmount > available { available := newAmount; }
      }
      return Ok;
    }

    method SetAvailable(amount: u64) returns (r: Result)
      requires Valid()
      modifies this`available
      ensures Valid() && r == if amount > capacity then Err(AvailableTokensTooHigh) else Ok
      ensures View() == if r.Ok? then old(View()).(available := amount as nat) else old(View())
    {
      if amount > capacity { return Err(AvailableTokensTooHigh); }
      available := amount;
      return Ok;
    }

    /** The windows' phase is taken anew from the server's clock. */
    method SyncTime(now: nat, serverMs: u64)
      requires Valid() && Phase(alignment, refillInterval as nat, serverMs as nat * 1_000_000) <= now
      modifies this`start, this`lastTick
      ensures Valid() && View() == Synchronised(old(View()), alignment, now, serverMs as nat * 1_000_000)
    {
      var phase := PhaseOf(alignment, refillInterval, serverMs as nat * 1_000_000);
      start := now - phase as nat;
      lastTick := phase;
    }

    /** A new alignment, and the phase taken anew from the system clock. */
    method SetAlignment(newAlignment: Alignment, now: nat, epoch: nat)
      requires Valid() && Phase(newAlignment, refillInterval as nat, epoch) <= now
      modifies this`alignment, this`start, this`lastTick
      ensures Valid() && alignment == newAlignment && View() == Synchronised(old(View()), newAlignment, now, epoch)
    {
      alignment := newAlignment;
      var phase := PhaseOf(alignment, refillInterval, epoch);
      start := now - phase as nat;
      lastTick := phase;
    }
  }

  method PhaseOf(alignment: Alignment, interval: u64, epoch: nat) returns (phase: u64)
    ensures phase as nat == Phase(alignment, interval as nat, epoch)
  {
    match alignment
    case Minute => phase := (epoch % 60_000_000_000) as u64;
    case Second => phase := (epoch % 1_000_000_000) as u64;
    case Interval => phase := if interval == 0 then 0 else (epoch % interval as nat) as u64;
  }

  /** Every product, sum and quotient of a refill, and of the hint after it, fits when the state does. */
  lemma RefillFits(b: Bucket, now: nat)
    requires Fits(b, now)
    ensures b.start <= now && now - b.start <= U64_MAX
    ensures var ticks := Ticks(b, now);
            var elapsed := if now - b.start >= b.lastTick then now - b.start - b.lastTick else 0;
            && (b.interval > 0 ==> ticks == elapsed / b.interval)
            && 0 <= ticks * b.interval <= U64_MAX && b.lastTick + ticks * b.interval + b.interval <= U64_MAX
            && 0 <= ticks * b.refill <= U64_MAX && b.dropped + b.available + ticks * b.refill <= U64_MAX
  {
    var x := now - b.start - b.lastTick;
    if b.interval > 0 {
      if x >= 0 {
        assert x == x / b.interval * b.interval + x % b.interval;
      } else {
        DivUnique(0, b.interval, 0, 0);
      }
    }
  }

  /** The wall-clock time that `build` works with: the server's, carried on by the local clock since it was
      captured, or else the system's. */
  function EpochAt(sync: Option<(nat, nat)>, now: nat, system: nat): nat {
    match sync
    case None => system
    case Some((serverMs, capturedAt)) =>
      var ms := serverMs + (if now > capturedAt then now - capturedAt else 0) / 1_000_000;
      (if ms > U64_MAX then U64_MAX else ms) * 1_000_000
  }

  method Build(amount: u64, interval: nat, maxTokens: u64, initialAvailable: u64, alignment: Alignment,
               sync: Option<(nat, nat)>, now: nat, system: nat)
    returns (r: BuildResult)
    requires maxTokens >= amount && interval <= U64_MAX && initialAvailable <= maxTokens ==>
               Phase(alignment, interval, EpochAt(sync, now, system)) <= now
    ensures r.Failed? ==> r.error == if maxTokens < amount then MaxTokensTooLow
                                     else if interval > U64_MAX then RefillIntervalTooLong
                                     else AvailableTokensTooHigh
    ensures r.Failed? <==> maxTokens < amount || interval > U64_MAX || initialAvailable > maxTokens
    ensures r.Built? ==>
              && fresh(r.limiter) && r.limiter.Valid() && r.limiter.alignment == alignment
              && r.limiter.View()
                 == Synchronised(Bucket(initialAvailable as nat, 0, 0, 0, maxTokens as nat, amount as nat, interval),
                                 alignment, now, EpochAt(sync, now, system))
  {
    if maxTokens < amount { return Failed(MaxTokensTooLow); }
    if interval > U64_MAX { return Failed(RefillIntervalTooLong); }
    if initialAvailable > maxTokens { return Failed(AvailableTokensTooHigh); }
    var phase := PhaseOf(alignment, interval as u64, EpochAt(sync, now, system));
    var limiter := new Limiter(initialAvailable, maxTokens, amount, interval as u64, alignment, now - phase as nat, phase);
    return Built(limiter);
  }
}

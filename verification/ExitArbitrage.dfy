/**
 Leaving an arbitrage: sell on the spot bids, buy on the future asks, until the executed quantity is
 closed or the gain is too small. Unlike entering, a turn may fill nothing at a level of no volume
 and pass it.
 */
module ExitArbitrage {
  import opened Wrappers
  import opened MaxPrice
  import opened Matching

  datatype Request = Request(
    spot: seq<(real, real)>, future: seq<(real, real)>, executed: real, percent: real, contractSize: real)

  datatype Match = Match(
    i: nat, j: nat, spotLeft: seq<real>, futureLeft: seq<real>, available: real,
    spotOrders: seq<Order>, futureOrders: seq<Order>)

  datatype Result = Result(
    spotOrders: seq<Order>, futureOrders: seq<Order>, maxPrice: PricePair, executed: real, completed: bool)

  ghost predicate Fair(r: Request) {
    && PositivePrices(r.spot) && PositivePrices(r.future)
    && (forall k :: 0 <= k < |r.spot| ==> r.spot[k].1 >= 0.0)
    && (forall k :: 0 <= k < |r.future| ==> r.future[k].1 >= 0.0)
    && 0.0 < r.contractSize <= 1.0
  }

  function Start(r: Request): Match {
    Match(0, 0, Volumes(r.spot), Volumes(r.future), r.executed, [], [])
  }

  ghost predicate InBounds(r: Request, m: Match) {
    |m.spotLeft| == |r.spot| && |m.futureLeft| == |r.future| && m.i <= |r.spot| && m.j <= |r.future|
  }

  predicate Guard(r: Request, m: Match) {
    m.i < |r.spot| && m.j < |r.future| && CleanResidual(m.available, EPS) > 0.0
  }

  /** The gain from buying the future level and selling the spot level. */
  function CurrentGain(r: Request, m: Match): real
    requires PositivePrices(r.future) && m.i < |r.spot| && m.j < |r.future|
  {
    Gain(r.future[m.j].0, r.spot[m.i].0)
  }

  function FillQty(r: Request, m: Match): real
    requires InBounds(r, m) && m.i < |r.spot| && m.j < |r.future|
  {
    Min(Min(m.available, m.spotLeft[m.i]), Offered(m.futureLeft[m.j], r.contractSize))
  }

  function Turn(r: Request, m: Match): (m': Match)
    requires InBounds(r, m) && m.i < |r.spot| && m.j < |r.future|
    ensures InBounds(r, m')
  {
    var q := FillQty(r, m);
    var spotLeft := if q > 0.0 then TakeFrom(m.spotLeft, m.i, q) else m.spotLeft;
    var futureLeft := if q > 0.0 then TakeFrom(m.futureLeft, m.j, q) else m.futureLeft;
    Match(NextLevel(spotLeft, m.i), NextLevel(futureLeft, m.j), spotLeft, futureLeft, m.available - q,
          Record(m.spotOrders, r.spot[m.i].0, q), Record(m.futureOrders, r.future[m.j].0, q))
  }

  // ---------------------------------------------------------------- what every turn keeps

  ghost predicate LevelsGood(r: Request, m: Match) {
    && Remaining(r.spot, m.spotLeft, m.i) && Remaining(r.future, m.futureLeft, m.j)
    && Sum(m.spotLeft) == Sum(Volumes(r.spot)) - (r.executed - m.available)
    && Sum(m.futureLeft) == Sum(Volumes(r.future)) - (r.executed - m.available)
  }

  ghost predicate OrdersGood(r: Request, m: Match) {
    && (m.available >= 0.0 || m.available == r.executed)
    && m.available <= r.executed
    && Quantity(m.spotOrders) == Quantity(m.futureOrders) == r.executed - m.available
    && Consolidated(m.spotOrders, 0.0) && Consolidated(m.futureOrders, 0.0)
  }

  ghost predicate Good(r: Request, m: Match) {
    InBounds(r, m) && LevelsGood(r, m) && OrdersGood(r, m)
  }

  lemma StartIsGood(r: Request)
    requires Fair(r)
    ensures Good(r, Start(r))
  {
  }

  /** A fill is not negative and within what is left to close and at both levels; and it uses up one of
      the three, or a fixed share of the future level. */
  lemma FillBounds(r: Request, m: Match)
    requires Fair(r) && InBounds(r, m) && LevelsGood(r, m) && Guard(r, m)
    ensures var q := FillQty(r, m);
            && 0.0 <= q <= m.available && q <= m.spotLeft[m.i] && q <= m.futureLeft[m.j]
            && m.available >= EPS
            && (q == m.available || q == m.spotLeft[m.i] || q == Offered(m.futureLeft[m.j], r.contractSize))
  {
    hide Sum, Offered;
    OfferedBounds(m.futureLeft[m.j], r.contractSize);
  }

  lemma TurnKeepsLevels(r: Request, m: Match)
    requires Fair(r) && InBounds(r, m) && LevelsGood(r, m) && Guard(r, m)
    ensures LevelsGood(r, Turn(r, m))
  {
    hide Sum, Record, FillQty;
    FillBounds(r, m);
    var q := FillQty(r, m);
    TakeKeepsRemaining(r.spot, m.spotLeft, m.i, q);
    TakeKeepsRemaining(r.future, m.futureLeft, m.j, q);
    if q <= 0.0 {
      assert TakeFrom(m.spotLeft, m.i, q) == m.spotLeft && TakeFrom(m.futureLeft, m.j, q) == m.futureLeft;
    }
  }

  lemma TurnKeepsOrders(r: Request, m: Match)
    requires Fair(r) && InBounds(r, m) && LevelsGood(r, m) && OrdersGood(r, m) && Guard(r, m)
    ensures OrdersGood(r, Turn(r, m))
  {
    hide LevelsGood, Record, FillQty, NextLevel, TakeFrom, Quantity, Consolidated, Cost;
    FillBounds(r, m);
    var q := FillQty(r, m);
    RecordCounts(m.spotOrders, r.spot[m.i].0, q);
    RecordCounts(m.futureOrders, r.future[m.j].0, q);
    RecordConsolidates(m.spotOrders, r.spot[m.i].0, q, 0.0);
    RecordConsolidates(m.futureOrders, r.future[m.j].0, q, 0.0);
  }

  // ---------------------------------------------------------------- whole runs

  /** How often the current future level can still give its share before it is used up. */
  ghost function TurnsLeft(r: Request, m: Match): real
    requires InBounds(r, m) && r.contractSize > 0.0
  {
    if m.j < |r.future| then m.futureLeft[m.j] / (EPS * r.contractSize) else 0.0
  }

  lemma Shrinks(left: real, q: real, contractSize: real)
    requires 0.0 < contractSize && left - q >= 0.0 && q >= EPS * contractSize
    ensures 0.0 <= (left - q) / (EPS * contractSize) <= left / (EPS * contractSize) - 1.0
  {
    var unit := EPS * contractSize;
    assert unit > 0.0;
    var (before, after) := (left / unit, (left - q) / unit);
    assert before * unit == left && after * unit == left - q;
    assert (before - after - 1.0) * unit == q - unit;
    SignOfProduct(before - after - 1.0, unit);
    SignOfProduct(after, unit);
  }

  /** Every turn passes a level, or takes at least a fixed quantity from the current future level. */
  lemma TurnProgresses(r: Request, m: Match)
    requires Fair(r) && InBounds(r, m) && LevelsGood(r, m) && Guard(r, m)
    ensures var m' := Turn(r, m);
            && m.i <= m'.i && m.j <= m'.j
            && (m'.i == m.i && m'.j == m.j ==> 0.0 <= TurnsLeft(r, m') <= TurnsLeft(r, m) - 1.0)
  {
    hide Sum, Record, FillQty, Offered;
    FillBounds(r, m);
    var m' := Turn(r, m);
    if m'.i == m.i && m'.j == m.j {
      var (q, left, c) := (FillQty(r, m), m.futureLeft[m.j], r.contractSize);
      assert left >= EPS;
      OfferedBounds(left, c);
      assert m'.spotLeft[m.i] == m.spotLeft[m.i] - q >= EPS;
      assert q >= EPS * c;
      assert m'.futureLeft[m.j] == left - q;
      Shrinks(left, q, c);
    }
  }

  ghost function Run(r: Request, m: Match): (m': Match)
    requires Fair(r) && InBounds(r, m) && LevelsGood(r, m)
    ensures InBounds(r, m')
    decreases |r.spot| + |r.future| - m.i - m.j, TurnsLeft(r, m)
  {
    if !Guard(r, m) || CurrentGain(r, m) < r.percent then m
    else
      TurnKeepsLevels(r, m);
      TurnProgresses(r, m);
      Run(r, Turn(r, m))
  }

  lemma {:induction false} RunIsGood(r: Request, m: Match)
    requires Fair(r) && Good(r, m)
    ensures Good(r, Run(r, m)) && (Guard(r, Run(r, m)) ==> CurrentGain(r, Run(r, m)) < r.percent)
    decreases |r.spot| + |r.future| - m.i - m.j, TurnsLeft(r, m)
  {
    hide LevelsGood, OrdersGood, Turn, CleanResidual, Gain, TurnsLeft;
    if Guard(r, m) && CurrentGain(r, m) >= r.percent {
      TurnKeepsLevels(r, m);
      TurnKeepsOrders(r, m);
      TurnProgresses(r, m);
      RunIsGood(r, Turn(r, m));
    }
  }

  /** A run goes on with the next turn, or is over. */
  lemma RunUnfolds(r: Request, m: Match)
    requires Fair(r) && InBounds(r, m) && LevelsGood(r, m)
    ensures if Guard(r, m) && CurrentGain(r, m) >= r.percent
            then LevelsGood(r, Turn(r, m)) && Run(r, Turn(r, m)) == Run(r, m)
            else Run(r, m) == m
  {
    hide LevelsGood, Turn, Gain;
    if Guard(r, m) && CurrentGain(r, m) >= r.percent { TurnKeepsLevels(r, m); }
  }

  ghost function Final(r: Request): (m: Match)
    requires Fair(r)
    ensures InBounds(r, m)
  {
    StartIsGood(r);
    Run(r, Start(r))
  }

  const NONE_FOUND := PricePair(0.0, 0.0)

  /** The search ran with the sides exchanged, so its pair is turned around. */
  function Finish(r: Request, m: Match, best: Option<PricePair>): Result {
    Result(m.spotOrders, m.futureOrders,
           if best.Some? then PricePair(best.value.future, best.value.spot) else NONE_FOUND,
           r.executed - m.available, CleanResidual(m.available, EPS) == 0.0)
  }

  /** Conservation: both order lists and `executed` agree with what the levels gave; no level gives more than
      its volume; nothing beyond the request is executed; and `completed` means that less than a
      residual is left open. */
  lemma ExitConserves(r: Request, best: Option<PricePair>)
    requires Fair(r)
    ensures var m := Final(r);
            var x := Finish(r, m, best);
            && Quantity(x.spotOrders) == Quantity(x.futureOrders) == x.executed
            && Sum(Volumes(r.spot)) - Sum(m.spotLeft) == x.executed
            && Sum(Volumes(r.future)) - Sum(m.futureLeft) == x.executed
            && (forall k :: 0 <= k < |r.spot| ==> 0.0 <= r.spot[k].1 - m.spotLeft[k] <= r.spot[k].1)
            && (forall k :: 0 <= k < |r.future| ==> 0.0 <= r.future[k].1 - m.futureLeft[k] <= r.future[k].1)
            && (r.executed >= 0.0 ==> 0.0 <= x.executed <= r.executed)
            && (x.completed <==> Abs(r.executed - x.executed) < EPS)
            && Consolidated(x.spotOrders, 0.0) && Consolidated(x.futureOrders, 0.0)
  {
    StartIsGood(r);
    RunIsGood(r, Start(r));
  }

  /** Maximality needs no condition on volumes or contracts: the loop ends only with a side used up, the
      request closed up to a residual, or no pair of remaining levels that gains enough. */
  lemma ExitIsMaximal(r: Request)
    requires Fair(r) && Descending(r.spot) && Ascending(r.future)
    ensures var m := Final(r);
            || m.i == |r.spot| || m.j == |r.future| || m.available < EPS
            || forall i', j' :: m.i <= i' < |r.spot| && m.j <= j' < |r.future| ==>
                 Gain(r.future[j'].0, r.spot[i'].0) < r.percent
  {
    hide LevelsGood, OrdersGood, Run, Gain;
    StartIsGood(r);
    RunIsGood(r, Start(r));
    var m := Final(r);
    if m.i < |r.spot| && m.j < |r.future| && m.available >= EPS {
      NoneGainsFrom(r.future, r.spot, r.percent, m.j, m.i);
    }
  }

  /** The price pair of the result buys a future level and sells a spot level at a gain of at least the
      percentage, and no pair of levels reaches the percentage at a smaller gain; there is none iff no
      pair reaches it. */
  lemma ExitPrices(r: Request, best: Option<PricePair>)
    requires Fair(r) && IsBest(r.future, r.spot, r.percent, |r.future|, best)
    ensures var p := Finish(r, Final(r), best).maxPrice;
            if p == NONE_FOUND then
              forall i, j :: 0 <= i < |r.spot| && 0 <= j < |r.future| ==> Gain(r.future[j].0, r.spot[i].0) < r.percent
            else
              && p.future > 0.0 && Gain(p.future, p.spot) >= r.percent
              && (exists i, j :: 0 <= i < |r.spot| && 0 <= j < |r.future| && p == PricePair(r.spot[i].0, r.future[j].0))
              && forall i, j :: 0 <= i < |r.spot| && 0 <= j < |r.future|
                                && Gain(r.future[j].0, r.spot[i].0) >= r.percent ==>
                   Gain(p.future, p.spot) <= Gain(r.future[j].0, r.spot[i].0)
  {
    hide Run, Gain;
    if best.None? {
      forall i, j | 0 <= i < |r.spot| && 0 <= j < |r.future| ensures Gain(r.future[j].0, r.spot[i].0) < r.percent {
        assert !Qualifies(r.future, r.spot, r.percent, j, i);
      }
    } else {
      forall i, j | 0 <= i < |r.spot| && 0 <= j < |r.future| && Gain(r.future[j].0, r.spot[i].0) >= r.percent
        ensures Gain(best.value.spot, best.value.future) <= Gain(r.future[j].0, r.spot[i].0)
      {
        assert Qualifies(r.future, r.spot, r.percent, j, i);
      }
    }
  }

  lemma {:induction false} RunFollows(r: Request, m: Match, spotFrom: seq<nat>, futureFrom: seq<nat>)
    returns (spotFrom': seq<nat>, futureFrom': seq<nat>)
    requires Fair(r) && InBounds(r, m) && LevelsGood(r, m)
    requires Follows(m.spotOrders, r.spot, m.i, spotFrom) && Follows(m.futureOrders, r.future, m.j, futureFrom)
    ensures var m' := Run(r, m);
            Follows(m'.spotOrders, r.spot, m'.i, spotFrom') && Follows(m'.futureOrders, r.future, m'.j, futureFrom')
    decreases |r.spot| + |r.future| - m.i - m.j, TurnsLeft(r, m)
  {
    hide LevelsGood, Record, Gain, CleanResidual, FillQty, TakeFrom;
    spotFrom', futureFrom' := spotFrom, futureFrom;
    if Guard(r, m) && CurrentGain(r, m) >= r.percent {
      TurnKeepsLevels(r, m);
      TurnProgresses(r, m);
      spotFrom' := RecordFollows(m.spotOrders, r.spot, m.i, spotFrom, FillQty(r, m));
      futureFrom' := RecordFollows(m.futureOrders, r.future, m.j, futureFrom, FillQty(r, m));
      spotFrom', futureFrom' := RunFollows(r, Turn(r, m), spotFrom', futureFrom');
    }
  }

  /** The orders have the prices of levels, in the levels' order and one order for a level at most. */
  lemma ExitOrdersFollowLevels(r: Request, best: Option<PricePair>)
    requires Fair(r)
    ensures var x := Finish(r, Final(r), best);
            && (exists from :: Follows(x.spotOrders, r.spot, |r.spot|, from))
            && (exists from :: Follows(x.futureOrders, r.future, |r.future|, from))
  {
    hide Run, LevelsGood, OrdersGood, CleanResidual;
    StartIsGood(r);
    var spotFrom, futureFrom := RunFollows(r, Start(r), [], []);
    var x := Finish(r, Final(r), best);
    assert Follows(x.spotOrders, r.spot, |r.spot|, spotFrom) && Follows(x.futureOrders, r.future, |r.future|, futureFrom);
  }

  // ---------------------------------------------------------------- what it earns

  /** Orders of this quantity that sold for `sold` and were bought for `bought`, as they say up to float precision, at
      a gain of at least the percentage. */
  ghost predicate Paid(spotOrders: seq<Order>, futureOrders: seq<Order>, quantity: real, percent: real,
                       sold: real, bought: real)
  {
    && Abs(Cost(spotOrders) - sold) <= F64_EPSILON * quantity
    && Abs(Cost(futureOrders) - bought) <= F64_EPSILON * quantity
    && sold >= bought * (1.0 + percent / 100.0)
  }

  ghost predicate Earned(r: Request, m: Match, sold: real, bought: real) {
    Paid(m.spotOrders, m.futureOrders, r.executed - m.available, r.percent, sold, bought)
  }

  lemma RecordPays(spotOrders: seq<Order>, futureOrders: seq<Order>, quantity: real, percent: real, sold: real, bought: real,
                   high: real, low: real, q: real)
    requires Paid(spotOrders, futureOrders, quantity, percent, sold, bought)
    requires q >= 0.0 && low > 0.0 && Gain(low, high) >= percent
    ensures Paid(Record(spotOrders, high, q), Record(futureOrders, low, q), quantity + q, percent,
                 sold + Worth(high, q), bought + Worth(low, q))
  {
    hide Record, Cost, Abs, Gain, Worth;
    RecordCosts(spotOrders, sold, quantity, high, q);
    RecordCosts(futureOrders, bought, quantity, low, q);
    FillPays(sold, bought, high, low, q, percent);
  }

  lemma FillPays(sold: real, bought: real, high: real, low: real, q: real, percent: real)
    requires q >= 0.0 && low > 0.0 && Gain(low, high) >= percent && sold >= bought * (1.0 + percent / 100.0)
    ensures sold + Worth(high, q) >= (bought + Worth(low, q)) * (1.0 + percent / 100.0)
  {
    hide Gain;
    GainPays(low, high, percent, q);
    Totals(bought, sold, low, high, q, percent);
  }

  lemma TurnEarns(r: Request, m: Match, sold: real, bought: real)
    requires Fair(r) && InBounds(r, m) && LevelsGood(r, m) && Guard(r, m) && CurrentGain(r, m) >= r.percent
    requires Earned(r, m, sold, bought)
    ensures var q := FillQty(r, m);
            Earned(r, Turn(r, m), sold + Worth(r.spot[m.i].0, q), bought + Worth(r.future[m.j].0, q))
  {
    hide LevelsGood, Record, FillQty, NextLevel, TakeFrom, Paid, Worth, Gain, CleanResidual;
    FillBounds(r, m);
    var (q, executed) := (FillQty(r, m), r.executed - m.available);
    RecordPays(m.spotOrders, m.futureOrders, executed, r.percent, sold, bought, r.spot[m.i].0, r.future[m.j].0, q);
    assert r.executed - Turn(r, m).available == executed + q;
  }

  lemma {:induction false} RunEarns(r: Request, m: Match, revenue: real, outlay: real) returns (sold: real, bought: real)
    requires Fair(r) && InBounds(r, m) && LevelsGood(r, m) && Earned(r, m, revenue, outlay)
    ensures Earned(r, Run(r, m), sold, bought)
    decreases |r.spot| + |r.future| - m.i - m.j, TurnsLeft(r, m)
  {
    hide LevelsGood, Earned, Turn, CleanResidual, Gain, TurnsLeft, Worth;
    if Guard(r, m) && CurrentGain(r, m) >= r.percent {
      TurnKeepsLevels(r, m);
      TurnProgresses(r, m);
      TurnEarns(r, m, revenue, outlay);
      var q := FillQty(r, m);
      sold, bought := RunEarns(r, Turn(r, m), revenue + Worth(r.spot[m.i].0, q), outlay + Worth(r.future[m.j].0, q));
    } else {
      sold, bought := revenue, outlay;
    }
  }

  /** Profit: what the spot orders sell for exceeds what the future orders cost by at least the requested
      percentage, up to float precision on what was executed. */
  lemma ExitProfits(r: Request, best: Option<PricePair>)
    requires Fair(r)
    ensures var x := Finish(r, Final(r), best);
            exists sold, bought :: Paid(x.spotOrders, x.futureOrders, x.executed, r.percent, sold, bought)
  {
    hide Run, LevelsGood, OrdersGood, Paid;
    StartIsGood(r);
    StartEarns(r);
    var sold, bought := RunEarns(r, Start(r), 0.0, 0.0);
    assert Earned(r, Final(r), sold, bought);
    assert Paid(Final(r).spotOrders, Final(r).futureOrders, Finish(r, Final(r), best).executed, r.percent, sold, bought);
  }

  lemma StartEarns(r: Request)
    ensures Earned(r, Start(r), 0.0, 0.0)
  {
  }

  // ---------------------------------------------------------------- contracts smaller than one unit

  /** No future level is filled beyond its volume times the contract size. */
  ghost predicate WithinScaledVolume(r: Request)
    requires Fair(r)
  {
    forall k :: 0 <= k < |r.future| ==> r.future[k].1 - Final(r).futureLeft[k] <= r.future[k].1 * r.contractSize
  }

  lemma {:induction false} RunOnlyTakes(r: Request, m: Match, k: nat)
    requires Fair(r) && InBounds(r, m) && LevelsGood(r, m) && k < |r.future|
    ensures InBounds(r, Run(r, m)) && Run(r, m).futureLeft[k] <= m.futureLeft[k]
    decreases |r.spot| + |r.future| - m.i - m.j, TurnsLeft(r, m)
  {
    hide Sum, Record, Gain, Remaining;
    if Guard(r, m) && CurrentGain(r, m) >= r.percent {
      FillBounds(r, m);
      TurnKeepsLevels(r, m);
      TurnProgresses(r, m);
      RunOnlyTakes(r, Turn(r, m), k);
    }
  }

  /** One level on each side; the future level is large enough to be filled twice. */
  function TwiceFilled(contractSize: real): Request
    requires 0.0 < contractSize < 1.0
  {
    var volume := 1.0 / (contractSize * (1.0 - contractSize));
    Request([(2.0, volume + volume)], [(1.0, volume)], volume + volume, 1.0, contractSize)
  }

  /** One turn when the future level is the tightest limit. */
  lemma TightTurn(r: Request, m: Match, s: real, f: real)
    requires |r.spot| == 1 && |r.future| == 1 && r.spot[0].0 == 2.0 && r.future[0].0 == 1.0 && r.percent == 1.0
    requires m.i == 0 && m.j == 0 && m.spotLeft == [s] && m.futureLeft == [f] && m.available == s
    requires EPS <= f * r.contractSize <= s
    ensures Guard(r, m) && CurrentGain(r, m) >= r.percent
    ensures var q := f * r.contractSize;
            var m' := Turn(r, m);
            && m'.futureLeft == [f - q] && m'.spotLeft == [s - q] && m'.available == s - q
            && (s - q >= EPS ==> m'.i == 0) && (f - q >= EPS ==> m'.j == 0)
  {
    hide Record, Sum;
    var q := f * r.contractSize;
    assert Gain(1.0, 2.0) == 100.0;
    assert FillQty(r, m) == q;
    assert [s][0 := s - q] == [s - q] && [f][0 := f - q] == [f - q];
  }

  /** The start of the twice-filled request, and what its two fills will be. */
  lemma TwiceFilledStart(c: real)
    requires 0.0 < c < 1.0
    ensures var r := TwiceFilled(c);
            var v := r.future[0].1;
            && Fair(r) && r.contractSize == c
            && Start(r).spotLeft == [v + v] && Start(r).futureLeft == [v]
            && EPS <= v * c <= v + v && v - v * c >= EPS && (v - v * c) * c == 1.0 && v + v - v * c >= 1.0
  {
  }

  lemma SmallContractsOverfill(c: real)
    requires 0.0 < c < 1.0
    ensures Fair(TwiceFilled(c)) && !WithinScaledVolume(TwiceFilled(c))
  {
    hide Record, Sum, Turn, Guard, LevelsGood, OrdersGood, Min, Gain;
    TwiceFilledStart(c);
    var r := TwiceFilled(c);
    var v := r.future[0].1;
    StartIsGood(r);
    TightTurn(r, Start(r), v + v, v);
    TurnKeepsLevels(r, Start(r));
    TurnProgresses(r, Start(r));
    var m := Turn(r, Start(r));
    var (s, f) := (m.spotLeft[0], m.futureLeft[0]);
    assert s == v + v - v * c && f == v - v * c && f * c == 1.0;
    TightTurn(r, m, s, f);
    TurnKeepsLevels(r, m);
    TurnProgresses(r, m);
    assert Run(r, Start(r)) == Run(r, m) == Run(r, Turn(r, m));
    RunOnlyTakes(r, Turn(r, m), 0);
    assert Final(r).futureLeft[0] <= v - v * c - 1.0;
  }

  /** The loop offers a future level's volume times the contract size, but takes the fill from the unscaled
      volume. A level is never filled beyond its scaled volume exactly when contracts are whole units. */
  lemma ScaledVolumeIff(contractSize: real)
    requires 0.0 < contractSize <= 1.0
    ensures (forall r :: Fair(r) && r.contractSize == contractSize ==> WithinScaledVolume(r)) <==> contractSize == 1.0
  {
    hide Fair, WithinScaledVolume;
    if contractSize < 1.0 {
      SmallContractsOverfill(contractSize);
      assert TwiceFilled(contractSize).contractSize == contractSize;
    } else {
      forall r | Fair(r) && r.contractSize == contractSize ensures WithinScaledVolume(r) {
        WholeContractsFit(r);
      }
    }
  }

  lemma WholeContractsFit(r: Request)
    requires Fair(r) && r.contractSize == 1.0
    ensures WithinScaledVolume(r)
  {
    hide Run, OrdersGood, Sum;
    ExitConserves(r, None);
  }

  // ---------------------------------------------------------------- the loop itself

  /** `do_exit_arbitrage`: the turns performed in place, and the threshold search with the sides exchanged. */
  method DoExit(r: Request) returns (x: Result)
    requires Fair(r)
    ensures exists best :: Found(r.future, r.spot, r.percent, best) && x == Finish(r, Final(r), best)
  {
    hide Sum, Record, Min, CleanResidual, Gain, Offered, LevelsGood, MaxPrice.Found;
    hide OrdersGood, TurnsLeft, Ascending, Descending, Run, Volumes;
    StartIsGood(r);
    var spotLeft, futureLeft := Volumes(r.spot), Volumes(r.future);
    var i, j := 0, 0;
    var available := r.executed;
    var spotResults, futureResults: seq<Order> := [], [];
    ghost var m := Start(r);
    while i < |r.spot| && j < |r.future| && CleanResidual(available, EPS) > 0.0
      invariant m == Match(i, j, spotLeft, futureLeft, available, spotResults, futureResults)
      invariant InBounds(r, m) && LevelsGood(r, m) && Run(r, m) == Final(r)
      decreases |r.spot| + |r.future| - i - j, TurnsLeft(r, m)
    {
      var spotPrice, spotVol := r.spot[i].0, spotLeft[i];
      var futurePrice, futureVol := r.future[j].0, Offered(futureLeft[j], r.contractSize);
      var diff := Gain(futurePrice, spotPrice);
      RunUnfolds(r, m);
      if diff < r.percent { break; }
      TurnProgresses(r, m);
      var qty := Min(Min(available, spotVol), futureVol);
      assert qty == FillQty(r, m);
      m := Turn(r, m);
      available := available - qty;
      spotResults := Record(spotResults, spotPrice, qty);
      futureResults := Record(futureResults, futurePrice, qty);
      if qty > 0.0 {
        spotLeft := spotLeft[i := spotLeft[i] - qty];
        futureLeft := futureLeft[j := futureLeft[j] - qty];
      }
      if CleanResidual(spotLeft[i], EPS) == 0.0 { i := i + 1; }
      if CleanResidual(futureLeft[j], EPS) == 0.0 { j := j + 1; }
    }
    RunUnfolds(r, m);
    assert Final(r) == m;
    var completed := CleanResidual(available, EPS) == 0.0;
    var best := FindMaxPrice(r.future, r.spot, r.percent);
    var maxPrice := if best.Some? then PricePair(best.value.future, best.value.spot) else PricePair(0.0, 0.0);
    x := Result(spotResults, futureResults, maxPrice, r.executed - available, completed);
    assert x == Finish(r, m, best);
  }
}

/**
 Entering an arbitrage: buy on the spot asks, sell on the future bids, level against level, while the
 gain is large enough and the budget lasts. One turn of the loop is a function on the matcher's
 state, whole runs are proved about by following the turns, and `DoEntry` performs them.
 */
module EntryArbitrage {
  import opened Wrappers
  import opened MaxPrice
  import opened Matching

  datatype Request = Request(
    spot: seq<(real, real)>, future: seq<(real, real)>,
    amount: real, margin: real, percent: real, contractSize: real)

  datatype Match = Match(
    i: nat, j: nat, spotLeft: seq<real>, futureLeft: seq<real>, available: real,
    spotOrders: seq<Order>, futureOrders: seq<Order>,
    totalSpot: real, totalFuture: real, qty: real, completed: bool)

  datatype Result = Result(
    spotOrders: seq<Order>, futureOrders: seq<Order>, maxPrice: PricePair,
    executed: real, completed: bool, profitPercent: real)

  /** What the matcher is used on: priced levels of non-negative volume, and contracts of at most one unit. */
  ghost predicate Fair(r: Request) {
    && PositivePrices(r.spot) && PositivePrices(r.future)
    && (forall k :: 0 <= k < |r.spot| ==> r.spot[k].1 >= 0.0)
    && (forall k :: 0 <= k < |r.future| ==> r.future[k].1 >= 0.0)
    && 0.0 < r.contractSize <= 1.0
  }

  function Start(r: Request): Match {
    Match(0, 0, Volumes(r.spot), Volumes(r.future), r.amount, [], [], 0.0, 0.0, 0.0, false)
  }

  ghost predicate InBounds(r: Request, m: Match) {
    |m.spotLeft| == |r.spot| && |m.futureLeft| == |r.future| && m.i <= |r.spot| && m.j <= |r.future|
  }

  predicate Guard(r: Request, m: Match) {
    m.i < |r.spot| && m.j < |r.future| && CleanResidual(m.available, EPS) > 0.0
  }

  function CurrentGain(r: Request, m: Match): real
    requires PositivePrices(r.spot) && m.i < |r.spot| && m.j < |r.future|
  {
    Gain(r.spot[m.i].0, r.future[m.j].0)
  }

  /** The quantity of the next fill: what the budget buys and both levels offer. */
  function FillQty(r: Request, m: Match): real
    requires PositivePrices(r.spot) && InBounds(r, m) && m.i < |r.spot| && m.j < |r.future|
  {
    Min(Min(Buys(m.available, r.spot[m.i].0), m.spotLeft[m.i]), Offered(m.futureLeft[m.j], r.contractSize))
  }

  /** The loop breaks off: the gain is nothing or too small, or there is nothing to fill. */
  predicate Breaks(r: Request, m: Match)
    requires PositivePrices(r.spot) && InBounds(r, m) && m.i < |r.spot| && m.j < |r.future|
  {
    || CleanResidual(CurrentGain(r, m), EPS) == 0.0
    || CurrentGain(r, m) < r.percent
    || CleanResidual(FillQty(r, m), EPS) == 0.0
  }

  function InBand(r: Request, total: real): bool {
    !OutsideTolerance(r.amount, total, r.margin)
  }

  function Turn(r: Request, m: Match): (m': Match)
    requires PositivePrices(r.spot) && InBounds(r, m) && m.i < |r.spot| && m.j < |r.future|
    ensures InBounds(r, m')
  {
    var q := FillQty(r, m);
    var (spotPrice, futurePrice) := (r.spot[m.i].0, r.future[m.j].0);
    var spotLeft := TakeFrom(m.spotLeft, m.i, q);
    var futureLeft := TakeFrom(m.futureLeft, m.j, q);
    var (totalSpot, totalFuture) := (m.totalSpot + Worth(spotPrice, q), m.totalFuture + Worth(futurePrice, q));
    Match(NextLevel(spotLeft, m.i), NextLevel(futureLeft, m.j), spotLeft, futureLeft,
          m.available - Worth(spotPrice, q),
          Record(m.spotOrders, spotPrice, q), Record(m.futureOrders, futurePrice, q),
          totalSpot, totalFuture, m.qty + q,
          InBand(r, totalSpot) && InBand(r, totalFuture))
  }

  // ---------------------------------------------------------------- what every turn keeps

  /** The position and the levels. */
  ghost predicate LevelsGood(r: Request, m: Match) {
    && Remaining(r.spot, m.spotLeft, m.i) && Remaining(r.future, m.futureLeft, m.j)
    && Sum(m.spotLeft) == Sum(Volumes(r.spot)) - m.qty
    && Sum(m.futureLeft) == Sum(Volumes(r.future)) - m.qty
  }

  /** The money: nothing is spent that is not there. */
  ghost predicate MoneyGood(r: Request, m: Match) {
    && m.totalSpot + m.available == r.amount
    && (m.available >= 0.0 || m.available == r.amount)
    && m.totalFuture >= m.totalSpot * (1.0 + r.percent / 100.0)
    && m.totalSpot >= 0.0
    && (m.qty == 0.0 ==> m == Start(r))
    && (m.qty == 0.0 || (m.qty >= EPS && m.totalSpot > 0.0))
    && m.completed == (m.qty > 0.0 && InBand(r, m.totalSpot) && InBand(r, m.totalFuture))
  }

  /** The orders: both lists add up to the quantity, and cost what was paid up to float precision. */
  ghost predicate OrdersGood(m: Match) {
    && Quantity(m.spotOrders) == m.qty && Quantity(m.futureOrders) == m.qty
    && Consolidated(m.spotOrders, EPS) && Consolidated(m.futureOrders, EPS)
    && Abs(Cost(m.spotOrders) - m.totalSpot) <= F64_EPSILON * m.qty
    && Abs(Cost(m.futureOrders) - m.totalFuture) <= F64_EPSILON * m.qty
  }

  ghost predicate Good(r: Request, m: Match) {
    InBounds(r, m) && LevelsGood(r, m) && MoneyGood(r, m) && OrdersGood(m)
  }

  lemma StartIsGood(r: Request)
    requires Fair(r)
    ensures Good(r, Start(r))
  {
  }

  /** A fill uses up the spot level, the scaled future level or the budget, and is at least EPS. */
  lemma FillBounds(r: Request, m: Match)
    requires Fair(r) && InBounds(r, m) && LevelsGood(r, m) && Guard(r, m) && !Breaks(r, m)
    ensures var q := FillQty(r, m);
            && EPS <= q <= m.spotLeft[m.i] && q <= m.futureLeft[m.j] * r.contractSize <= m.futureLeft[m.j]
            && EPS * r.spot[m.i].0 <= r.spot[m.i].0 * q <= m.available
            && (q == m.spotLeft[m.i] || q == m.futureLeft[m.j] * r.contractSize || r.spot[m.i].0 * q == m.available)
            && CurrentGain(r, m) >= r.percent && Abs(CurrentGain(r, m)) >= EPS
  {
    hide Sum;
    var q := FillQty(r, m);
    var price := r.spot[m.i].0;
    assert m.available >= EPS;
    var most := m.available / price;
    assert most * price == m.available;
    if most < 0.0 { ScaleUp(most, 0.0, price); }
    ScaleUp(r.contractSize, 1.0, m.futureLeft[m.j]);
    ScaleUp(0.0, m.futureLeft[m.j], r.contractSize);
    assert q >= 0.0;
    ScaleUp(q, most, price);
    ScaleUp(EPS, q, price);
  }

  lemma TurnKeepsLevels(r: Request, m: Match)
    requires Fair(r) && InBounds(r, m) && LevelsGood(r, m) && Guard(r, m) && !Breaks(r, m)
    ensures LevelsGood(r, Turn(r, m))
  {
    hide Sum, Record, OutsideTolerance;
    FillBounds(r, m);
    TakeKeepsRemaining(r.spot, m.spotLeft, m.i, FillQty(r, m));
    TakeKeepsRemaining(r.future, m.futureLeft, m.j, FillQty(r, m));
  }

  lemma TurnKeepsMoney(r: Request, m: Match)
    requires Fair(r) && InBounds(r, m) && LevelsGood(r, m) && MoneyGood(r, m) && Guard(r, m) && !Breaks(r, m)
    ensures MoneyGood(r, Turn(r, m))
  {
    hide Sum, Record, OutsideTolerance, Start, Remaining, NextLevel, TakeFrom, FillQty, Breaks, Gain, CleanResidual;
    var q := FillQty(r, m);
    var (low, high) := (r.spot[m.i].0, r.future[m.j].0);
    FillBounds(r, m);
    GainPays(low, high, r.percent, q);
    Totals(m.totalSpot, m.totalFuture, low, high, q, r.percent);
    assert EPS * low > 0.0;
  }

  lemma TurnKeepsOrders(r: Request, m: Match)
    requires Fair(r) && InBounds(r, m) && LevelsGood(r, m) && OrdersGood(m) && Guard(r, m) && !Breaks(r, m)
    ensures OrdersGood(Turn(r, m))
  {
    hide Sum, Record, OutsideTolerance, Remaining, NextLevel, TakeFrom, FillQty, Breaks, Gain, CleanResidual;
    hide Quantity, Cost, Consolidated, Abs, Min, Worth, LevelsGood;
    var q := FillQty(r, m);
    FillBounds(r, m);
    RecordKeepsOrders(m.spotOrders, m.totalSpot, m.qty, r.spot[m.i].0, q);
    RecordKeepsOrders(m.futureOrders, m.totalFuture, m.qty, r.future[m.j].0, q);
  }

  /** One side's orders, with a fill recorded. */
  lemma RecordKeepsOrders(orders: seq<Order>, total: real, qty: real, price: real, q: real)
    requires q >= EPS && Quantity(orders) == qty && Consolidated(orders, EPS)
    requires Abs(Cost(orders) - total) <= F64_EPSILON * qty
    ensures var r := Record(orders, price, q);
            && Quantity(r) == qty + q && Consolidated(r, EPS)
            && Abs(Cost(r) - (total + Worth(price, q))) <= F64_EPSILON * (qty + q)
  {
    hide Record, Quantity, Cost, Consolidated, Abs, Worth;
    RecordCounts(orders, price, q);
    RecordConsolidates(orders, price, q, EPS);
    RecordCosts(orders, total, qty, price, q);
  }

  // ---------------------------------------------------------------- whole runs

  /** What is left of the future level the loop is at, in turns of the smallest size. */
  ghost function TurnsLeft(r: Request, m: Match): real
    requires InBounds(r, m)
  {
    if m.j < |r.future| then m.futureLeft[m.j] / EPS else 0.0
  }

  /** Every turn passes a level or takes at least EPS from the current future level. */
  lemma TurnProgresses(r: Request, m: Match)
    requires Fair(r) && InBounds(r, m) && LevelsGood(r, m) && Guard(r, m) && !Breaks(r, m)
    ensures var m' := Turn(r, m);
            && m.i <= m'.i && m.j <= m'.j
            && (m'.i == m.i && m'.j == m.j ==> 0.0 <= TurnsLeft(r, m') <= TurnsLeft(r, m) - 1.0)
  {
    hide Sum, Record, OutsideTolerance;
    FillBounds(r, m);
    TurnKeepsLevels(r, m);
  }

  ghost function Run(r: Request, m: Match): (m': Match)
    requires Fair(r) && InBounds(r, m) && LevelsGood(r, m)
    ensures InBounds(r, m')
    decreases |r.spot| + |r.future| - m.i - m.j, TurnsLeft(r, m)
  {
    if !Guard(r, m) || Breaks(r, m) then m
    else
      TurnKeepsLevels(r, m);
      TurnProgresses(r, m);
      Run(r, Turn(r, m))
  }

  lemma {:induction false} RunIsGood(r: Request, m: Match)
    requires Fair(r) && Good(r, m)
    ensures Good(r, Run(r, m)) && (!Guard(r, Run(r, m)) || Breaks(r, Run(r, m)))
    decreases |r.spot| + |r.future| - m.i - m.j, TurnsLeft(r, m)
  {
    hide LevelsGood, MoneyGood, OrdersGood, Turn, Breaks, CleanResidual;
    if Guard(r, m) && !Breaks(r, m) {
      TurnKeepsLevels(r, m);
      TurnKeepsMoney(r, m);
      TurnKeepsOrders(r, m);
      TurnProgresses(r, m);
      RunIsGood(r, Turn(r, m));
    }
  }

  /** A run goes on with the next turn, or is over. */
  lemma RunUnfolds(r: Request, m: Match)
    requires Fair(r) && InBounds(r, m) && LevelsGood(r, m)
    ensures if Guard(r, m) && !Breaks(r, m) then LevelsGood(r, Turn(r, m)) && Run(r, Turn(r, m)) == Run(r, m)
            else Run(r, m) == m
  {
    hide LevelsGood, Turn, Breaks;
    if Guard(r, m) && !Breaks(r, m) { TurnKeepsLevels(r, m); }
  }

  // ---------------------------------------------------------------- what a run delivers

  const NONE_FOUND := PricePair(0.0, 0.0)

  /** The result after the loop; nothing filled means an empty result. */
  function Finish(r: Request, m: Match, best: Option<PricePair>): Result {
    if CleanResidual(m.qty, EPS) == 0.0 then Result([], [], NONE_FOUND, 0.0, false, 0.0)
    else
      Result(m.spotOrders, m.futureOrders, if best.Some? then best.value else NONE_FOUND, m.qty, m.completed,
             if m.totalSpot > 0.0 then (m.totalFuture - m.totalSpot) / m.totalSpot * 100.0 else 0.0)
  }

  ghost function Final(r: Request): (m: Match)
    requires Fair(r)
    ensures InBounds(r, m)
  {
    StartIsGood(r);
    Run(r, Start(r))
  }

  /** Conservation: both order lists and `executed` agree, no level gives more than its volume, what is
      taken from each side is what was executed, and the budget is not exceeded. */
  lemma EntryConserves(r: Request, best: Option<PricePair>)
    requires Fair(r)
    ensures var m := Final(r);
            var x := Finish(r, m, best);
            && Quantity(x.spotOrders) == Quantity(x.futureOrders) == x.executed == m.qty
            && Sum(Volumes(r.spot)) - Sum(m.spotLeft) == x.executed
            && Sum(Volumes(r.future)) - Sum(m.futureLeft) == x.executed
            && (forall k :: 0 <= k < |r.spot| ==> 0.0 <= r.spot[k].1 - m.spotLeft[k] <= r.spot[k].1)
            && (forall k :: 0 <= k < |r.future| ==> 0.0 <= r.future[k].1 - m.futureLeft[k] <= r.future[k].1)
            && (x.executed > 0.0 ==> m.totalSpot <= r.amount)
            && Abs(Cost(x.spotOrders) - m.totalSpot) <= F64_EPSILON * x.executed
            && Abs(Cost(x.futureOrders) - m.totalFuture) <= F64_EPSILON * x.executed
            && Consolidated(x.spotOrders, EPS) && Consolidated(x.futureOrders, EPS)
  {
    hide Run, Sum, Quantity, Cost, Consolidated, InBand;
    assert Quantity([]) == 0.0 && Cost([]) == 0.0 && Consolidated([], EPS) by { NoOrders(); }
    StartIsGood(r);
    RunIsGood(r, Start(r));
  }

  lemma NoOrders()
    ensures Quantity([]) == 0.0 && Cost([]) == 0.0 && Consolidated([], EPS)
  {
  }

  /** `future` exceeds `spot` by that percentage, when both may be off by `error`. */
  ghost predicate Exceeds(profit: real, spot: real, future: real, error: real) {
    Abs(profit * spot - (future - spot) * 100.0) <= (Abs(profit) + 200.0) * error
  }

  /** Profit: whenever anything is filled, `profitPercent` is the percentage by which what the sales bring exceeds
      what the purchases cost, and at least the requested one; in terms of the two order lists it is that up to float
      precision. `completed` says that both totals are no farther from the amount than the margin. An empty
      result is all zero. */
  lemma EntryProfits(r: Request, best: Option<PricePair>)
    requires Fair(r)
    ensures var m := Final(r);
            var x := Finish(r, m, best);
            && (x.spotOrders != [] <==> x.executed > 0.0) && (x.futureOrders != [] <==> x.executed > 0.0)
            && (x.executed > 0.0 ==>
                  && m.totalSpot > 0.0 && m.totalFuture >= m.totalSpot * (1.0 + r.percent / 100.0)
                  && x.profitPercent >= r.percent
                  && x.profitPercent * m.totalSpot == (m.totalFuture - m.totalSpot) * 100.0
                  && Exceeds(x.profitPercent, Cost(x.spotOrders), Cost(x.futureOrders), F64_EPSILON * x.executed))
            && (x.completed <==> x.executed > 0.0 && Abs(m.totalSpot - r.amount) <= r.amount * r.margin / 100.0
                                 && Abs(m.totalFuture - r.amount) <= r.amount * r.margin / 100.0)
            && (x.executed <= 0.0 ==> x == Result([], [], PricePair(0.0, 0.0), 0.0, false, 0.0))
  {
    hide LevelsGood, OutsideTolerance, Run, Cost, Consolidated, Abs, Exceeds;
    StartIsGood(r);
    RunIsGood(r, Start(r));
    var m := Final(r);
    ToleranceIff(r.amount, m.totalSpot, r.margin);
    ToleranceIff(r.amount, m.totalFuture, r.margin);
    assert Quantity([]) == 0.0;
    assert CleanResidual(m.qty, EPS) == 0.0 <==> m.qty == 0.0 by { QuantityClean(m.qty); }
    if m.qty > 0.0 {
      var x := Finish(r, m, best);
      var profit := x.profitPercent;
      assert x.spotOrders == m.spotOrders && x.futureOrders == m.futureOrders && x.executed == m.qty;
      RequiredIff(m.totalSpot, m.totalFuture, r.percent);
      ProfitOf(m.totalSpot, m.totalFuture, profit);
      ListedProfit(profit, m.totalSpot, m.totalFuture, Cost(m.spotOrders), Cost(m.futureOrders), F64_EPSILON * m.qty);
    }
  }

  lemma QuantityClean(qty: real)
    requires qty == 0.0 || qty >= EPS
    ensures CleanResidual(qty, EPS) == 0.0 <==> qty == 0.0
  {
  }

  lemma ProfitOf(spot: real, future: real, profit: real)
    requires spot > 0.0 && profit == (future - spot) / spot * 100.0
    ensures profit * spot == (future - spot) * 100.0
  {
  }

  /** The profit against the totals, taken over to costs that are close to them. */
  lemma ListedProfit(profit: real, spot: real, future: real, spotCost: real, futureCost: real, error: real)
    requires profit * spot == (future - spot) * 100.0
    requires Abs(spotCost - spot) <= error && Abs(futureCost - future) <= error
    ensures Exceeds(profit, spotCost, futureCost, error)
  {
    var (ds, df) := (spotCost - spot, futureCost - future);
    assert spotCost == spot + ds && profit * spotCost == profit * spot + profit * ds;
    AbsProduct(profit, ds, error);
    assert profit * spotCost - (futureCost - spotCost) * 100.0 == profit * ds - (df - ds) * 100.0;
    assert (Abs(profit) + 200.0) * error == Abs(profit) * error + 200.0 * error;
  }

  lemma AbsProduct(x: real, y: real, bound: real)
    requires Abs(y) <= bound
    ensures Abs(x * y) <= Abs(x) * bound
  {
    if x >= 0.0 {
      ScaleUp(y, bound, x);
      ScaleUp(-bound, y, x);
    } else {
      ScaleUp(y, bound, -x);
      ScaleUp(-bound, y, -x);
      assert (-x) * y == -(x * y) && (-x) * (-bound) == x * bound;
    }
  }

  lemma {:induction false} RunFollows(r: Request, m: Match, spotFrom: seq<nat>, futureFrom: seq<nat>)
    returns (spotFrom': seq<nat>, futureFrom': seq<nat>)
    requires Fair(r) && InBounds(r, m) && LevelsGood(r, m)
    requires Follows(m.spotOrders, r.spot, m.i, spotFrom) && Follows(m.futureOrders, r.future, m.j, futureFrom)
    ensures var m' := Run(r, m);
            Follows(m'.spotOrders, r.spot, m'.i, spotFrom') && Follows(m'.futureOrders, r.future, m'.j, futureFrom')
    decreases |r.spot| + |r.future| - m.i - m.j, TurnsLeft(r, m)
  {
    hide LevelsGood, Record, Breaks, Gain, CleanResidual, FillQty, TakeFrom;
    spotFrom', futureFrom' := spotFrom, futureFrom;
    if Guard(r, m) && !Breaks(r, m) {
      TurnKeepsLevels(r, m);
      TurnProgresses(r, m);
      spotFrom' := RecordFollows(m.spotOrders, r.spot, m.i, spotFrom, FillQty(r, m));
      futureFrom' := RecordFollows(m.futureOrders, r.future, m.j, futureFrom, FillQty(r, m));
      spotFrom', futureFrom' := RunFollows(r, Turn(r, m), spotFrom', futureFrom');
    }
  }

  /** The orders have the prices of levels, in the levels' order and one order for a level at most. */
  lemma EntryOrdersFollowLevels(r: Request, best: Option<PricePair>)
    requires Fair(r)
    ensures var x := Finish(r, Final(r), best);
            && (exists from :: Follows(x.spotOrders, r.spot, |r.spot|, from))
            && (exists from :: Follows(x.futureOrders, r.future, |r.future|, from))
  {
    hide Run, LevelsGood, MoneyGood, OrdersGood, CleanResidual;
    StartIsGood(r);
    assert Follows([], r.spot, |r.spot|, []) && Follows([], r.future, |r.future|, []);
    var spotFrom, futureFrom := RunFollows(r, Start(r), [], []);
    var (m, x) := (Final(r), Finish(r, Final(r), best));
    assert x.spotOrders == m.spotOrders || x.spotOrders == [];
    assert x.futureOrders == m.futureOrders || x.futureOrders == [];
    assert Follows(m.spotOrders, r.spot, |r.spot|, spotFrom) && Follows(m.futureOrders, r.future, |r.future|, futureFrom);
  }

  /** Whenever anything is filled, the result's price pair buys a spot level and sells a future level at a
      gain of at least the percentage, and no pair of levels reaches the percentage at a smaller gain. */
  lemma EntryPrices(r: Request, best: Option<PricePair>)
    requires Fair(r) && IsBest(r.spot, r.future, r.percent, |r.spot|, best)
    requires Finish(r, Final(r), best).executed > 0.0
    ensures var p := Finish(r, Final(r), best).maxPrice;
            && p.spot > 0.0 && Gain(p.spot, p.future) >= r.percent
            && (exists i, j :: 0 <= i < |r.spot| && 0 <= j < |r.future| && p == PricePair(r.spot[i].0, r.future[j].0))
            && forall i, j :: 0 <= i < |r.spot| && 0 <= j < |r.future|
                              && Gain(r.spot[i].0, r.future[j].0) >= r.percent ==>
                 Gain(p.spot, p.future) <= Gain(r.spot[i].0, r.future[j].0)
  {
    hide Gain, LevelsGood, OrdersGood, Turn;
    StartIsGood(r);
    RunIsGood(r, Start(r));
    assert Guard(r, Start(r)) && !Breaks(r, Start(r));
    assert Qualifies(r.spot, r.future, r.percent, 0, 0);
    forall i, j | 0 <= i < |r.spot| && 0 <= j < |r.future| && Gain(r.spot[i].0, r.future[j].0) >= r.percent
      ensures Gain(best.value.spot, best.value.future) <= Gain(r.spot[i].0, r.future[j].0)
    {
      assert Qualifies(r.spot, r.future, r.percent, i, j);
    }
  }

  /** The loop could buy more: levels are left on both sides, and so is a budget that buys something. */
  predicate CanGoOn(r: Request, m: Match)
    requires PositivePrices(r.spot)
  {
    && m.i < |r.spot| && m.j < |r.future| && m.available >= EPS && Buys(m.available, r.spot[m.i].0) >= EPS
  }

  /** What keeps the loop from filling a current pair that gains enough: the gain is a residual, the spot level
      was a residual from the start, or the future level's share of a contract is. */
  predicate Stuck(r: Request, m: Match)
    requires PositivePrices(r.spot) && InBounds(r, m) && m.i < |r.spot| && m.j < |r.future|
  {
    && CurrentGain(r, m) >= r.percent
    && (Abs(CurrentGain(r, m)) < EPS || r.spot[m.i].1 < EPS || Offered(m.futureLeft[m.j], r.contractSize) < EPS)
  }

  /** When greedy matching leaves something out: the loop stops with budget and a remaining pair that gains enough
      exactly when it is stuck at the current pair. */
  lemma EntryLeavesOutIff(r: Request)
    requires Fair(r) && Ascending(r.spot) && Descending(r.future)
    ensures var m := Final(r);
            CanGoOn(r, m) ==>
              ((exists i', j' :: m.i <= i' < |r.spot| && m.j <= j' < |r.future|
                                 && Gain(r.spot[i'].0, r.future[j'].0) >= r.percent)
               <==> Stuck(r, m))
  {
    hide MoneyGood, OrdersGood, OutsideTolerance, Run, Gain, Sum;
    StartIsGood(r);
    RunIsGood(r, Start(r));
    var m := Final(r);
    if CanGoOn(r, m) && CurrentGain(r, m) < r.percent {
      NoneGainsFrom(r.spot, r.future, r.percent, m.i, m.j);
    }
  }

  /** No level is dust, and the percentage is above the residual. */
  ghost predicate NoDust(r: Request) {
    && r.percent >= EPS
    && (forall k :: 0 <= k < |r.spot| ==> r.spot[k].1 >= EPS)
    && (forall k :: 0 <= k < |r.future| ==> r.future[k].1 >= EPS)
  }

  /** The loop leaves no pair that it could still have filled. */
  ghost predicate Maximal(r: Request)
    requires Fair(r)
  {
    var m := Final(r);
    || m.i == |r.spot| || m.j == |r.future| || m.available < EPS
    || m.available / r.spot[m.i].0 < EPS
    || (forall i', j' :: m.i <= i' < |r.spot| && m.j <= j' < |r.future| ==>
          Gain(r.spot[i'].0, r.future[j'].0) < r.percent)
  }

  /** Greedy maximality, with whole contracts. */
  lemma EntryIsMaximal(r: Request)
    requires Fair(r) && Ascending(r.spot) && Descending(r.future) && NoDust(r) && r.contractSize == 1.0
    ensures Maximal(r)
  {
    hide MoneyGood, OrdersGood, OutsideTolerance, Run, Gain;
    StartIsGood(r);
    RunIsGood(r, Start(r));
    EntryLeavesOutIff(r);
  }

  /** A future level that is not dust, but whose share of a contract is. */
  function DustyContracts(contractSize: real): Request {
    Request([(1.0, 1.0)], [(2.0, EPS)], 1.0, 0.0, 1.0, contractSize)
  }

  lemma SmallContractsLeaveOut(contractSize: real)
    requires 0.0 < contractSize < 1.0
    ensures var r := DustyContracts(contractSize);
            Fair(r) && Ascending(r.spot) && Descending(r.future) && NoDust(r) && !Maximal(r)
  {
    hide Sum, Record, OutsideTolerance, Turn;
    var r := DustyContracts(contractSize);
    var m := Start(r);
    assert Gain(1.0, 2.0) == 100.0 && Buys(1.0, 1.0) == 1.0;
    ScaleUp(EPS * contractSize, EPS, 1.0);
    StartIsGood(r);
    assert m.spotLeft == [1.0] && m.futureLeft == [EPS] && FillQty(r, m) == EPS * contractSize < EPS;
    assert Final(r) == m;
  }

  /** Of sorted requests without dust, the loop is maximal on all exactly when contracts are whole units. */
  lemma MaximalIff(contractSize: real)
    requires 0.0 < contractSize <= 1.0
    ensures (forall r :: Fair(r) && Ascending(r.spot) && Descending(r.future) && NoDust(r) && r.contractSize == contractSize
                         ==> Maximal(r))
       <==> contractSize == 1.0
  {
    hide Fair, Ascending, Descending, NoDust, Maximal;
    if contractSize < 1.0 {
      SmallContractsLeaveOut(contractSize);
      assert DustyContracts(contractSize).contractSize == contractSize;
    } else {
      forall r | Fair(r) && Ascending(r.spot) && Descending(r.future) && NoDust(r) && r.contractSize == contractSize
        ensures Maximal(r)
      {
        EntryIsMaximal(r);
      }
    }
  }

  // ---------------------------------------------------------------- contracts smaller than one unit

  /** The loop offers a future level's volume times the contract size, but takes the fill from the unscaled
      volume. A level is never filled beyond its scaled volume exactly when contracts are whole units. */
  ghost predicate WithinScaledVolume(r: Request)
    requires Fair(r)
  {
    forall k :: 0 <= k < |r.future| ==> r.future[k].1 - Final(r).futureLeft[k] <= r.future[k].1 * r.contractSize
  }

  lemma {:induction false} RunOnlyTakes(r: Request, m: Match, k: nat)
    requires Fair(r) && InBounds(r, m) && LevelsGood(r, m) && k < |r.future|
    ensures InBounds(r, Run(r, m)) && Run(r, m).futureLeft[k] <= m.futureLeft[k]
    decreases |r.spot| + |r.future| - m.i - m.j, TurnsLeft(r, m)
  {
    hide Sum, Record, OutsideTolerance, Gain, Remaining;
    if Guard(r, m) && !Breaks(r, m) {
      FillBounds(r, m);
      TurnKeepsLevels(r, m);
      TurnProgresses(r, m);
      RunOnlyTakes(r, Turn(r, m), k);
    }
  }

  /** One level on each side; the future level is large enough to be filled twice. */
  function TwiceFilled(contractSize: real): Request
    requires 0.0 < contractSize < 1.0
  {
    var volume := 1.0 / (contractSize * (1.0 - contractSize));
    Request([(1.0, volume + volume)], [(2.0, volume)], volume + volume, 0.0, 1.0, contractSize)
  }

  /** One turn when the future level is the tightest limit. */
  lemma TightTurn(r: Request, m: Match, s: real, f: real)
    requires |r.spot| == 1 && |r.future| == 1 && r.spot[0].0 == 1.0 && r.future[0].0 == 2.0 && r.percent == 1.0
    requires m.i == 0 && m.j == 0 && m.spotLeft == [s] && m.futureLeft == [f] && m.available == s
    requires EPS <= f * r.contractSize <= s
    ensures Guard(r, m) && !Breaks(r, m)
    ensures var q := f * r.contractSize;
            var m' := Turn(r, m);
            && m'.futureLeft == [f - q] && m'.spotLeft == [s - q] && m'.available == s - q
            && (s - q >= EPS ==> m'.i == 0) && (f - q >= EPS ==> m'.j == 0)
  {
    hide Record, Sum, OutsideTolerance;
    var q := f * r.contractSize;
    assert Gain(1.0, 2.0) == 100.0 && Buys(s, 1.0) == s;
    assert FillQty(r, m) == q;
    assert [s][0 := s - q] == [s - q] && [f][0 := f - q] == [f - q];
  }

  /** The start of the twice-filled request, and what its two fills will be. */
  lemma TwiceFilledStart(c: real)
    requires 0.0 < c < 1.0
    ensures var r := TwiceFilled(c);
            var v := r.future[0].1;
            && Fair(r) && r.contractSize == c
            && Start(r).spotLeft == [v + v] && Start(r).futureLeft == [v]
            && EPS <= v * c <= v + v && v - v * c >= EPS && (v - v * c) * c == 1.0 && v + v - v * c >= 1.0
  {
  }

  lemma SmallContractsOverfill(c: real)
    requires 0.0 < c < 1.0
    ensures Fair(TwiceFilled(c)) && !WithinScaledVolume(TwiceFilled(c))
  {
    hide Record, Sum, OutsideTolerance, Turn, Guard, Breaks, LevelsGood, MoneyGood, OrdersGood, Min, Gain;
    TwiceFilledStart(c);
    var r := TwiceFilled(c);
    var v := r.future[0].1;
    StartIsGood(r);
    TightTurn(r, Start(r), v + v, v);
    TurnKeepsLevels(r, Start(r));
    TurnProgresses(r, Start(r));
    var m := Turn(r, Start(r));
    var (s, f) := (m.spotLeft[0], m.futureLeft[0]);
    assert s == v + v - v * c && f == v - v * c && f * c == 1.0;
    TightTurn(r, m, s, f);
    TurnKeepsLevels(r, m);
    TurnProgresses(r, m);
    assert Run(r, Start(r)) == Run(r, m) == Run(r, Turn(r, m));
    RunOnlyTakes(r, Turn(r, m), 0);
    assert Final(r).futureLeft[0] <= v - v * c - 1.0;
  }

  lemma WholeContractsFit(r: Request)
    requires Fair(r) && r.contractSize == 1.0
    ensures WithinScaledVolume(r)
  {
    hide Run, MoneyGood, OrdersGood, Sum;
    EntryConserves(r, None);
  }

  lemma ScaledVolumeIff(contractSize: real)
    requires 0.0 < contractSize <= 1.0
    ensures (forall r :: Fair(r) && r.contractSize == contractSize ==> WithinScaledVolume(r)) <==> contractSize == 1.0
  {
    hide Fair, WithinScaledVolume;
    if contractSize < 1.0 {
      SmallContractsOverfill(contractSize);
      assert TwiceFilled(contractSize).contractSize == contractSize;
    } else {
      forall r | Fair(r) && r.contractSize == contractSize ensures WithinScaledVolume(r) {
        WholeContractsFit(r);
      }
    }
  }

  // ---------------------------------------------------------------- the loop itself

  /** `do_entry_arbitrage`: the turns performed in place, and the threshold search over the whole books. */
  method DoEntry(r: Request) returns (x: Result)
    requires Fair(r)
    ensures CleanResidual(Final(r).qty, EPS) == 0.0 ==> x == Finish(r, Final(r), None)
    ensures CleanResidual(Final(r).qty, EPS) != 0.0 ==>
              exists best :: Found(r.spot, r.future, r.percent, best) && x == Finish(r, Final(r), best)
  {
    hide Sum, Record, OutsideTolerance, Min, CleanResidual, Gain, Buys, Offered, Worth, LevelsGood, MaxPrice.Found;
    hide MoneyGood, OrdersGood, TurnsLeft, Ascending, Descending, Run, Volumes;
    StartIsGood(r);
    var spotLeft, futureLeft := Volumes(r.spot), Volumes(r.future);
    var i, j := 0, 0;
    var totalSpot, totalFuture, available := 0.0, 0.0, r.amount;
    var spotResults, futureResults: seq<Order> := [], [];
    var qty, completed := 0.0, false;
    ghost var m := Start(r);
    while i < |r.spot| && j < |r.future| && CleanResidual(available, EPS) > 0.0
      invariant m == Match(i, j, spotLeft, futureLeft, available, spotResults, futureResults,
                           totalSpot, totalFuture, qty, completed)
      invariant InBounds(r, m) && LevelsGood(r, m) && Run(r, m) == Final(r)
      decreases |r.spot| + |r.future| - i - j, TurnsLeft(r, m)
    {
      var spotPrice, spotVol := r.spot[i].0, spotLeft[i];
      var futurePrice, futureVol := r.future[j].0, Offered(futureLeft[j], r.contractSize);
      var diff := Gain(spotPrice, futurePrice);
      assert diff == CurrentGain(r, m);
      RunUnfolds(r, m);
      if CleanResidual(diff, EPS) == 0.0 || diff < r.percent { break; }
      var currentQty := Min(Min(Buys(available, spotPrice), spotVol), futureVol);
      assert currentQty == FillQty(r, m);
      if CleanResidual(currentQty, EPS) == 0.0 { break; }
      TurnProgresses(r, m);
      m := Turn(r, m);

      totalSpot := totalSpot + Worth(spotPrice, currentQty);
      available := available - Worth(spotPrice, currentQty);
      spotResults := Record(spotResults, spotPrice, currentQty);
      totalFuture := totalFuture + Worth(futurePrice, currentQty);
      futureResults := Record(futureResults, futurePrice, currentQty);
      spotLeft := spotLeft[i := spotLeft[i] - currentQty];
      futureLeft := futureLeft[j := futureLeft[j] - currentQty];
      if CleanResidual(spotLeft[i], EPS) == 0.0 { i := i + 1; }
      if CleanResidual(futureLeft[j], EPS) == 0.0 { j := j + 1; }
      qty := qty + currentQty;
      completed := !OutsideTolerance(r.amount, totalSpot, r.margin)
                   && !OutsideTolerance(r.amount, totalFuture, r.margin);
    }
    RunUnfolds(r, m);
    assert Final(r) == m;
    if CleanResidual(qty, EPS) == 0.0 {
      return Result([], [], PricePair(0.0, 0.0), 0.0, false, 0.0);
    }
    var profit := totalFuture - totalSpot;
    var profitPercent := if totalSpot > 0.0 then profit / totalSpot * 100.0 else 0.0;
    var best := FindMaxPrice(r.spot, r.future, r.percent);
    var maxPrice := if best.Some? then best.value else PricePair(0.0, 0.0);
    x := Result(spotResults, futureResults, maxPrice, qty, completed, profitPercent);
    assert x == Finish(r, m, best);
  }
}

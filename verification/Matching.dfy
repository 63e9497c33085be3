/**
 What both arbitrage directions share: residuals, consolidated orders, and sums over levels.
 Quantities and prices are exact reals.
 */
module Matching {

  datatype Order = Order(price: real, quantity: real)

  const EPS: real := 0.000000000001

  /** The machine epsilon of a 64-bit float: 2 to the power of -52. */
  const F64_EPSILON: real := 1.0 / 4503599627370496.0

  function Abs(x: real): real {
    if x < 0.0 then -x else x
  }

  function CleanResidual(value: real, epsilon: real): real {
    if Abs(value) < epsilon then 0.0 else value
  }

  predicate OutsideTolerance(base: real, target: real, percent: real) {
    var tolerance := base * percent / 100.0;
    target < base - tolerance || target > base + tolerance
  }

  /** Being in the band is being no farther from the base than its percentage. */
  lemma ToleranceIff(base: real, target: real, percent: real)
    ensures !OutsideTolerance(base, target, percent) <==> Abs(target - base) <= base * percent / 100.0
  {
  }

  function Min(a: real, b: real): real {
    if b < a then b else a
  }

  /** How much a budget buys, what a level offers in units, and what a fill is worth. */
  function Buys(budget: real, price: real): real
    requires price > 0.0
  {
    budget / price
  }

  function Offered(left: real, contractSize: real): real {
    left * contractSize
  }

  function Worth(price: real, quantity: real): real {
    price * quantity
  }

  /** A fill joins the last order when the prices are equal up to float precision. */
  function Record(orders: seq<Order>, price: real, quantity: real): seq<Order> {
    if |orders| > 0 && Abs(orders[|orders| - 1].price - price) < F64_EPSILON then
      var last := orders[|orders| - 1];
      orders[..|orders| - 1] + [Order(last.price, last.quantity + quantity)]
    else orders + [Order(price, quantity)]
  }

  function Quantity(orders: seq<Order>): real {
    if orders == [] then 0.0 else Quantity(orders[..|orders| - 1]) + orders[|orders| - 1].quantity
  }

  function Cost(orders: seq<Order>): real {
    if orders == [] then 0.0
    else Cost(orders[..|orders| - 1]) + orders[|orders| - 1].price * orders[|orders| - 1].quantity
  }

  /** Orders that could not have been joined, each of a quantity of at least `least`. */
  ghost predicate Consolidated(orders: seq<Order>, least: real) {
    && (forall k :: 0 <= k < |orders| ==> orders[k].quantity >= least)
    && (forall k :: 0 < k < |orders| ==> Abs(orders[k - 1].price - orders[k].price) >= F64_EPSILON)
  }

  lemma RecordConsolidates(orders: seq<Order>, price: real, quantity: real, least: real)
    requires quantity >= least >= 0.0 && Consolidated(orders, least)
    ensures Consolidated(Record(orders, price, quantity), least)
  {
  }

  /** Orders that come from levels at or before a position, in the levels' order and from each level at most once:
      order `k` has the price of level `from[k]`. */
  ghost predicate Follows(orders: seq<Order>, levels: seq<(real, real)>, at: int, from: seq<nat>) {
    && |from| == |orders|
    && (forall k :: 0 <= k < |from| ==> from[k] <= at && from[k] < |levels| && orders[k].price == levels[from[k]].0)
    && (forall k, l :: 0 <= k < l < |from| ==> from[k] < from[l])
  }

  lemma RecordFollows(orders: seq<Order>, levels: seq<(real, real)>, at: nat, from: seq<nat>, quantity: real)
    returns (from': seq<nat>)
    requires Follows(orders, levels, at, from) && at < |levels|
    ensures Follows(Record(orders, levels[at].0, quantity), levels, at, from')
  {
    hide Abs;
    var n := |orders| - 1;
    var r := Record(orders, levels[at].0, quantity);
    if |orders| > 0 && Abs(orders[n].price - levels[at].0) < F64_EPSILON {
      from' := from;
      assert forall k :: 0 <= k < |r| ==> r[k].price == orders[k].price;
    } else {
      from' := from + [at];
      if |orders| > 0 && from[n] == at { SamePrice(orders[n].price); }
      assert r == orders + [Order(levels[at].0, quantity)];
    }
  }

  lemma SamePrice(price: real)
    ensures Abs(price - price) < F64_EPSILON
  {
  }

  /** A record adds its quantity, and its cost up to float precision. */
  lemma RecordCounts(orders: seq<Order>, price: real, quantity: real)
    requires quantity >= 0.0
    ensures var r := Record(orders, price, quantity);
            && Quantity(r) == Quantity(orders) + quantity
            && Abs(Cost(r) - (Cost(orders) + price * quantity)) <= F64_EPSILON * quantity
  {
    var r := Record(orders, price, quantity);
    var n := |orders| - 1;
    if |orders| > 0 && Abs(orders[n].price - price) < F64_EPSILON {
      var last := orders[n];
      assert r[..|r| - 1] == orders[..n];
      JoinedCost(Cost(orders[..n]), last.price, last.quantity, price, quantity);
    } else {
      assert r[..|r| - 1] == orders;
      assert Abs(0.0) == 0.0 && F64_EPSILON * quantity >= 0.0;
    }
  }

  lemma JoinedCost(rest: real, lastPrice: real, lastQuantity: real, price: real, quantity: real)
    requires Abs(lastPrice - price) < F64_EPSILON && quantity >= 0.0
    ensures Abs((rest + lastPrice * (lastQuantity + quantity)) - (rest + lastPrice * lastQuantity + price * quantity))
            <= F64_EPSILON * quantity
  {
    assert lastPrice * (lastQuantity + quantity) == lastPrice * lastQuantity + lastPrice * quantity;
    ScaleAbs(lastPrice - price, quantity);
    assert (lastPrice - price) * quantity == lastPrice * quantity - price * quantity;
  }

  lemma ScaleAbs(x: real, q: real)
    requires Abs(x) < F64_EPSILON && q >= 0.0
    ensures Abs(x * q) <= F64_EPSILON * q
  {
  }

  lemma ScaleUp(x: real, y: real, q: real)
    requires x <= y && q >= 0.0
    ensures x * q <= y * q
  {
  }

  lemma Deviation(cost: real, total: real, paid: real, cost': real, qty: real, q: real)
    requires Abs(cost - total) <= F64_EPSILON * qty && Abs(cost' - (cost + paid)) <= F64_EPSILON * q
    ensures Abs(cost' - (total + paid)) <= F64_EPSILON * (qty + q)
  {
  }

  /** Recorded orders go on costing what was paid, up to float precision. */
  lemma RecordCosts(orders: seq<Order>, total: real, quantity: real, price: real, q: real)
    requires q >= 0.0 && Abs(Cost(orders) - total) <= F64_EPSILON * quantity
    ensures Abs(Cost(Record(orders, price, q)) - (total + Worth(price, q))) <= F64_EPSILON * (quantity + q)
  {
    hide Record, Cost, Abs;
    RecordCounts(orders, price, q);
    Deviation(Cost(orders), total, price * q, Cost(Record(orders, price, q)), quantity, q);
  }

  /** A level offers no more than it has, and a level of at least EPS offers a fixed share of it. */
  lemma OfferedBounds(left: real, contractSize: real)
    requires 0.0 <= left && 0.0 < contractSize <= 1.0
    ensures 0.0 <= Offered(left, contractSize) <= left
    ensures left >= EPS ==> Offered(left, contractSize) >= EPS * contractSize
    ensures EPS * contractSize <= EPS
  {
  }

  function Sum(s: seq<real>): real {
    if s == [] then 0.0 else Sum(s[..|s| - 1]) + s[|s| - 1]
  }

  lemma {:induction false} SumUpdate(s: seq<real>, k: nat, x: real)
    requires k < |s|
    ensures Sum(s[k := x]) == Sum(s) - s[k] + x
  {
    var n := |s| - 1;
    if k == n {
      assert s[k := x][..n] == s[..n];
    } else {
      SumUpdate(s[..n], k, x);
      assert s[k := x][..n] == s[..n][k := x];
    }
  }

  /** The volumes of a side, level by level. */
  function Volumes(levels: seq<(real, real)>): (v: seq<real>)
    ensures |v| == |levels| && forall k :: 0 <= k < |levels| ==> v[k] == levels[k].1
  {
    seq(|levels|, k requires 0 <= k < |levels| => levels[k].1)
  }

  /** What is left of each level: all of it beyond the current level, part of it or almost nothing at
      it, almost nothing before it, and never more than there was or less than nothing. */
  ghost predicate Remaining(levels: seq<(real, real)>, left: seq<real>, at: nat) {
    && |left| == |levels| && at <= |levels|
    && (forall k :: 0 <= k < |levels| ==> 0.0 <= left[k] <= levels[k].1)
    && (forall k :: at < k < |levels| ==> left[k] == levels[k].1)
    && (forall k :: 0 <= k < at ==> left[k] < EPS)
    && (at < |levels| ==> left[at] == levels[at].1 || left[at] >= EPS)
  }

  function TakeFrom(left: seq<real>, k: nat, q: real): seq<real>
    requires k < |left|
  {
    left[k := left[k] - q]
  }

  /** The position after a fill: past the level when it is used up to a residual. */
  function NextLevel(left: seq<real>, k: nat): nat
    requires k < |left|
  {
    if CleanResidual(left[k], EPS) == 0.0 then k + 1 else k
  }

  lemma TakeKeepsRemaining(levels: seq<(real, real)>, left: seq<real>, at: nat, q: real)
    requires Remaining(levels, left, at) && at < |levels| && 0.0 <= q <= left[at]
    ensures Remaining(levels, TakeFrom(left, at, q), NextLevel(TakeFrom(left, at, q), at))
    ensures Sum(TakeFrom(left, at, q)) == Sum(left) - q
  {
    SumUpdate(left, at, left[at] - q);
  }
}

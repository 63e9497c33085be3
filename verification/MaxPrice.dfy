/**
 The threshold search: of all pairs of a buying and a selling price, one whose gain is at
 least the wanted percentage and exceeds it least. Prices are exact reals.
 */
module MaxPrice {
  import opened Wrappers

  datatype PricePair = PricePair(spot: real, future: real)

  ghost predicate Ascending(levels: seq<(real, real)>) {
    forall i, j :: 0 <= i < j < |levels| ==> levels[i].0 <= levels[j].0
  }

  ghost predicate Descending(levels: seq<(real, real)>) {
    forall i, j :: 0 <= i < j < |levels| ==> levels[i].0 >= levels[j].0
  }

  ghost predicate PositivePrices(levels: seq<(real, real)>) {
    forall i :: 0 <= i < |levels| ==> levels[i].0 > 0.0
  }

  /** The gain in percent from buying at `low` and selling at `high`. */
  function Gain(low: real, high: real): real
    requires low > 0.0
  {
    (high - low) / low * 100.0
  }

  function Excess(low: real, high: real, percentage: real): real
    requires low > 0.0
  {
    Gain(low, high) - percentage
  }

  function Required(low: real, percentage: real): real {
    low * (1.0 + percentage / 100.0)
  }

  lemma SignOfProduct(x: real, y: real)
    requires y > 0.0
    ensures x >= 0.0 <==> x * y >= 0.0
  {
  }

  /** Reaching the required price is the same as gaining at least the percentage. */
  lemma RequiredIff(low: real, high: real, percentage: real)
    requires low > 0.0
    ensures high >= Required(low, percentage) <==> Excess(low, high, percentage) >= 0.0
  {
  }

  lemma ExcessGrows(low: real, high: real, higher: real, percentage: real)
    requires low > 0.0 && high <= higher
    ensures Excess(low, high, percentage) <= Excess(low, higher, percentage)
  {
  }

  /** A price that is positive but below what one buying price requires is below what any higher one
      requires, whatever the percentage. */
  lemma RequiredGrows(low: real, higher: real, percentage: real, price: real)
    requires 0.0 < low <= higher && 0.0 < price < Required(low, percentage)
    ensures price < Required(higher, percentage)
  {
  }

  /** A pair that falls short makes every worse pair fall short. */
  lemma WorseFallsShort(low: real, high: real, low': real, high': real, percent: real)
    requires 0.0 < low <= low' && 0.0 < high' <= high && Gain(low, high) < percent
    ensures Gain(low', high') < percent
  {
  }

  /** Once the current pair falls short, no pair of remaining levels gains enough. */
  lemma NoneGainsFrom(increasing: seq<(real, real)>, decreasing: seq<(real, real)>, percent: real, i: nat, j: nat)
    requires PositivePrices(increasing) && PositivePrices(decreasing) && Ascending(increasing) && Descending(decreasing)
    requires i < |increasing| && j < |decreasing| && Gain(increasing[i].0, decreasing[j].0) < percent
    ensures forall i', j' :: i <= i' < |increasing| && j <= j' < |decreasing| ==>
              Gain(increasing[i'].0, decreasing[j'].0) < percent
  {
    hide Gain;
    forall i', j' | i <= i' < |increasing| && j <= j' < |decreasing|
      ensures Gain(increasing[i'].0, decreasing[j'].0) < percent
    {
      WorseFallsShort(increasing[i].0, decreasing[j].0, increasing[i'].0, decreasing[j'].0, percent);
    }
  }

  /** Selling at a gain of at least the percentage brings at least that much more than buying costs. */
  lemma GainPays(low: real, high: real, percent: real, q: real)
    requires low > 0.0 && q >= 0.0 && Gain(low, high) >= percent
    ensures high * q >= low * q * (1.0 + percent / 100.0)
  {
  }

  lemma Totals(spot: real, future: real, low: real, high: real, q: real, percent: real)
    requires future >= spot * (1.0 + percent / 100.0)
    requires high * q >= low * q * (1.0 + percent / 100.0)
    ensures future + high * q >= (spot + low * q) * (1.0 + percent / 100.0)
  {
  }

  ghost predicate Qualifies(increasing: seq<(real, real)>, decreasing: seq<(real, real)>, percentage: real, i: int, j: int)
    requires PositivePrices(increasing)
  {
    0 <= i < |increasing| && 0 <= j < |decreasing|
    && Excess(increasing[i].0, decreasing[j].0, percentage) >= 0.0
  }

  /** `best` is what a comparison of all pairs of the first `rows` buying prices finds: nothing if
      no pair qualifies; otherwise a qualifying pair of least excess, of the lowest buying price at that. */
  ghost predicate IsBest(increasing: seq<(real, real)>, decreasing: seq<(real, real)>, percentage: real,
                         rows: int, best: Option<PricePair>)
    requires PositivePrices(increasing)
  {
    && (best.None? ==> forall i, j :: i < rows ==> !Qualifies(increasing, decreasing, percentage, i, j))
    && (best.Some? ==>
          && best.value.spot > 0.0
          && (exists i, j :: i < rows && Qualifies(increasing, decreasing, percentage, i, j)
                             && best.value == PricePair(increasing[i].0, decreasing[j].0))
          && forall i, j :: i < rows && Qualifies(increasing, decreasing, percentage, i, j) ==>
               var e := Excess(best.value.spot, best.value.future, percentage);
               var e' := Excess(increasing[i].0, decreasing[j].0, percentage);
               e < e' || (e == e' && best.value.spot <= increasing[i].0))
  }

  /** The selling prices behind position `j` are too low for the buying price at `i` and all later ones. */
  ghost predicate Passed(increasing: seq<(real, real)>, decreasing: seq<(real, real)>, percentage: real, i: nat, j: int) {
    forall j' :: 0 <= j' < |decreasing| && j < j' ==>
      forall i' :: i <= i' < |increasing| ==> decreasing[j'].0 < Required(increasing[i'].0, percentage)
  }

  /** Extending the rows by one, given the row's own least excess. */
  lemma NextRow(increasing: seq<(real, real)>, decreasing: seq<(real, real)>, percentage: real,
                i: nat, j: nat, best: Option<PricePair>)
    requires PositivePrices(increasing) && PositivePrices(decreasing)
    requires Ascending(increasing) && Descending(decreasing) && i < |increasing| && j < |decreasing|
    requires IsBest(increasing, decreasing, percentage, i, best)
    requires decreasing[j].0 >= Required(increasing[i].0, percentage) && Passed(increasing, decreasing, percentage, i, j)
    ensures var e := Excess(increasing[i].0, decreasing[j].0, percentage);
            IsBest(increasing, decreasing, percentage, i + 1,
                   if best.None? || e < Excess(best.value.spot, best.value.future, percentage)
                   then Some(PricePair(increasing[i].0, decreasing[j].0)) else best)
  {
    RequiredIff(increasing[i].0, decreasing[j].0, percentage);
    assert Qualifies(increasing, decreasing, percentage, i, j);
    forall j' | Qualifies(increasing, decreasing, percentage, i, j')
      ensures Excess(increasing[i].0, decreasing[j].0, percentage)
              <= Excess(increasing[i].0, decreasing[j'].0, percentage)
    {
      RequiredIff(increasing[i].0, decreasing[j'].0, percentage);
      ExcessGrows(increasing[i].0, decreasing[j].0, decreasing[j'].0, percentage);
    }
    if best.Some? {
      var i0, j0 :| i0 < i && Qualifies(increasing, decreasing, percentage, i0, j0)
                    && best.value == PricePair(increasing[i0].0, decreasing[j0].0);
      assert best.value.spot <= increasing[i].0;
    }
  }

  /** What the search promises: a pair that it returns reaches the percentage; and on sorted sides it is the best. */
  ghost predicate Found(increasing: seq<(real, real)>, decreasing: seq<(real, real)>, percentage: real,
                        best: Option<PricePair>)
    requires PositivePrices(increasing)
  {
    && (best.Some? ==> exists i, j :: Qualifies(increasing, decreasing, percentage, i, j)
                                      && best.value == PricePair(increasing[i].0, decreasing[j].0))
    && (Ascending(increasing) && Descending(decreasing) ==>
          IsBest(increasing, decreasing, percentage, |increasing|, best))
  }

  /** On sorted sides the two-pointer search finds exactly what comparing all pairs would, for every percentage. */
  method FindMaxPrice(increasing: seq<(real, real)>, decreasing: seq<(real, real)>, percentage: real)
    returns (best: Option<PricePair>)
    requires PositivePrices(increasing) && PositivePrices(decreasing)
    ensures Found(increasing, decreasing, percentage, best)
  {
    hide Required, Excess, Gain, Ascending, Descending, IsBest;
    best := None;
    var minExcess := 0.0;
    var j: int := |decreasing| - 1;
    var i := 0;
    ghost var sorted := Ascending(increasing) && Descending(decreasing);
    NoRows(increasing, decreasing, percentage);
    while i < |increasing|
      invariant 0 <= i <= |increasing| && -1 <= j < |decreasing|
      invariant best.Some? ==> best.value.spot > 0.0 && exists i', j' ::
                  Qualifies(increasing, decreasing, percentage, i', j')
                  && best.value == PricePair(increasing[i'].0, decreasing[j'].0)
      invariant best.Some? ==> minExcess == Excess(best.value.spot, best.value.future, percentage)
      invariant sorted ==> IsBest(increasing, decreasing, percentage, i, best)
      invariant sorted ==> Passed(increasing, decreasing, percentage, i, j)
    {
      if j < 0 { break; }
      var price := increasing[i].0;
      var required := Required(price, percentage);
      while j >= 0 && decreasing[j].0 < required
        invariant -1 <= j < |decreasing|
        invariant sorted ==> Passed(increasing, decreasing, percentage, i, j)
      {
        if sorted { PassesOne(increasing, decreasing, percentage, i, j); }
        j := j - 1;
      }
      if j < 0 { break; }
      var excess := Excess(price, decreasing[j].0, percentage);
      RequiredIff(price, decreasing[j].0, percentage);
      assert Qualifies(increasing, decreasing, percentage, i, j);
      if sorted { NextRow(increasing, decreasing, percentage, i, j, best); }
      if best.None? || excess < minExcess {
        minExcess := excess;
        best := Some(PricePair(price, decreasing[j].0));
      }
      i := i + 1;
    }
    if sorted && i < |increasing| {
      NoMoreRows(increasing, decreasing, percentage, i, best);
    }
  }

  lemma PassesOne(increasing: seq<(real, real)>, decreasing: seq<(real, real)>, percentage: real, i: nat, j: nat)
    requires PositivePrices(increasing) && PositivePrices(decreasing) && Ascending(increasing)
    requires i < |increasing| && j < |decreasing| && Passed(increasing, decreasing, percentage, i, j)
    requires decreasing[j].0 < Required(increasing[i].0, percentage)
    ensures Passed(increasing, decreasing, percentage, i, j - 1)
  {
    hide Required;
    forall i' | i <= i' < |increasing| ensures decreasing[j].0 < Required(increasing[i'].0, percentage) {
      RequiredGrows(increasing[i].0, increasing[i'].0, percentage, decreasing[j].0);
    }
  }

  lemma NoRows(increasing: seq<(real, real)>, decreasing: seq<(real, real)>, percentage: real)
    requires PositivePrices(increasing)
    ensures IsBest(increasing, decreasing, percentage, 0, None)
  {
  }

  lemma NoMoreRows(increasing: seq<(real, real)>, decreasing: seq<(real, real)>, percentage: real,
                   i: nat, best: Option<PricePair>)
    requires PositivePrices(increasing) && IsBest(increasing, decreasing, percentage, i, best)
    requires Passed(increasing, decreasing, percentage, i, -1)
    ensures IsBest(increasing, decreasing, percentage, |increasing|, best)
  {
    forall i', j' | i <= i' && Qualifies(increasing, decreasing, percentage, i', j') ensures false {
      RequiredIff(increasing[i'].0, decreasing[j'].0, percentage);
    }
  }
}

/**
 * The weekly aggregator and cost forecaster of `calculatePrediction` (app.js):
 * the gated trapezoid of the integrator, with each interval's cost put in the
 * bucket of the ISO week of its later reading; then an ordinary least-squares
 * line through (1, cost of week 1) .. (n, cost of week n), read at n + 1 and
 * floored at 0.
 *
 * `weekOf` is `getWeekKey` of an instant: the ISO week (`IsoWeek.KeyOf`) of
 * its local calendar date; the dashboard passes `t => KeyOf(localDay(t))`.
 */
module Forecast {
  import opened Common
  import opened Sorting
  import opened Readings
  import opened Energy
  import opened IsoWeek
  import opened Regression

  /** Fewer readings than this and there is no forecast. */
  const MinReadings: nat := 10

  /** The three outcomes shown as text: collecting data, a provisional sum, or a forecast. */
  datatype Outcome = Collecting | Provisional(total: real) | Predicted(value: real)

  /** `weeklyCosts`: the week keys in first-seen (insertion) order and the cost of each. */
  datatype Buckets = Buckets(keys: seq<WeekKey>, costs: map<WeekKey, real>)

  /** Each key once, and exactly the keys that have a cost. */
  ghost predicate WellFormed(b: Buckets)
  {
    && (forall i, j :: 0 <= i < j < |b.keys| ==> b.keys[i] != b.keys[j])
    && (forall k :: k in b.costs <==> k in b.keys)
  }

  /** `if (!weeklyCosts[weekKey]) weeklyCosts[weekKey] = 0; weeklyCosts[weekKey] += cost;` */
  function AddCost(b: Buckets, k: WeekKey, cost: real): Buckets
  {
    var started := if k in b.costs then b else Buckets(b.keys + [k], b.costs[k := 0.0]);
    Buckets(started.keys, started.costs[k := started.costs[k] + cost])
  }

  /** `cost = kwh * rate` for the interval from `prev` to `curr`. */
  function IntervalCost(prev: Reading, curr: Reading, rate: real): real
  {
    IntervalKWh(prev, curr) * rate
  }

  /** One pass of the loop body over the neighbouring readings `prev`, `curr`, with `k` the week of `curr`. */
  function AddPair(b: Buckets, prev: Reading, curr: Reading, k: WeekKey, rate: real): Buckets
  {
    if Counted(prev, curr) then AddCost(b, k, IntervalCost(prev, curr, rate)) else b
  }

  /** The buckets once the loop has run for `i = 1 .. n - 1`. */
  function BucketsUpTo(h: seq<Reading>, n: nat, rate: real, weekOf: int -> WeekKey): Buckets
    requires n <= |h|
  {
    if n < 2 then Buckets([], map[])
    else AddPair(BucketsUpTo(h, n - 1, rate, weekOf), h[n - 2], h[n - 1], weekOf(h[n - 1].time), rate)
  }

  /** The buckets after the loop has seen every neighbouring pair of `h`. */
  function WeeklyCosts(h: seq<Reading>, rate: real, weekOf: int -> WeekKey): Buckets
  {
    BucketsUpTo(h, |h|, rate, weekOf)
  }

  lemma SumOverUpdateAbsent(keys: seq<WeekKey>, m: map<WeekKey, real>, k: WeekKey, v: real)
    requires k !in keys
    ensures SumOver(keys, m[k := v]) == SumOver(keys, m)
  {
    if keys != [] {
      SumOverUpdateAbsent(keys[..|keys| - 1], m, k, v);
    }
  }

  lemma {:induction false} SumOverUpdatePresent(keys: seq<WeekKey>, m: map<WeekKey, real>, k: WeekKey, v: real)
    requires forall i, j :: 0 <= i < j < |keys| ==> keys[i] != keys[j]
    requires k in keys
    ensures SumOver(keys, m[k := v]) == SumOver(keys, m) - Lookup(m, k) + v
  {
    var init, last := keys[..|keys| - 1], keys[|keys| - 1];
    if last == k {
      assert k !in init;
      SumOverUpdateAbsent(init, m, k, v);
    } else {
      assert k in init;
      SumOverUpdatePresent(init, m, k, v);
    }
  }

  /** Adding a cost keeps the buckets well formed and adds the cost to their sum. */
  lemma AddCostSum(b: Buckets, k: WeekKey, c: real)
    requires WellFormed(b)
    ensures WellFormed(AddCost(b, k, c))
    ensures SumOver(AddCost(b, k, c).keys, AddCost(b, k, c).costs) == SumOver(b.keys, b.costs) + c
  {
    if k in b.costs {
      SumOverUpdatePresent(b.keys, b.costs, k, b.costs[k] + c);
    } else {
      var keys := b.keys + [k];
      var m := b.costs[k := 0.0];
      SumOverUpdatePresent(keys, m, k, c);
      SumOverAppend(b.keys, [k], m);
      SumOverSingle(k, m);
      SumOverUpdateAbsent(b.keys, b.costs, k, 0.0);
    }
  }

  /** The cost of every counted interval among the first `n` readings, interval by interval. */
  function IntervalCosts(h: seq<Reading>, n: nat, rate: real): real
    requires n <= |h|
  {
    if n < 2 then 0.0 else IntervalCosts(h, n - 1, rate) + IntervalCost(h[n - 2], h[n - 1], rate)
  }

  lemma Distribute(x: real, y: real, r: real)
    ensures (x + y) * r == x * r + y * r
  {
  }

  /** Pricing each interval and adding up is pricing the total energy. */
  lemma {:induction false} IntervalCostsTotal(h: seq<Reading>, n: nat, rate: real)
    requires n <= |h|
    ensures IntervalCosts(h, n, rate) == EnergyKWh(h[..n]) * rate
  {
    if n >= 2 {
      IntervalCostsTotal(h, n - 1, rate);
      EnergyPrefixStep(h, n - 1);
      Distribute(EnergyKWh(h[..n - 1]), IntervalKWh(h[n - 2], h[n - 1]), rate);
    }
  }

  /** One pass of the loop body keeps the buckets well formed and adds the interval's cost to their sum. */
  lemma AddPairSum(b: Buckets, prev: Reading, curr: Reading, k: WeekKey, rate: real)
    requires WellFormed(b)
    ensures WellFormed(AddPair(b, prev, curr, k, rate))
    ensures var b' := AddPair(b, prev, curr, k, rate);
            SumOver(b'.keys, b'.costs) == SumOver(b.keys, b.costs) + IntervalCost(prev, curr, rate)
  {
    if Counted(prev, curr) {
      AddCostSum(b, k, IntervalCost(prev, curr, rate));
    }
  }

  /** Every bucket is a distinct week, and all the buckets together hold the cost of every counted interval. */
  lemma {:induction false} BucketsSum(h: seq<Reading>, n: nat, rate: real, weekOf: int -> WeekKey)
    requires n <= |h|
    ensures WellFormed(BucketsUpTo(h, n, rate, weekOf))
    ensures var b := BucketsUpTo(h, n, rate, weekOf); SumOver(b.keys, b.costs) == IntervalCosts(h, n, rate)
  {
    if n >= 2 {
      BucketsSum(h, n - 1, rate, weekOf);
      AddPairSum(BucketsUpTo(h, n - 1, rate, weekOf), h[n - 2], h[n - 1], weekOf(h[n - 1].time), rate);
    }
  }

  /** Over the whole history, the interval costs add up to the integrator's total, priced. */
  lemma IntervalCostsWhole(h: seq<Reading>, rate: real)
    ensures IntervalCosts(h, |h|, rate) == EnergyKWh(h) * rate
  {
    IntervalCostsTotal(h, |h|, rate);
    assert h[..|h|] == h;
  }

  /** The buckets together hold the integrator's total cost over the same history. */
  lemma WeeklyCostsTotal(h: seq<Reading>, rate: real, weekOf: int -> WeekKey)
    ensures WellFormed(WeeklyCosts(h, rate, weekOf))
    ensures var b := WeeklyCosts(h, rate, weekOf); SumOver(b.keys, b.costs) == EnergyKWh(h) * rate
  {
    BucketsSum(h, |h|, rate, weekOf);
    IntervalCostsWhole(h, rate);
  }

  /** `weeks.map(w => weeklyCosts[w])`. */
  function Values(keys: seq<WeekKey>, m: map<WeekKey, real>): (ys: seq<real>)
    ensures |ys| == |keys|
    ensures forall i :: 0 <= i < |keys| ==> ys[i] == Lookup(m, keys[i])
  {
    if keys == [] then [] else Values(keys[..|keys| - 1], m) + [Lookup(m, keys[|keys| - 1])]
  }

  /** `yValues.reduce((a, b) => a + b, 0)`. */
  lemma {:induction false} SumYValues(keys: seq<WeekKey>, m: map<WeekKey, real>)
    ensures SumY(Values(keys, m)) == SumOver(keys, m)
  {
    if keys != [] {
      SumYValues(keys[..|keys| - 1], m);
      assert Values(keys, m)[..|keys| - 1] == Values(keys[..|keys| - 1], m);
    }
  }

  /** `if (predictedCost < 0) predictedCost = 0`. */
  function Floor0(v: real): (r: real)
    ensures r >= 0.0
    ensures v >= 0.0 ==> r == v
    ensures v < 0.0 ==> r == 0.0
  {
    if v < 0.0 then 0.0 else v
  }

  /** The outcome for the week costs `ys`, already in the order given to x = 1 .. n. */
  function PredictFrom(ys: seq<real>): (p: Outcome)
    ensures p != Collecting
    ensures |ys| < 2 <==> p.Provisional?
    ensures p.Provisional? ==> p.total == SumY(ys)
    ensures p.Predicted? ==>
      Fits(SumsOf(ys)) && p.value >= 0.0 &&
      (NextWeekCost(SumsOf(ys)) >= 0.0 ==> p.value == NextWeekCost(SumsOf(ys)))
  {
    if |ys| < 2 then Provisional(SumY(ys))
    else
      FitsFromTwoWeeks(ys);
      Predicted(Floor0(NextWeekCost(SumsOf(ys))))
  }

  /** Week costs on a line y = a·x + b forecast that line's next point, x = n + 1, floored at 0. */
  lemma PredictOnLine(ys: seq<real>, a: real, b: real)
    requires |ys| >= 2 && Linear(ys, a, b)
    ensures PredictFrom(ys) == Predicted(Floor0(LinePoint(a, b, |ys| as real + 1.0)))
  {
    OlsRecoversLine(ys, a, b);
    PredictFromFit(ys);
  }

  /** With two weeks or more, the outcome is the fitted line's next point, floored at 0. */
  lemma PredictFromFit(ys: seq<real>)
    requires |ys| >= 2
    ensures Fits(SumsOf(ys)) && PredictFrom(ys) == Predicted(Floor0(NextWeekCost(SumsOf(ys))))
  {
    FitsFromTwoWeeks(ys);
  }

  /** A falling trend whose line would go below zero forecasts exactly 0. */
  lemma FallingTrendFloored()
    ensures PredictFrom([5.0, 3.0, 1.0]) == Predicted(0.0)
  {
    var ys := [5.0, 3.0, 1.0];
    assert Linear(ys, -2.0, 7.0) by {
      forall i | 0 <= i < |ys| ensures ys[i] == -2.0 * ((i + 1) as real) + 7.0 {
        if i == 0 {} else if i == 1 {} else {}
      }
    }
    PredictOnLine(ys, -2.0, 7.0);
  }

  /** The forecast with the week keys put in order `le` before they are numbered. */
  function PredictionOrdered(h: seq<Reading>, rate: real, weekOf: int -> WeekKey,
                             le: (WeekKey, WeekKey) -> bool): Outcome
  {
    if |h| < MinReadings then Collecting
    else
      var b := WeeklyCosts(h, rate, weekOf);
      PredictFrom(Values(SortBy(b.keys, le), b.costs))
  }

  /** The source as written: the keys in string order (`Object.keys(weeklyCosts).sort()`). */
  function PredictionAsWritten(h: seq<Reading>, rate: real, weekOf: int -> WeekKey): (p: Outcome)
    ensures |h| < MinReadings <==> p == Collecting
  {
    PredictionOrdered(h, rate, weekOf, TextLe)
  }

  /** The intended forecast: the keys in calendar order, by year and then week number. */
  function IntendedPrediction(h: seq<Reading>, rate: real, weekOf: int -> WeekKey): Outcome
  {
    PredictionOrdered(h, rate, weekOf, ChronoLe)
  }

  /** The sorted week costs sum to the integrator's cost over the same history. */
  lemma SortedValuesSum(h: seq<Reading>, rate: real, weekOf: int -> WeekKey, le: (WeekKey, WeekKey) -> bool)
    ensures var b := WeeklyCosts(h, rate, weekOf);
      && |Values(SortBy(b.keys, le), b.costs)| == |b.keys|
      && SumY(Values(SortBy(b.keys, le), b.costs)) == EnergyKWh(h) * rate
  {
    var b := WeeklyCosts(h, rate, weekOf);
    var sorted := SortBy(b.keys, le);
    SortByPermutes(b.keys, le);
    SumYValues(sorted, b.costs);
    SumOverSortBy(b.keys, le, b.costs);
    WeeklyCostsTotal(h, rate, weekOf);
  }

  /** The outcome states of the forecast and what each one carries, whatever order numbers the weeks. */
  lemma OrderedPredictionStates(h: seq<Reading>, rate: real, weekOf: int -> WeekKey, le: (WeekKey, WeekKey) -> bool)
    ensures |h| < MinReadings <==> PredictionOrdered(h, rate, weekOf, le) == Collecting
    ensures PredictionOrdered(h, rate, weekOf, le).Provisional? <==>
      |h| >= MinReadings && |WeeklyCosts(h, rate, weekOf).keys| < 2
    ensures PredictionOrdered(h, rate, weekOf, le).Provisional? ==>
      PredictionOrdered(h, rate, weekOf, le).total == EnergyKWh(h) * rate
    ensures PredictionOrdered(h, rate, weekOf, le).Predicted? ==> PredictionOrdered(h, rate, weekOf, le).value >= 0.0
  {
    var p := PredictionOrdered(h, rate, weekOf, le);
    if |h| >= MinReadings {
      var b := WeeklyCosts(h, rate, weekOf);
      var ys := Values(SortBy(b.keys, le), b.costs);
      assert p == PredictFrom(ys);
      SortedValuesSum(h, rate, weekOf, le);
      assert |ys| == |b.keys| && SumY(ys) == EnergyKWh(h) * rate;
    }
  }

  /** The outcome states of the intended forecast. */
  lemma PredictionStates(h: seq<Reading>, rate: real, weekOf: int -> WeekKey)
    ensures |h| < MinReadings <==> IntendedPrediction(h, rate, weekOf) == Collecting
    ensures IntendedPrediction(h, rate, weekOf).Provisional? <==>
      |h| >= MinReadings && |WeeklyCosts(h, rate, weekOf).keys| < 2
    ensures IntendedPrediction(h, rate, weekOf).Provisional? ==>
      IntendedPrediction(h, rate, weekOf).total == EnergyKWh(h) * rate
    ensures IntendedPrediction(h, rate, weekOf).Predicted? ==> IntendedPrediction(h, rate, weekOf).value >= 0.0
  {
    OrderedPredictionStates(h, rate, weekOf, ChronoLe);
  }

  /** The same states hold for the forecast as written: the week order changes only the forecast value. */
  lemma PredictionStatesAsWritten(h: seq<Reading>, rate: real, weekOf: int -> WeekKey)
    ensures |h| < MinReadings <==> PredictionAsWritten(h, rate, weekOf) == Collecting
    ensures PredictionAsWritten(h, rate, weekOf).Provisional? <==>
      |h| >= MinReadings && |WeeklyCosts(h, rate, weekOf).keys| < 2
    ensures PredictionAsWritten(h, rate, weekOf).Provisional? ==>
      PredictionAsWritten(h, rate, weekOf).total == EnergyKWh(h) * rate
    ensures PredictionAsWritten(h, rate, weekOf).Predicted? ==> PredictionAsWritten(h, rate, weekOf).value >= 0.0
  {
    OrderedPredictionStates(h, rate, weekOf, TextLe);
  }

  /** The intended numbering: the weeks, sorted, run forward in time. */
  lemma ChronoOrderIsCalendarOrder(h: seq<Reading>, rate: real, weekOf: int -> WeekKey)
    ensures var w := SortBy(WeeklyCosts(h, rate, weekOf).keys, ChronoLe);
      forall i :: 0 <= i < |w| - 1 ==> ChronoLe(w[i], w[i + 1])
  {
    assert Total(ChronoLe);
    SortBySorted(WeeklyCosts(h, rate, weekOf).keys, ChronoLe);
  }

  /** 26 February 2024 is in week 9 of 2024 and 4 March 2024 in week 10. */
  lemma WeeksNineAndTen()
    ensures KeyOf(19779) == WeekKey(2024, 9) && KeyOf(19786) == WeekKey(2024, 10)
  {
    assert ThursdayOf(19779) == 19782;
    YearOfUnique(19782, 2024);
    assert ThursdayOf(19786) == 19789;
    YearOfUnique(19789, 2024);
  }

  /** The key texts of weeks 9 and 10 of 2024. */
  lemma WeekNineAndTenTexts()
    ensures KeyString(WeekKey(2024, 9)) == "2024-W9"
    ensures KeyString(WeekKey(2024, 10)) == "2024-W10"
  {
    assert NatToString(2024) == "2024";
    assert NatToString(10) == "10";
  }

  /** As text, "2024-W10" comes strictly before "2024-W9": '1' < '9' at the first difference. */
  lemma WeekTenBeforeNineAsText()
    ensures TextLe(WeekKey(2024, 10), WeekKey(2024, 9)) && !TextLe(WeekKey(2024, 9), WeekKey(2024, 10))
  {
    WeekNineAndTenTexts();
    var a, b := "2024-W10", "2024-W9";
    assert a[6..] == "10" && b[6..] == "9";
    assert StrLe(a, b) == StrLe(a[6..], b[6..]) by {
      assert a[1..][1..][1..][1..][1..][1..] == a[6..];
      assert b[1..][1..][1..][1..][1..][1..] == b[6..];
    }
    assert StrLe(b, a) == StrLe(b[6..], a[6..]) by {
      assert a[1..][1..][1..][1..][1..][1..] == a[6..];
      assert b[1..][1..][1..][1..][1..][1..] == b[6..];
    }
  }

  /** As text, "2024-W10" sorts before "2024-W9"; in calendar order week 9 comes first. */
  lemma WeekTenSortsFirstAsText()
    ensures SortBy([WeekKey(2024, 9), WeekKey(2024, 10)], TextLe) == [WeekKey(2024, 10), WeekKey(2024, 9)]
    ensures SortBy([WeekKey(2024, 9), WeekKey(2024, 10)], ChronoLe) == [WeekKey(2024, 9), WeekKey(2024, 10)]
  {
    WeekTenBeforeNineAsText();
    SortByPair(WeekKey(2024, 9), WeekKey(2024, 10), TextLe);
    SortByPair(WeekKey(2024, 9), WeekKey(2024, 10), ChronoLe);
  }

  /** Costs 2 then 1 (weeks 9 and 10 numbered in string order) fall along y = 3 − x, floored at 0. */
  lemma FallingPairFloored()
    ensures PredictFrom([2.0, 1.0]) == Predicted(0.0)
  {
    var down := [2.0, 1.0];
    assert Linear(down, -1.0, 3.0) by {
      forall i | 0 <= i < |down| ensures down[i] == -1.0 * ((i + 1) as real) + 3.0 {
        if i == 0 {} else {}
      }
    }
    PredictOnLine(down, -1.0, 3.0);
  }

  /** Costs 1 then 2 (weeks 9 and 10 in calendar order) rise along y = x and extrapolate to 3. */
  lemma RisingPairForecast()
    ensures PredictFrom([1.0, 2.0]) == Predicted(3.0)
  {
    var up := [1.0, 2.0];
    assert Linear(up, 1.0, 0.0) by {
      forall i | 0 <= i < |up| ensures up[i] == 1.0 * ((i + 1) as real) + 0.0 {
        if i == 0 {} else {}
      }
    }
    PredictOnLine(up, 1.0, 0.0);
  }

  /**
   * The week order decides the forecast: a history whose buckets are weeks 9
   * and 10 of 2024 costing 1 and 2 is forecast at 0 as written (the weeks
   * numbered in string order) and at 3 in calendar order.
   */
  lemma WeekOrderChangesForecast(h: seq<Reading>, rate: real, weekOf: int -> WeekKey)
    requires |h| >= MinReadings
    requires WeeklyCosts(h, rate, weekOf) == NineAndTen
    ensures PredictionAsWritten(h, rate, weekOf) == Predicted(0.0)
    ensures IntendedPrediction(h, rate, weekOf) == Predicted(3.0)
  {
    NineAndTenForecasts();
  }

  /** Weeks 9 and 10 of 2024, first seen in that order, costing 1 and 2. */
  const NineAndTen: Buckets :=
    Buckets([WeekKey(2024, 9), WeekKey(2024, 10)], map[WeekKey(2024, 9) := 1.0, WeekKey(2024, 10) := 2.0])

  lemma NineAndTenForecasts()
    ensures PredictFrom(Values(SortBy(NineAndTen.keys, TextLe), NineAndTen.costs)) == Predicted(0.0)
    ensures PredictFrom(Values(SortBy(NineAndTen.keys, ChronoLe), NineAndTen.costs)) == Predicted(3.0)
  {
    var w9, w10 := WeekKey(2024, 9), WeekKey(2024, 10);
    WeekTenSortsFirstAsText();
    ValuesPair(w10, w9, NineAndTen.costs);
    ValuesPair(w9, w10, NineAndTen.costs);
    FallingPairFloored();
    RisingPairForecast();
  }

  lemma ValuesPair(a: WeekKey, b: WeekKey, m: map<WeekKey, real>)
    ensures Values([a, b], m) == [Lookup(m, a), Lookup(m, b)]
  {
    assert [a, b][..1] == [a];
    assert [a][..0] == [];
  }

  /** `if (!weeklyCosts[weekKey]) weeklyCosts[weekKey] = 0; weeklyCosts[weekKey] += cost;` on the two fields. */
  method Accumulate(keys: seq<WeekKey>, costs: map<WeekKey, real>, weekKey: WeekKey, cost: real)
    returns (keys': seq<WeekKey>, costs': map<WeekKey, real>)
    ensures Buckets(keys', costs') == AddCost(Buckets(keys, costs), weekKey, cost)
  {
    keys', costs' := keys, costs;
    if weekKey !in costs' {
      keys' := keys' + [weekKey];
      costs' := costs'[weekKey := 0.0];
    }
    costs' := costs'[weekKey := costs'[weekKey] + cost];
  }

  /**
   * The body of the bucketing loop for the pair `prev`, `curr`: the integrator's
   * gap filter and trapezoid (`Energy.StatsStep` shows the inline arithmetic
   * is these two), priced, into the bucket of the later reading's week.
   */
  method AddInterval(keys: seq<WeekKey>, costs: map<WeekKey, real>, prev: Reading, curr: Reading,
                     weekKey: WeekKey, rate: real)
    returns (keys': seq<WeekKey>, costs': map<WeekKey, real>)
    ensures Buckets(keys', costs') == AddPair(Buckets(keys, costs), prev, curr, weekKey, rate)
  {
    if Counted(prev, curr) {
      var cost := IntervalCost(prev, curr, rate);
      keys', costs' := Accumulate(keys, costs, weekKey, cost);
      assert AddPair(Buckets(keys, costs), prev, curr, weekKey, rate) == AddCost(Buckets(keys, costs), weekKey, cost);
    } else {
      keys', costs' := keys, costs;
      assert AddPair(Buckets(keys, costs), prev, curr, weekKey, rate) == Buckets(keys, costs);
    }
  }

  /** `calculatePrediction` over the whole history, with the weeks in calendar order. */
  method CalculatePrediction(h: seq<Reading>, rate: real, weekOf: int -> WeekKey) returns (p: Outcome)
    ensures p == IntendedPrediction(h, rate, weekOf)
    ensures |h| < MinReadings ==> p == Collecting
    ensures p.Provisional? ==> p.total == EnergyKWh(h) * rate
    ensures p.Predicted? ==> p.value >= 0.0
  {
    PredictionStates(h, rate, weekOf);
    if |h| < MinReadings {
      return Collecting;
    }
    var keys: seq<WeekKey> := [];
    var costs: map<WeekKey, real> := map[];
    var i := 1;
    while i < |h|
      invariant 1 <= i <= |h|
      invariant Buckets(keys, costs) == BucketsUpTo(h, i, rate, weekOf)
    {
      var weekKey := weekOf(h[i].time);
      keys, costs := AddInterval(keys, costs, h[i - 1], h[i], weekKey, rate);
      i := i + 1;
    }
    var weeks := SortBy(keys, ChronoLe);
    var yValues := Values(weeks, costs);
    p := PredictFrom(yValues);
  }
}


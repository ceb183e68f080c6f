/**
 * The data preparation of `updateCharts` (app.js): the selected readings
 * grouped by sensor in first-seen order, a group of more than 500 points
 * thinned to every `step`-th point with `step = ceil(len / 300)`, and the
 * power total of each sensor for the doughnut chart.
 *
 * A JavaScript object keeps string keys in insertion order; a Dafny map has
 * no order, so the key order `Object.keys` reports is kept beside the map as
 * a sequence of names.
 */
module Charts {
  import opened Common
  import opened Sorting
  import opened Readings
  import opened TimeFilter

  /** Groups longer than this are sampled. */
  const SampleAbove: nat := 500

  /** The number of points a sampled group is thinned towards. */
  const TargetPoints: nat := 300

  /** No element twice. */
  predicate Distinct(s: seq<string>)
  {
    forall i, j :: 0 <= i < j < |s| ==> s[i] != s[j]
  }

  /** `Object.keys(sensorGroups)`: the sensor names of `s` in first-seen order. */
  function Sensors(s: seq<Reading>): seq<string>
  {
    if s == [] then []
    else
      var names := Sensors(s[..|s| - 1]);
      if s[|s| - 1].sensor in names then names else names + [s[|s| - 1].sensor]
  }

  /** `sensorGroups[name]`: the readings of sensor `name`, in order. */
  function OfSensor(s: seq<Reading>, name: string): seq<Reading>
  {
    if s == [] then []
    else (if s[0].sensor == name then [s[0]] else []) + OfSensor(s[1..], name)
  }

  lemma SensorsStep(s: seq<Reading>, i: nat)
    requires i < |s|
    ensures Sensors(s[..i + 1]) ==
      if s[i].sensor in Sensors(s[..i]) then Sensors(s[..i]) else Sensors(s[..i]) + [s[i].sensor]
  {
    var g := s[..i + 1];
    assert g[..|g| - 1] == s[..i];
  }

  /** A reading put at the end joins its own sensor's group, at the end. */
  lemma {:induction false} OfSensorSnoc(s: seq<Reading>, x: Reading, name: string)
    ensures OfSensor(s + [x], name) == OfSensor(s, name) + (if x.sensor == name then [x] else [])
  {
    if s == [] {
      assert [x][1..] == [];
      assert s + [x] == [x];
    } else {
      var head := if s[0].sensor == name then [s[0]] else [];
      var tail := if x.sensor == name then [x] else [];
      assert (s + [x])[0] == s[0];
      assert (s + [x])[1..] == s[1..] + [x];
      OfSensorSnoc(s[1..], x, name);
      assert OfSensor(s + [x], name) == head + (OfSensor(s[1..], name) + tail);
      assert head + (OfSensor(s[1..], name) + tail) == (head + OfSensor(s[1..], name)) + tail;
    }
  }

  /** Each name once. */
  lemma {:induction false} SensorsDistinct(s: seq<Reading>)
    ensures Distinct(Sensors(s))
  {
    if s != [] {
      SensorsDistinct(s[..|s| - 1]);
    }
  }

  /** Exactly the names some reading carries. */
  lemma {:induction false} SensorsExactly(s: seq<Reading>)
    ensures forall name :: name in Sensors(s) <==> exists i :: 0 <= i < |s| && s[i].sensor == name
  {
    if s != [] {
      var init, last := s[..|s| - 1], s[|s| - 1];
      SensorsExactly(init);
      forall name | name in Sensors(s) ensures exists i :: 0 <= i < |s| && s[i].sensor == name {
        if name in Sensors(init) {
          var i :| 0 <= i < |init| && init[i].sensor == name;
          assert s[i] == init[i];
        } else {
          assert s[|s| - 1].sensor == name;
        }
      }
      forall name | exists i :: 0 <= i < |s| && s[i].sensor == name ensures name in Sensors(s) {
        var i :| 0 <= i < |s| && s[i].sensor == name;
        if i < |s| - 1 {
          assert init[i].sensor == name;
        }
      }
    }
  }

  lemma {:induction false} OfSensorNone(s: seq<Reading>, name: string)
    requires forall i :: 0 <= i < |s| ==> s[i].sensor != name
    ensures OfSensor(s, name) == []
  {
    if s != [] {
      assert s[0].sensor != name;
      OfSensorNone(s[1..], name);
    }
  }

  /** A sensor that never occurs has an empty group. */
  lemma OfSensorAbsent(s: seq<Reading>, name: string)
    requires name !in Sensors(s)
    ensures OfSensor(s, name) == []
  {
    SensorsExactly(s);
    OfSensorNone(s, name);
  }

  /**
   * The group of a sensor is what the filter shows with that sensor selected
   * and no time range: an order-preserving subsequence of the readings holding
   * every reading of the sensor and nothing else.
   */
  lemma {:induction false} GroupIsSensorSelection(s: seq<Reading>, name: string, cal: Calendar)
    requires name != "all"
    ensures OfSensor(s, name) == ApplyFilter(s, Window("all", name, "", ""), cal)
  {
    if s != [] {
      GroupIsSensorSelection(s[1..], name, cal);
    }
  }

  /** `sensorGroups` after the readings `s`: each reading pushed onto its sensor's list. */
  function GroupsOf(s: seq<Reading>): map<string, seq<Reading>>
  {
    if s == [] then map[]
    else
      var m := GroupsOf(s[..|s| - 1]);
      var x := s[|s| - 1];
      m[x.sensor := (if x.sensor in m then m[x.sensor] else []) + [x]]
  }

  lemma GroupsStep(s: seq<Reading>, i: nat)
    requires i < |s|
    ensures GroupsOf(s[..i + 1]) ==
      var m := GroupsOf(s[..i]);
      m[s[i].sensor := (if s[i].sensor in m then m[s[i].sensor] else []) + [s[i]]]
  {
    var g := s[..i + 1];
    assert g[..|g| - 1] == s[..i];
  }

  /** There is a group for exactly the sensors that occur. */
  lemma {:induction false} GroupsKeys(s: seq<Reading>)
    ensures forall name :: name in GroupsOf(s) <==> name in Sensors(s)
  {
    if s != [] {
      GroupsKeys(s[..|s| - 1]);
    }
  }

  /** Each group is its sensor's readings in order. */
  lemma {:induction false} GroupsValues(s: seq<Reading>)
    ensures forall name :: name in GroupsOf(s) ==> GroupsOf(s)[name] == OfSensor(s, name)
  {
    if s != [] {
      var init, last := s[..|s| - 1], s[|s| - 1];
      assert init + [last] == s;
      GroupsValues(init);
      GroupsKeys(init);
      forall name | name in GroupsOf(s) ensures GroupsOf(s)[name] == OfSensor(s, name) {
        OfSensorSnoc(init, last, name);
        if name == last.sensor {
          if name !in GroupsOf(init) {
            OfSensorAbsent(init, name);
          }
        } else {
          assert OfSensor(init, name) + [] == OfSensor(init, name);
        }
      }
    }
  }

  /** One reading of the `forEach` in `updateCharts`: open its sensor's group if new, then append it. */
  method Gather(names: seq<string>, groups: map<string, seq<Reading>>, d: Reading)
    returns (names': seq<string>, groups': map<string, seq<Reading>>)
    ensures groups' == groups[d.sensor := (if d.sensor in groups then groups[d.sensor] else []) + [d]]
    ensures names' == if d.sensor in groups then names else names + [d.sensor]
  {
    names', groups' := names, groups;
    if d.sensor !in groups' {
      groups' := groups'[d.sensor := []];
      names' := names' + [d.sensor];
    }
    groups' := groups'[d.sensor := groups'[d.sensor] + [d]];
  }

  /** The `forEach` that builds `sensorGroups` with `push`. */
  method GroupBySensor(s: seq<Reading>) returns (names: seq<string>, groups: map<string, seq<Reading>>)
    ensures names == Sensors(s)
    ensures forall name :: name in groups <==> name in names
    ensures forall name :: name in groups ==> groups[name] == OfSensor(s, name)
  {
    names, groups := [], map[];
    var i := 0;
    while i < |s|
      invariant 0 <= i <= |s|
      invariant names == Sensors(s[..i])
      invariant groups == GroupsOf(s[..i])
    {
      SensorsStep(s, i);
      GroupsStep(s, i);
      GroupsKeys(s[..i]);
      names, groups := Gather(names, groups, s[i]);
      i := i + 1;
    }
    assert s[..|s|] == s;
    GroupsKeys(s);
    GroupsValues(s);
  }

  /** `data.filter((_, i) => i % step === 0)`. */
  function Decimate<T>(g: seq<T>, step: nat): seq<T>
    requires step > 0
  {
    if g == [] then []
    else Decimate(g[..|g| - 1], step) + (if (|g| - 1) % step == 0 then [g[|g| - 1]] else [])
  }

  lemma MulMono(x: int, y: int, c: nat)
    requires x <= y
    ensures x * c <= y * c
  {
  }

  /** Integer division is determined by the bracket `q * b <= a < (q + 1) * b`. */
  lemma DivUnique(a: int, b: nat, q: int)
    requires b > 0 && q * b <= a < q * b + b
    ensures a / b == q
  {
    var d := a / b;
    assert d * b <= a < d * b + b;
    if d < q {
      MulMono(d + 1, q, b);
    } else if d > q {
      MulMono(q + 1, d, b);
    }
  }

  lemma CeilOfMultiple(q: nat, step: nat)
    requires step > 0
    ensures CeilDiv(q * step, step) == q && CeilDiv(q * step + 1, step) == q + 1
  {
    DivUnique(q * step + step - 1, step, q);
    assert (q + 1) * step == q * step + step;
    DivUnique(q * step + step, step, q + 1);
  }

  lemma CeilOfNonMultiple(q: nat, r: nat, step: nat)
    requires 0 < r < step
    ensures CeilDiv(q * step + r, step) == q + 1 && CeilDiv(q * step + r + 1, step) == q + 1
  {
    assert (q + 1) * step == q * step + step;
    DivUnique(q * step + r + step - 1, step, q + 1);
    DivUnique(q * step + r + step, step, q + 1);
  }

  lemma CeilDivStepMultiple(n: nat, step: nat)
    requires step > 0 && n % step == 0
    ensures CeilDiv(n + 1, step) == CeilDiv(n, step) + 1 && CeilDiv(n, step) * step == n
  {
    var q := n / step;
    assert n == q * step;
    CeilOfMultiple(q, step);
  }

  lemma CeilDivStepOther(n: nat, step: nat)
    requires step > 0 && n % step != 0
    ensures CeilDiv(n + 1, step) == CeilDiv(n, step)
  {
    var q, r := n / step, n % step;
    assert n == q * step + r;
    CeilOfNonMultiple(q, r, step);
  }

  /** `ceil((n + 1) / step)` grows by one exactly when `n` is a multiple of `step`. */
  lemma CeilDivStep(n: nat, step: nat)
    requires step > 0
    ensures CeilDiv(n + 1, step) == CeilDiv(n, step) + (if n % step == 0 then 1 else 0)
    ensures n % step == 0 ==> CeilDiv(n, step) * step == n
  {
    if n % step == 0 {
      CeilDivStepMultiple(n, step);
    } else {
      CeilDivStepOther(n, step);
    }
  }

  /** `CeilDiv(a, b)` is at most any `m` with `m * b >= a`. */
  lemma CeilDivAtMost(a: nat, b: nat, m: nat)
    requires b > 0 && m * b >= a
    ensures CeilDiv(a, b) <= m
  {
    var c := CeilDiv(a, b);
    if c > m {
      MulMono(m, c - 1, b);
    }
  }

  /**
   * The sample keeps the points at indices `0, step, 2 * step, ...` below the
   * group's length, in order, and there are `ceil(len / step)` of them.
   */
  lemma {:induction false} DecimateIndices<T>(g: seq<T>, step: nat)
    requires step > 0
    ensures |Decimate(g, step)| == CeilDiv(|g|, step)
    ensures forall k :: 0 <= k < |Decimate(g, step)| ==> k * step < |g| && Decimate(g, step)[k] == g[k * step]
  {
    if g != [] {
      var n := |g| - 1;
      var init := g[..n];
      DecimateIndices(init, step);
      CeilDivStep(n, step);
      var r, r' := Decimate(g, step), Decimate(init, step);
      forall k | 0 <= k < |r| ensures k * step < |g| && r[k] == g[k * step] {
        if k < |r'| {
          assert r[k] == r'[k];
        } else {
          assert k == CeilDiv(n, step);
        }
      }
    }
  }

  /** A multiple of `step` below `n` is `step` times an index below `ceil(n / step)`. */
  lemma MultipleBelowCeil(i: nat, step: nat, n: nat)
    requires step > 0 && i < n && i % step == 0
    ensures (i / step) * step == i && i / step < CeilDiv(n, step)
  {
    var k := i / step;
    assert i == step * k + i % step;
    var c := CeilDiv(n, step);
    if k >= c {
      MulMono(c, k, step);
    }
  }

  /** Every index that is a multiple of `step` is among the kept ones. */
  lemma DecimateKeepsMultiples<T>(g: seq<T>, step: nat, i: nat)
    requires step > 0 && i < |g| && i % step == 0
    ensures i / step < |Decimate(g, step)| && Decimate(g, step)[i / step] == g[i]
  {
    DecimateIndices(g, step);
    MultipleBelowCeil(i, step, |g|);
  }

  /** The points of one dataset: a long group sampled, any other group whole. */
  function Downsample(g: seq<Reading>): seq<Reading>
  {
    if |g| > SampleAbove then Decimate(g, CeilDiv(|g|, TargetPoints)) else g
  }

  /**
   * A group of at most 500 points is drawn whole; a longer one keeps its first
   * point and the points every `ceil(len / 300)` indices after it, at most 300.
   */
  lemma DownsampleShape(g: seq<Reading>)
    ensures |g| <= SampleAbove ==> Downsample(g) == g
    ensures |g| > SampleAbove ==>
      var step := CeilDiv(|g|, TargetPoints);
      && |Downsample(g)| == CeilDiv(|g|, step)
      && 1 <= |Downsample(g)| <= TargetPoints
      && Downsample(g)[0] == g[0]
      && forall k :: 0 <= k < |Downsample(g)| ==> k * step < |g| && Downsample(g)[k] == g[k * step]
  {
    if |g| > SampleAbove {
      var step := CeilDiv(|g|, TargetPoints);
      DecimateIndices(g, step);
      CeilDivAtMost(|g|, step, TargetPoints);
    }
  }

  /** The sum of `valP` over `s`. */
  function SumP(s: seq<Reading>): real
  {
    if s == [] then 0.0 else SumP(s[..|s| - 1]) + s[|s| - 1].valP
  }

  lemma SumPSnoc(s: seq<Reading>, x: Reading)
    ensures SumP(s + [x]) == SumP(s) + x.valP
  {
    assert (s + [x])[..|s|] == s;
  }

  /** The power totals of the sensors `names`, added up. */
  function SensorSum(names: seq<string>, s: seq<Reading>): real
  {
    if names == [] then 0.0
    else SensorSum(names[..|names| - 1], s) + SumP(OfSensor(s, names[|names| - 1]))
  }

  lemma {:induction false} SensorSumSnoc(names: seq<string>, s: seq<Reading>, x: Reading)
    requires Distinct(names)
    ensures SensorSum(names, s + [x]) == SensorSum(names, s) + (if x.sensor in names then x.valP else 0.0)
  {
    if names != [] {
      var init, last := names[..|names| - 1], names[|names| - 1];
      assert Distinct(init);
      SensorSumSnoc(init, s, x);
      OfSensorSnoc(s, x, last);
      if x.sensor == last {
        SumPSnoc(OfSensor(s, last), x);
        assert x.sensor !in init;
      } else {
        assert OfSensor(s, last) + [] == OfSensor(s, last);
      }
    }
  }

  /** The groups partition the readings: the per-sensor totals add up to the total power. */
  lemma {:induction false} SensorSumPartition(s: seq<Reading>)
    ensures SensorSum(Sensors(s), s) == SumP(s)
  {
    if s != [] {
      var init, last := s[..|s| - 1], s[|s| - 1];
      assert init + [last] == s;
      var names := Sensors(init);
      SensorSumPartition(init);
      SensorsDistinct(init);
      SensorSumSnoc(names, init, last);
      if last.sensor !in names {
        NewSensorSum(init, last);
      }
    }
  }

  /** A reading of a sensor not seen before adds that sensor's one-reading total. */
  lemma NewSensorSum(s: seq<Reading>, x: Reading)
    requires x.sensor !in Sensors(s)
    ensures SensorSum(Sensors(s) + [x.sensor], s + [x]) == SensorSum(Sensors(s), s + [x]) + x.valP
  {
    var names := Sensors(s);
    OfSensorAbsent(s, x.sensor);
    OfSensorSnoc(s, x, x.sensor);
    assert OfSensor(s + [x], x.sensor) == [x];
    SumPSnoc([], x);
    assert (names + [x.sensor])[..|names|] == names;
  }

  lemma {:induction false} SumOverTotals(names: seq<string>, totals: map<string, real>, s: seq<Reading>)
    requires forall name :: name in names ==> name in totals && totals[name] == SumP(OfSensor(s, name))
    ensures SumOver(names, totals) == SensorSum(names, s)
  {
    if names != [] {
      SumOverTotals(names[..|names| - 1], totals, s);
    }
  }

  /** `sensorTotals` after the readings `s`: each sensor's running sum of `valP`. */
  function TotalsOf(s: seq<Reading>): map<string, real>
  {
    if s == [] then map[] else AddPower(TotalsOf(s[..|s| - 1]), s[|s| - 1])
  }

  /** `sensorTotals[d.sensor] += d.valP`, the total starting at 0. */
  function AddPower(m: map<string, real>, d: Reading): map<string, real>
  {
    m[d.sensor := Lookup(m, d.sensor) + d.valP]
  }

  lemma TotalsStep(s: seq<Reading>, i: nat)
    requires i < |s|
    ensures TotalsOf(s[..i + 1]) == AddPower(TotalsOf(s[..i]), s[i])
  {
    var g := s[..i + 1];
    assert g[..|g| - 1] == s[..i];
  }

  /** The totals have a slice for exactly the sensors that occur. */
  lemma {:induction false} TotalsKeys(s: seq<Reading>)
    ensures forall name :: name in TotalsOf(s) <==> name in Sensors(s)
  {
    if s != [] {
      TotalsKeys(s[..|s| - 1]);
    }
  }

  /** Each sensor's total is the sum of `valP` over its group. */
  lemma {:induction false} TotalsValues(s: seq<Reading>)
    ensures forall name :: name in TotalsOf(s) ==> TotalsOf(s)[name] == SumP(OfSensor(s, name))
  {
    if s != [] {
      var init, last := s[..|s| - 1], s[|s| - 1];
      assert init + [last] == s;
      TotalsValues(init);
      TotalsKeys(init);
      var m := TotalsOf(init);
      forall name | name in TotalsOf(s) ensures TotalsOf(s)[name] == SumP(OfSensor(s, name)) {
        OfSensorSnoc(init, last, name);
        if name == last.sensor {
          if name !in m {
            OfSensorAbsent(init, name);
          }
          SumPSnoc(OfSensor(init, name), last);
        } else {
          assert OfSensor(init, name) + [] == OfSensor(init, name);
        }
      }
    }
  }

  /**
   * The totals of a whole selection: a slice for exactly its sensors, each the
   * sum of that sensor's power readings, together the sum of all of them.
   */
  lemma TotalsSummary(s: seq<Reading>)
    ensures forall name :: name in TotalsOf(s) <==> name in Sensors(s)
    ensures forall name :: name in TotalsOf(s) ==> TotalsOf(s)[name] == SumP(OfSensor(s, name))
    ensures SumOver(Sensors(s), TotalsOf(s)) == SumP(s)
  {
    TotalsKeys(s);
    TotalsValues(s);
    SumOverTotals(Sensors(s), TotalsOf(s), s);
    SensorSumPartition(s);
  }

  /** One reading of the doughnut's `forEach`: start its sensor at 0 if new, then add its power. */
  method Tally(labels: seq<string>, totals: map<string, real>, d: Reading)
    returns (labels': seq<string>, totals': map<string, real>)
    ensures totals' == AddPower(totals, d)
    ensures labels' == if d.sensor in totals then labels else labels + [d.sensor]
  {
    labels', totals' := labels, totals;
    if d.sensor !in totals' {
      totals' := totals'[d.sensor := 0.0];
      labels' := labels' + [d.sensor];
    }
    totals' := totals'[d.sensor := totals'[d.sensor] + d.valP];
  }

  /** The `forEach` that builds `sensorTotals` with `+=`: the doughnut's labels and slices. */
  method SensorTotals(s: seq<Reading>) returns (labels: seq<string>, totals: map<string, real>)
    ensures labels == Sensors(s)
    ensures forall name :: name in totals <==> name in labels
    ensures forall name :: name in totals ==> totals[name] == SumP(OfSensor(s, name))
    ensures SumOver(labels, totals) == SumP(s)
  {
    labels, totals := [], map[];
    var i := 0;
    while i < |s|
      invariant 0 <= i <= |s|
      invariant labels == Sensors(s[..i])
      invariant totals == TotalsOf(s[..i])
    {
      SensorsStep(s, i);
      TotalsStep(s, i);
      TotalsKeys(s[..i]);
      labels, totals := Tally(labels, totals, s[i]);
      i := i + 1;
    }
    assert s[..|s|] == s;
    TotalsSummary(s);
  }
}

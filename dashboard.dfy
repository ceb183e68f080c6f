/**
 * The dashboard's state and its update cycle (app.js): the loaded history
 * `allDataGlobal`, the selection `filteredDataGlobal`, the colour memo
 * `sensorColorMap` / `colorIndex` over a 10-colour palette, and what the two
 * charts are given. `loadEnergyData` runs `applyFilters`, which runs the
 * statistics, the forecast and the charts.
 *
 * "Now" in local time enters as a `Calendar`, the date parser as `parse` and
 * the local calendar day of an instant as `localDay`.
 */
module App {
  import opened Common
  import opened Readings
  import opened TimeFilter
  import opened Energy
  import opened IsoWeek
  import opened Forecast
  import opened Charts

  /** `availableColors`. */
  const Palette: seq<string> :=
    ["#01c3a8", "#1890ff", "#ffb741", "#ff6b6b", "#8a2be2",
     "#00bcd4", "#e91e63", "#8bc34a", "#ffc107", "#3f51b5"]

  /** `electricityRate` before any saved setting is loaded. */
  const DefaultRate: real := 0.595

  /** The colour memo: `sensorColorMap` and `colorIndex`. */
  datatype ColorMemo = ColorMemo(colors: map<string, string>, next: nat)

  /** The memo's invariant: the index has moved on once per remembered name. */
  ghost predicate WellCounted(c: ColorMemo)
  {
    |c.colors| == c.next
  }

  /** Every colour given is a palette colour. */
  ghost predicate PaletteOnly(c: ColorMemo)
  {
    forall name :: name in c.colors ==> c.colors[name] in Palette
  }

  /** `getSensorColor(name)` on the memo: a new name takes the next palette colour, cyclically. */
  function Remember(c: ColorMemo, name: string): ColorMemo
  {
    if name in c.colors then c
    else ColorMemo(c.colors[name := Palette[c.next % |Palette|]], c.next + 1)
  }

  /** `getSensorColor` called on each of `names`, in order. */
  function RememberAll(c: ColorMemo, names: seq<string>): ColorMemo
  {
    if names == [] then c else Remember(RememberAll(c, names[..|names| - 1]), names[|names| - 1])
  }

  /**
   * A name seen before keeps its colour and leaves the memo unchanged; a new
   * name gets `availableColors[colorIndex % 10]` and moves the index on by
   * exactly one.
   */
  lemma RememberSpec(c: ColorMemo, name: string)
    ensures name in Remember(c, name).colors
    ensures name in c.colors ==> Remember(c, name) == c
    ensures name !in c.colors ==>
      && Remember(c, name).colors[name] == Palette[c.next % 10]
      && Remember(c, name).next == c.next + 1
      && Remember(c, name).colors.Keys == c.colors.Keys + {name}
  {
  }

  /** No colour already given changes. */
  lemma RememberKeeps(c: ColorMemo, name: string)
    ensures forall n :: n in c.colors ==> n in Remember(c, name).colors && Remember(c, name).colors[n] == c.colors[n]
  {
  }

  /** Asking twice gives the same colour, and the same memo, as asking once. */
  lemma RememberTwice(c: ColorMemo, name: string)
    ensures Remember(Remember(c, name), name) == Remember(c, name)
  {
  }

  /** Remembering keeps the memo's invariant. */
  lemma RememberCounted(c: ColorMemo, name: string)
    requires WellCounted(c)
    ensures WellCounted(Remember(c, name))
  {
    if name !in c.colors {
      assert c.colors[name := Palette[c.next % |Palette|]].Keys == c.colors.Keys + {name};
    }
  }

  /** Colouring keeps the memo's invariant. */
  lemma {:induction false} RememberAllCounted(c: ColorMemo, names: seq<string>)
    requires WellCounted(c)
    ensures WellCounted(RememberAll(c, names))
  {
    if names != [] {
      RememberAllCounted(c, names[..|names| - 1]);
      RememberCounted(RememberAll(c, names[..|names| - 1]), names[|names| - 1]);
    }
  }

  /** Only palette colours are ever given. */
  lemma {:induction false} RememberAllPalette(c: ColorMemo, names: seq<string>)
    requires PaletteOnly(c)
    ensures PaletteOnly(RememberAll(c, names))
  {
    if names != [] {
      var init := names[..|names| - 1];
      RememberAllPalette(c, init);
      var d := RememberAll(c, init);
      if names[|names| - 1] !in d.colors {
        assert Palette[d.next % |Palette|] in Palette;
      }
    }
  }

  lemma RememberAllStep(c: ColorMemo, names: seq<string>, k: nat)
    requires k < |names|
    ensures RememberAll(c, names[..k + 1]) == Remember(RememberAll(c, names[..k]), names[k])
  {
    var g := names[..k + 1];
    assert g[..|g| - 1] == names[..k];
  }

  /** After the calls every name has a colour, and colours given earlier are kept. */
  lemma {:induction false} RememberAllCovers(c: ColorMemo, names: seq<string>)
    ensures forall n :: n in names ==> n in RememberAll(c, names).colors
    ensures forall n :: n in c.colors ==> n in RememberAll(c, names).colors && RememberAll(c, names).colors[n] == c.colors[n]
  {
    if names != [] {
      var init := names[..|names| - 1];
      RememberAllCovers(c, init);
      RememberKeeps(RememberAll(c, init), names[|names| - 1]);
      assert forall n :: n in names ==> n in init || n == names[|names| - 1];
    }
  }

  /** Every colour of `m` is still given, unchanged, in `m'`. */
  ghost predicate KeepsColors(m: map<string, string>, m': map<string, string>)
  {
    forall n :: n in m ==> n in m' && m'[n] == m[n]
  }

  /**
   * A refresh keeps every colour given before it: it leaves the memo alone, or
   * runs `getSensorColor` over some names.
   */
  lemma RefreshKeepsColors(c: ColorMemo, c': ColorMemo, refreshed: bool, names: seq<string>)
    requires !refreshed ==> c' == c
    requires refreshed ==> c' == RememberAll(c, names)
    ensures KeepsColors(c.colors, c'.colors)
  {
    if refreshed {
      RememberAllCovers(c, names);
    }
  }

  /** Names that all have a colour already change nothing. */
  lemma {:induction false} RememberAllKnown(c: ColorMemo, names: seq<string>)
    requires forall n :: n in names ==> n in c.colors
    ensures RememberAll(c, names) == c
  {
    if names != [] {
      var init := names[..|names| - 1];
      assert forall n :: n in init ==> n in names;
      RememberAllKnown(c, init);
    }
  }

  /** Colouring the same names a second time changes nothing. */
  lemma RememberAllIdempotent(c: ColorMemo, names: seq<string>)
    ensures RememberAll(RememberAll(c, names), names) == RememberAll(c, names)
  {
    RememberAllCovers(c, names);
    RememberAllKnown(RememberAll(c, names), names);
  }

  /**
   * From an empty memo, distinct names are coloured by their position: the
   * k-th name gets palette entry k mod 10, so the 11th name shares the 1st's colour.
   */
  lemma {:induction false} FreshColors(names: seq<string>)
    requires Distinct(names)
    ensures RememberAll(ColorMemo(map[], 0), names).next == |names|
    ensures forall n :: n in RememberAll(ColorMemo(map[], 0), names).colors <==> n in names
    ensures forall k :: 0 <= k < |names| ==> RememberAll(ColorMemo(map[], 0), names).colors[names[k]] == Palette[k % 10]
  {
    if names != [] {
      var init, last := names[..|names| - 1], names[|names| - 1];
      assert Distinct(init);
      FreshColors(init);
      var c := RememberAll(ColorMemo(map[], 0), init);
      assert last !in init;
      assert last !in c.colors;
      RememberSpec(c, last);
      RememberKeeps(c, last);
      forall k | 0 <= k < |names| ensures RememberAll(ColorMemo(map[], 0), names).colors[names[k]] == Palette[k % 10] {
        if k < |init| {
          assert names[k] == init[k];
        }
      }
    }
  }

  /** The point size of a line with `n` points: 3, 2 above 100 points, 1.5 when sampled. */
  function PointRadius(n: nat): real
  {
    if n > SampleAbove then 1.5 else if n > 100 then 2.0 else 3.0
  }

  /** The hover size of a line with `n` points: 6, or 5 above 100 points. */
  function HoverRadius(n: nat): real
  {
    if n > 100 then 5.0 else 6.0
  }

  /** A line of the power chart: its sensor, the points drawn (`y` is `valP`), colour and point sizes. */
  datatype Dataset = Dataset(name: string, points: seq<Reading>, color: string, radius: real, hoverRadius: real)

  /** A slice of the doughnut chart: its sensor, its power total and its colour. */
  datatype Slice = Slice(name: string, value: real, color: string)

  /** The line of sensor `name` whose readings are `g`: sampled when long, point sizes by length. */
  function Line(name: string, g: seq<Reading>, color: string): Dataset
  {
    Dataset(name, Downsample(g), color, PointRadius(|g|), HoverRadius(|g|))
  }

  /** The dataset `updateCharts` builds for one sensor, with the sampling written out as in the page. */
  method BuildLine(sensor: string, group: seq<Reading>, color: string) returns (d: Dataset)
    ensures d == Line(sensor, group, color)
    ensures |group| <= SampleAbove ==> d.points == group
    ensures |d.points| <= TargetPoints || |group| <= SampleAbove
  {
    var data := group;
    var pointRadius := 3.0;
    var pointHoverRadius := 6.0;
    if |data| > 100 {
      pointRadius := 2.0;
      pointHoverRadius := 5.0;
    }
    if |data| > SampleAbove {
      var step := CeilDiv(|data|, TargetPoints);
      data := Decimate(data, step);
      pointRadius := 1.5;
    }
    DownsampleShape(group);
    d := Dataset(sensor, data, color, pointRadius, pointHoverRadius);
  }

  /** The power chart's lines for the sensors `names` of the selection `s`, one per name in order. */
  function Lines(s: seq<Reading>, names: seq<string>, colors: map<string, string>): (r: seq<Dataset>)
    requires forall n :: n in names ==> n in colors
    ensures |r| == |names|
  {
    if names == [] then []
    else
      var init, n := names[..|names| - 1], names[|names| - 1];
      assert forall m :: m in init ==> m in names;
      Lines(s, init, colors) + [Line(n, OfSensor(s, n), colors[n])]
  }

  /** The doughnut's slices for the sensors `names` of the selection `s`: each sensor's power total. */
  function Slices(s: seq<Reading>, names: seq<string>, colors: map<string, string>): (r: seq<Slice>)
    requires forall n :: n in names ==> n in colors
    ensures |r| == |names|
  {
    if names == [] then []
    else
      var init, n := names[..|names| - 1], names[|names| - 1];
      assert forall m :: m in init ==> m in names;
      Slices(s, init, colors) + [Slice(n, SumP(OfSensor(s, n)), colors[n])]
  }

  /** The k-th line is sensor `names[k]`'s readings, sampled, in its colour. */
  lemma {:induction false} LinesAt(s: seq<Reading>, names: seq<string>, colors: map<string, string>, k: nat)
    requires forall n :: n in names ==> n in colors
    requires k < |names|
    ensures Lines(s, names, colors)[k] == Line(names[k], OfSensor(s, names[k]), colors[names[k]])
  {
    var init := names[..|names| - 1];
    assert forall m :: m in init ==> m in names;
    if k < |init| {
      LinesAt(s, init, colors, k);
    }
  }

  /** The k-th slice is sensor `names[k]`'s power total, in its colour. */
  lemma {:induction false} SlicesAt(s: seq<Reading>, names: seq<string>, colors: map<string, string>, k: nat)
    requires forall n :: n in names ==> n in colors
    requires k < |names|
    ensures Slices(s, names, colors)[k] == Slice(names[k], SumP(OfSensor(s, names[k])), colors[names[k]])
  {
    var init := names[..|names| - 1];
    assert forall m :: m in init ==> m in names;
    if k < |init| {
      SlicesAt(s, init, colors, k);
    }
  }

  /** Lines only read the colours of their own sensors. */
  lemma {:induction false} LinesKept(s: seq<Reading>, names: seq<string>, m: map<string, string>, m': map<string, string>)
    requires forall n :: n in names ==> n in m
    requires forall n :: n in m ==> n in m' && m'[n] == m[n]
    ensures forall n :: n in names ==> n in m'
    ensures Lines(s, names, m') == Lines(s, names, m)
  {
    if names != [] {
      var init := names[..|names| - 1];
      assert forall n :: n in init ==> n in names;
      LinesKept(s, init, m, m');
    }
  }

  /** The colour of each of `names`. */
  function ColorsOf(names: seq<string>, colors: map<string, string>): (r: seq<string>)
    requires forall n :: n in names ==> n in colors
    ensures |r| == |names| && forall k :: 0 <= k < |names| ==> r[k] == colors[names[k]]
  {
    seq(|names|, k requires 0 <= k < |names| => colors[names[k]])
  }

  /** One more colour, looked up after a colour memo that kept every colour used so far. */
  lemma ColorsStep(names: seq<string>, k: nat, m: map<string, string>, m': map<string, string>)
    requires k < |names|
    requires forall n :: n in names[..k] ==> n in m
    requires forall n :: n in m ==> n in m' && m'[n] == m[n]
    requires names[k] in m'
    ensures forall n :: n in names[..k + 1] ==> n in m'
    ensures ColorsOf(names[..k + 1], m') == ColorsOf(names[..k], m) + [m'[names[k]]]
  {
    assert names[..k + 1] == names[..k] + [names[k]];
    forall j | 0 <= j < k ensures names[..k][j] in m {
      assert names[..k][j] in names[..k];
    }
  }

  /** One more slice, with colours that no longer change. */
  lemma SlicesStep(s: seq<Reading>, names: seq<string>, k: nat, m: map<string, string>)
    requires k < |names|
    requires forall n :: n in names ==> n in m
    ensures forall n :: n in names[..k + 1] ==> n in m
    ensures Slices(s, names[..k + 1], m) == Slices(s, names[..k], m) + [Slice(names[k], SumP(OfSensor(s, names[k])), m[names[k]])]
  {
    var g := names[..k + 1];
    assert g[..|g| - 1] == names[..k];
    assert forall n :: n in g ==> n in names;
  }

  /** `getWeekKey(curr.dateObj)`: the ISO week of the instant's local calendar day. */
  function WeekOfInstant(localDay: int -> int): int -> WeekKey
  {
    t => KeyOf(localDay(t))
  }

  /** How many cards `renderCards` shows. */
  const CardLimit: nat := 50

  /** `data.slice(0, 50)`. */
  function Shown(data: seq<Reading>): (r: seq<Reading>)
    ensures |r| <= CardLimit && |r| <= |data| && r == data[..|r|]
    ensures |data| <= CardLimit ==> r == data
    ensures |r| == if |data| <= CardLimit then |data| else CardLimit
  {
    if |data| <= CardLimit then data else data[..CardLimit]
  }

  /** `[...s].reverse()`. */
  function Reversed(s: seq<Reading>): (r: seq<Reading>)
    ensures |r| == |s| && forall k :: 0 <= k < |s| ==> r[k] == s[|s| - 1 - k]
  {
    if s == [] then [] else [s[|s| - 1]] + Reversed(s[..|s| - 1])
  }

  /** The sensor of each reading, in order. */
  function SensorNames(s: seq<Reading>): (r: seq<string>)
    ensures |r| == |s| && forall k :: 0 <= k < |s| ==> r[k] == s[k].sensor
  {
    seq(|s|, k requires 0 <= k < |s| => s[k].sensor)
  }

  /**
   * Every card's sensor already has its colour once the charts are drawn, so
   * the cards assign no new colour.
   */
  lemma CardsAreCharted(s: seq<Reading>, c: ColorMemo)
    requires forall n :: n in Sensors(s) ==> n in c.colors
    ensures forall n :: n in SensorNames(Shown(Reversed(s))) ==> n in c.colors
  {
    var shown := Shown(Reversed(s));
    forall n | n in SensorNames(shown) ensures n in c.colors {
      var k :| 0 <= k < |shown| && SensorNames(shown)[k] == n;
      assert shown[k] == s[|s| - 1 - k];
      SensorsExactly(s);
    }
  }

  /** What the page shows after an update: the statistics, the forecast when computed, the card colours. */
  datatype View = View(stats: Stats, prediction: Option<Outcome>, cardColors: seq<string>)

  /** The statistics cards: as `calculateStats` leaves them for the selection `s`. */
  ghost predicate ShowsStats(st: Stats, s: seq<Reading>, rate: real)
  {
    && (s == [] ==> st == ZeroStats)
    && (s != [] ==> st.currentPower == s[|s| - 1].valP && st.totalKWh == EnergyKWh(s))
    && st.cost == st.totalKWh * rate && st.co2 == st.totalKWh * Co2Factor
  }

  /**
   * What the charts show for a non-empty selection `s`: a line per sensor in
   * first-seen order, sampled when long, and a slice per sensor with its
   * power total, each in the sensor's colour.
   */
  ghost predicate ChartsShow(s: seq<Reading>, colors: map<string, string>, lines: seq<Dataset>, slices: seq<Slice>)
  {
    && (forall n :: n in Sensors(s) ==> n in colors)
    && lines == Lines(s, Sensors(s), colors)
    && slices == Slices(s, Sensors(s), colors)
  }

  /** The cards for the selection `s`: one per reading of the newest 50, each in its sensor's colour. */
  ghost predicate CardsShow(s: seq<Reading>, colors: map<string, string>, cardColors: seq<string>)
  {
    && (forall n :: n in SensorNames(Shown(Reversed(s))) ==> n in colors)
    && cardColors == ColorsOf(SensorNames(Shown(Reversed(s))), colors)
  }

  /** `calculateStats`, which ends with `calculatePrediction` when the selection is not empty. */
  method Summarize(filtered: seq<Reading>, history: seq<Reading>, rate: real, localDay: int -> int)
    returns (stats: Stats, prediction: Option<Outcome>)
    ensures ShowsStats(stats, filtered, rate)
    ensures prediction.Some? <==> filtered != []
    ensures prediction.Some? ==> prediction.value == IntendedPrediction(history, rate, WeekOfInstant(localDay))
  {
    stats := CalculateStats(filtered, rate);
    prediction := None;
    if |filtered| > 0 {
      var p := CalculatePrediction(history, rate, WeekOfInstant(localDay));
      prediction := Some(p);
    }
  }

  class Dashboard {
    /** `allDataGlobal`. */
    var history: seq<Reading>
    /** `filteredDataGlobal`. */
    var filtered: seq<Reading>
    /** `sensorColorMap`. */
    var colorMap: map<string, string>
    /** `colorIndex`. */
    var colorIndex: nat
    /** `electricityRate`. */
    var rate: real
    /** `powerChart.data.datasets`. */
    var lines: seq<Dataset>
    /** The labels, data and colours of `sensorChart`. */
    var slices: seq<Slice>

    /** The history is in time order, so is the selection, and the colour memo keeps its invariant. */
    ghost predicate Valid()
      reads this
    {
      Chronological(history) && Chronological(filtered) && WellCounted(ColorMemo(colorMap, colorIndex))
    }

    /** The page as loaded: no readings, no colours given, the default rate, empty charts. */
    constructor()
      ensures Valid()
      ensures history == [] && filtered == [] && colorMap == map[] && colorIndex == 0
      ensures rate == DefaultRate && lines == [] && slices == []
    {
      history, filtered := [], [];
      colorMap, colorIndex := map[], 0;
      rate := DefaultRate;
      lines, slices := [], [];
    }

    /** `getSensorColor`. */
    method GetSensorColor(sensorName: string) returns (color: string)
      modifies this
      ensures ColorMemo(colorMap, colorIndex) == Remember(ColorMemo(old(colorMap), old(colorIndex)), sensorName)
      ensures sensorName in colorMap && color == colorMap[sensorName]
      ensures forall n :: n in old(colorMap) ==> n in colorMap && colorMap[n] == old(colorMap)[n]
      ensures history == old(history) && filtered == old(filtered) && rate == old(rate)
      ensures lines == old(lines) && slices == old(slices)
    {
      if sensorName !in colorMap {
        var c := Palette[colorIndex % |Palette|];
        colorMap := colorMap[sensorName := c];
        colorIndex := colorIndex + 1;
      }
      color := colorMap[sensorName];
    }

    /** `updateCharts`: one line per sensor, sampled when long, and the doughnut of totals. */
    method UpdateCharts()
      requires Valid()
      modifies this
      ensures Valid()
      ensures history == old(history) && filtered == old(filtered) && rate == old(rate)
      ensures filtered == [] ==>
        lines == old(lines) && slices == old(slices) && colorMap == old(colorMap) && colorIndex == old(colorIndex)
      ensures filtered != [] ==>
        ColorMemo(colorMap, colorIndex) == RememberAll(ColorMemo(old(colorMap), old(colorIndex)), Sensors(filtered))
      ensures filtered != [] ==> ChartsShow(filtered, colorMap, lines, slices)
    {
      if |filtered| == 0 {
        return;
      }
      ghost var start := ColorMemo(colorMap, colorIndex);
      UpdateLines();
      UpdateSlices();
      RememberAllCounted(start, Sensors(filtered));
    }

    /** The line chart part of `updateCharts`: group by sensor, colour each group, sample long ones. */
    method UpdateLines()
      modifies this
      ensures history == old(history) && filtered == old(filtered) && rate == old(rate) && slices == old(slices)
      ensures ColorMemo(colorMap, colorIndex) == RememberAll(ColorMemo(old(colorMap), old(colorIndex)), Sensors(filtered))
      ensures forall n :: n in Sensors(filtered) ==> n in colorMap
      ensures lines == Lines(filtered, Sensors(filtered), colorMap)
    {
      var names, groups := GroupBySensor(filtered);
      var datasets := DrawLines(names, groups);
      lines := datasets;
    }

    /** `Object.keys(sensorGroups).map(...)`: a dataset per sensor, colouring each in turn. */
    method DrawLines(names: seq<string>, groups: map<string, seq<Reading>>) returns (datasets: seq<Dataset>)
      requires forall n :: n in names ==> n in groups && groups[n] == OfSensor(filtered, n)
      modifies this
      ensures history == old(history) && filtered == old(filtered) && rate == old(rate)
      ensures lines == old(lines) && slices == old(slices)
      ensures ColorMemo(colorMap, colorIndex) == RememberAll(ColorMemo(old(colorMap), old(colorIndex)), names)
      ensures forall n :: n in names ==> n in colorMap
      ensures datasets == Lines(filtered, names, colorMap)
    {
      ghost var start := ColorMemo(colorMap, colorIndex);
      datasets := [];
      var k := 0;
      while k < |names|
        invariant 0 <= k <= |names|
        invariant history == old(history) && filtered == old(filtered) && rate == old(rate)
        invariant lines == old(lines) && slices == old(slices)
        invariant ColorMemo(colorMap, colorIndex) == RememberAll(start, names[..k])
        invariant forall n :: n in names[..k] ==> n in colorMap
        invariant datasets == Lines(filtered, names[..k], colorMap)
      {
        RememberAllStep(start, names, k);
        datasets := DrawLine(names, groups[names[k]], k, datasets);
        k := k + 1;
      }
      assert names[..|names|] == names;
    }

    /** One step of the line chart: colour sensor `names[k]` and add its dataset after those before it. */
    method DrawLine(names: seq<string>, group: seq<Reading>, k: nat, datasets: seq<Dataset>)
      returns (datasets': seq<Dataset>)
      requires k < |names|
      requires forall n :: n in names[..k] ==> n in colorMap
      requires datasets == Lines(filtered, names[..k], colorMap)
      requires group == OfSensor(filtered, names[k])
      modifies this
      ensures history == old(history) && filtered == old(filtered) && rate == old(rate)
      ensures lines == old(lines) && slices == old(slices)
      ensures ColorMemo(colorMap, colorIndex) == Remember(ColorMemo(old(colorMap), old(colorIndex)), names[k])
      ensures forall n :: n in names[..k + 1] ==> n in colorMap
      ensures datasets' == Lines(filtered, names[..k + 1], colorMap)
    {
      ghost var before := colorMap;
      var color := GetSensorColor(names[k]);
      LinesKept(filtered, names[..k], before, colorMap);
      var line := BuildLine(names[k], group, color);
      datasets' := datasets + [line];
      ghost var g := names[..k + 1];
      assert g[..|g| - 1] == names[..k];
      assert forall n :: n in g ==> n in names[..k] || n == names[k];
    }

    /** The doughnut part of `updateCharts`: each sensor's power total, in colours already given. */
    method UpdateSlices()
      requires forall n :: n in Sensors(filtered) ==> n in colorMap
      modifies this
      ensures history == old(history) && filtered == old(filtered) && rate == old(rate) && lines == old(lines)
      ensures colorMap == old(colorMap) && colorIndex == old(colorIndex)
      ensures slices == Slices(filtered, Sensors(filtered), colorMap)
    {
      var labels, totals := SensorTotals(filtered);
      var sliceList := DrawSlices(labels, totals);
      slices := sliceList;
    }

    /** `sensorLabels`, `sensorValues` and `sensorColors`: a slice per sensor, in colours already given. */
    method DrawSlices(labels: seq<string>, totals: map<string, real>) returns (sliceList: seq<Slice>)
      requires forall n :: n in labels ==> n in colorMap && n in totals && totals[n] == SumP(OfSensor(filtered, n))
      modifies this
      ensures history == old(history) && filtered == old(filtered) && rate == old(rate) && lines == old(lines)
      ensures colorMap == old(colorMap) && colorIndex == old(colorIndex) && slices == old(slices)
      ensures sliceList == Slices(filtered, labels, colorMap)
    {
      sliceList := [];
      var j := 0;
      while j < |labels|
        invariant 0 <= j <= |labels|
        invariant history == old(history) && filtered == old(filtered) && rate == old(rate) && lines == old(lines)
        invariant colorMap == old(colorMap) && colorIndex == old(colorIndex) && slices == old(slices)
        invariant sliceList == Slices(filtered, labels[..j], colorMap)
      {
        sliceList := DrawSlice(labels, totals[labels[j]], j, sliceList);
        j := j + 1;
      }
      assert labels[..|labels|] == labels;
    }

    /** One slice: sensor `labels[j]`, its total and its colour, after those before it. */
    method DrawSlice(labels: seq<string>, total: real, j: nat, sliceList: seq<Slice>) returns (sliceList': seq<Slice>)
      requires j < |labels|
      requires forall n :: n in labels ==> n in colorMap
      requires total == SumP(OfSensor(filtered, labels[j]))
      requires sliceList == Slices(filtered, labels[..j], colorMap)
      modifies this
      ensures history == old(history) && filtered == old(filtered) && rate == old(rate) && lines == old(lines)
      ensures colorMap == old(colorMap) && colorIndex == old(colorIndex) && slices == old(slices)
      ensures sliceList' == Slices(filtered, labels[..j + 1], colorMap)
    {
      SlicesStep(filtered, labels, j, colorMap);
      var color := GetSensorColor(labels[j]);
      sliceList' := sliceList + [Slice(labels[j], total, color)];
    }

    /** `renderCards`: a card for each of the first 50 readings, in its sensor's colour. */
    method RenderCards(data: seq<Reading>) returns (cardColors: seq<string>)
      modifies this
      ensures history == old(history) && filtered == old(filtered) && rate == old(rate)
      ensures lines == old(lines) && slices == old(slices)
      ensures ColorMemo(colorMap, colorIndex) == RememberAll(ColorMemo(old(colorMap), old(colorIndex)), SensorNames(Shown(data)))
      ensures forall n :: n in SensorNames(Shown(data)) ==> n in colorMap
      ensures cardColors == ColorsOf(SensorNames(Shown(data)), colorMap)
    {
      var show := if |data| <= CardLimit then data else data[..CardLimit];
      ghost var start := ColorMemo(colorMap, colorIndex);
      ghost var names := SensorNames(show);
      cardColors := [];
      var k := 0;
      while k < |show|
        invariant 0 <= k <= |show|
        invariant history == old(history) && filtered == old(filtered) && rate == old(rate)
        invariant lines == old(lines) && slices == old(slices)
        invariant ColorMemo(colorMap, colorIndex) == RememberAll(start, names[..k])
        invariant forall n :: n in names[..k] ==> n in colorMap
        invariant cardColors == ColorsOf(names[..k], colorMap)
      {
        RememberAllStep(start, names, k);
        ghost var before := colorMap;
        var color := GetSensorColor(show[k].sensor);
        ColorsStep(names, k, before, colorMap);
        cardColors := cardColors + [color];
        k := k + 1;
      }
      assert names[..|show|] == names;
    }

    /** `updateUI`: the statistics (and with them the forecast), the charts, then the cards, newest first. */
    method UpdateUI(localDay: int -> int) returns (view: View)
      requires Valid()
      modifies this
      ensures Valid()
      ensures history == old(history) && filtered == old(filtered) && rate == old(rate)
      ensures ShowsStats(view.stats, filtered, rate)
      ensures view.prediction.Some? <==> filtered != []
      ensures view.prediction.Some? ==> view.prediction.value == IntendedPrediction(history, rate, WeekOfInstant(localDay))
      ensures filtered == [] ==>
        lines == old(lines) && slices == old(slices) && colorMap == old(colorMap) && colorIndex == old(colorIndex)
      ensures filtered != [] ==>
        ColorMemo(colorMap, colorIndex) == RememberAll(ColorMemo(old(colorMap), old(colorIndex)), Sensors(filtered))
      ensures filtered != [] ==> ChartsShow(filtered, colorMap, lines, slices)
      ensures CardsShow(filtered, colorMap, view.cardColors)
    {
      var stats, prediction := Summarize(filtered, history, rate, localDay);
      var cardColors := Redraw();
      view := View(stats, prediction, cardColors);
    }

    /** The drawing part of `updateUI`: the charts, then the cards, newest first. */
    method Redraw() returns (cardColors: seq<string>)
      requires Valid()
      modifies this
      ensures Valid()
      ensures history == old(history) && filtered == old(filtered) && rate == old(rate)
      ensures filtered == [] ==>
        lines == old(lines) && slices == old(slices) && colorMap == old(colorMap) && colorIndex == old(colorIndex)
      ensures filtered != [] ==>
        ColorMemo(colorMap, colorIndex) == RememberAll(ColorMemo(old(colorMap), old(colorIndex)), Sensors(filtered))
      ensures filtered != [] ==> ChartsShow(filtered, colorMap, lines, slices)
      ensures CardsShow(filtered, colorMap, cardColors)
    {
      UpdateCharts();
      ghost var charted := ColorMemo(colorMap, colorIndex);
      var recentFirst := Reversed(filtered);
      if |filtered| > 0 {
        CardsAreCharted(filtered, charted);
      }
      cardColors := RenderCards(recentFirst);
      if |filtered| > 0 {
        RememberAllKnown(charted, SensorNames(Shown(recentFirst)));
      }
    }

    /** `applyFilters`: select the readings, then refresh everything shown. */
    method ApplyFilters(w: Window, cal: Calendar, localDay: int -> int) returns (view: View)
      requires Valid()
      modifies this
      ensures Valid()
      ensures history == old(history) && rate == old(rate)
      ensures filtered == ApplyFilter(history, w, cal)
      ensures ShowsStats(view.stats, filtered, rate)
      ensures view.prediction.Some? <==> filtered != []
      ensures view.prediction.Some? ==> view.prediction.value == IntendedPrediction(history, rate, WeekOfInstant(localDay))
      ensures filtered == [] ==>
        lines == old(lines) && slices == old(slices) && colorMap == old(colorMap) && colorIndex == old(colorIndex)
      ensures filtered != [] ==>
        ColorMemo(colorMap, colorIndex) == RememberAll(ColorMemo(old(colorMap), old(colorIndex)), Sensors(filtered))
      ensures filtered != [] ==> ChartsShow(filtered, colorMap, lines, slices)
      ensures CardsShow(filtered, colorMap, view.cardColors)
      ensures KeepsColors(old(colorMap), colorMap)
    {
      ghost var memo := ColorMemo(colorMap, colorIndex);
      FilterChronological(history, w, cal);
      filtered := ApplyFilter(history, w, cal);
      view := UpdateUI(localDay);
      RefreshKeepsColors(memo, ColorMemo(colorMap, colorIndex), filtered != [], Sensors(filtered));
    }

    /**
     * `loadEnergyData`: a missing or empty answer changes nothing; otherwise the
     * records are normalised, sorted by time into the history, and filtered.
     */
    method LoadEnergyData(raw: Option<seq<RawRecord>>, parse: string -> Option<int>,
                          w: Window, cal: Calendar, localDay: int -> int) returns (view: Option<View>)
      requires Valid()
      modifies this
      ensures Valid()
      ensures rate == old(rate)
      ensures raw.None? || raw.value == [] ==>
        && view.None? && history == old(history) && filtered == old(filtered)
        && colorMap == old(colorMap) && colorIndex == old(colorIndex)
        && lines == old(lines) && slices == old(slices)
      ensures raw.Some? && raw.value != [] ==>
        && view.Some?
        && history == SortByTime(Normalize(raw.value, parse))
        && filtered == ApplyFilter(history, w, cal)
        && ShowsStats(view.value.stats, filtered, rate)
        && (view.value.prediction.Some? <==> filtered != [])
        && (view.value.prediction.Some? ==> view.value.prediction.value == IntendedPrediction(history, rate, WeekOfInstant(localDay)))
        && (filtered == [] ==>
              lines == old(lines) && slices == old(slices) && colorMap == old(colorMap) && colorIndex == old(colorIndex))
        && (filtered != [] ==>
              ColorMemo(colorMap, colorIndex) == RememberAll(ColorMemo(old(colorMap), old(colorIndex)), Sensors(filtered)))
        && (filtered != [] ==> ChartsShow(filtered, colorMap, lines, slices))
        && CardsShow(filtered, colorMap, view.value.cardColors)
      ensures KeepsColors(old(colorMap), colorMap)
    {
      if raw.None? || |raw.value| == 0 {
        return None;
      }
      var records := Normalize(raw.value, parse);
      SortByTimeCorrect(records);
      history := SortByTime(records);
      assert colorMap == old(colorMap) && colorIndex == old(colorIndex);
      assert lines == old(lines) && slices == old(slices);
      var v := ApplyFilters(w, cal, localDay);
      view := Some(v);
    }
  }
}

/**
 * The energy integrator of `calculateStats` and the report summary of
 * `generatePDF` (app.js): trapezoidal kWh over neighbouring readings, with a
 * gap filter that ignores intervals that are not strictly between 0 and 1 hour.
 */
module Energy {
  import opened Common
  import opened Readings
  import opened TimeFilter

  /** `1000 * 60 * 60`: milliseconds per hour. */
  const MsPerHour: real := 3600000.0

  /** Kilograms of CO2 per kWh. */
  const Co2Factor: real := 0.45

  /** `hDiff`: hours from `prev` to `curr`. */
  function HoursBetween(prev: Reading, curr: Reading): real
  {
    (curr.time - prev.time) as real / MsPerHour
  }

  /** The gap filter `hDiff > 0 && hDiff < 1`. */
  predicate Counted(prev: Reading, curr: Reading)
  {
    0.0 < HoursBetween(prev, curr) < 1.0
  }

  /** The energy of one interval: the trapezoid, or nothing when the gap filter rejects it. */
  function IntervalKWh(prev: Reading, curr: Reading): (r: real)
    ensures !Counted(prev, curr) ==> r == 0.0
    ensures Counted(prev, curr) && prev.valP >= 0.0 && curr.valP >= 0.0 ==> r >= 0.0
  {
    if Counted(prev, curr) then (prev.valP + curr.valP) / 2.0 / 1000.0 * HoursBetween(prev, curr)
    else 0.0
  }

  /** Total kWh: the interval energies of all neighbouring pairs, left to right. */
  function EnergyKWh(s: seq<Reading>): real
  {
    if |s| < 2 then 0.0
    else EnergyKWh(s[..|s| - 1]) + IntervalKWh(s[|s| - 2], s[|s| - 1])
  }

  /** One more reading adds the energy of the interval that ends at it. */
  lemma EnergyPrefixStep(s: seq<Reading>, i: nat)
    requires 1 <= i < |s|
    ensures EnergyKWh(s[..i + 1]) == EnergyKWh(s[..i]) + IntervalKWh(s[i - 1], s[i])
  {
    var g := s[..i + 1];
    assert g[..|g| - 1] == s[..i];
    assert g[|g| - 2] == s[i - 1] && g[|g| - 1] == s[i];
  }

  /** The inline trapezoid `avgKW * hDiff` of `calculateStats` is the interval energy. */
  lemma StatsTrapezoid(prev: Reading, curr: Reading, hDiff: real)
    requires hDiff == (curr.time - prev.time) as real / (1000.0 * 60.0 * 60.0)
    ensures (0.0 < hDiff < 1.0) == Counted(prev, curr)
    ensures 0.0 < hDiff < 1.0 ==> (prev.valP + curr.valP) / 2.0 / 1000.0 * hDiff == IntervalKWh(prev, curr)
  {
  }

  /** The inline trapezoid `((p1 + p0) / 2000) * hDiff` of `generatePDF` is the interval energy. */
  lemma ReportTrapezoid(prev: Reading, curr: Reading, hDiff: real)
    requires hDiff == (curr.time - prev.time) as real / 3600000.0
    ensures (0.0 < hDiff < 1.0) == Counted(prev, curr)
    ensures 0.0 < hDiff < 1.0 ==> ((curr.valP + prev.valP) / 2000.0) * hDiff == IntervalKWh(prev, curr)
  {
  }

  /** The four figures `calculateStats` writes to the page. */
  datatype Stats = Stats(currentPower: real, totalKWh: real, cost: real, co2: real)

  /** The figures shown for an empty selection. */
  const ZeroStats := Stats(0.0, 0.0, 0.0, 0.0)

  /** One pass of the `calculateStats` loop: the gap filter and the trapezoid added to the total. */
  method StatsStep(totalKWh: real, prev: Reading, curr: Reading) returns (totalKWh': real)
    ensures totalKWh' == totalKWh + IntervalKWh(prev, curr)
  {
    totalKWh' := totalKWh;
    var msDiff := curr.time - prev.time;
    var hDiff := msDiff as real / (1000.0 * 60.0 * 60.0);
    StatsTrapezoid(prev, curr, hDiff);
    if hDiff > 0.0 && hDiff < 1.0 {
      var avgW := (prev.valP + curr.valP) / 2.0;
      var avgKW := avgW / 1000.0;
      totalKWh' := totalKWh' + avgKW * hDiff;
    }
  }

  /** `calculateStats`: the latest power, the integrated energy, its cost and its CO2. */
  method CalculateStats(s: seq<Reading>, rate: real) returns (st: Stats)
    ensures s == [] ==> st == ZeroStats
    ensures s != [] ==> st.currentPower == s[|s| - 1].valP
    ensures s != [] ==> st.totalKWh == EnergyKWh(s)
    ensures st.cost == st.totalKWh * rate && st.co2 == st.totalKWh * Co2Factor
  {
    if |s| == 0 {
      return ZeroStats;
    }
    var last := s[|s| - 1];
    var totalKWh := 0.0;
    var i := 1;
    while i < |s|
      invariant 1 <= i <= |s|
      invariant totalKWh == EnergyKWh(s[..i])
    {
      EnergyPrefixStep(s, i);
      totalKWh := StatsStep(totalKWh, s[i - 1], s[i]);
      i := i + 1;
    }
    assert s[..|s|] == s;
    st := Stats(last.valP, totalKWh, totalKWh * rate, totalKWh * Co2Factor);
  }

  /** With no negative power, the integrated energy is never negative. */
  lemma {:induction false} EnergyNonNegative(s: seq<Reading>)
    requires forall i :: 0 <= i < |s| ==> s[i].valP >= 0.0
    ensures EnergyKWh(s) >= 0.0
  {
    if |s| >= 2 {
      EnergyNonNegative(s[..|s| - 1]);
    }
  }

  /**
   * Energy is additive: integrating a history equals integrating the part up to
   * reading `k` and the part from reading `k` on (they share that reading).
   */
  lemma {:induction false} EnergySplit(s: seq<Reading>, k: nat)
    requires k < |s|
    ensures EnergyKWh(s) == EnergyKWh(s[..k + 1]) + EnergyKWh(s[k..])
    decreases |s|
  {
    if k == |s| - 1 {
      assert s[..k + 1] == s;
      assert |s[k..]| == 1;
    } else {
      var init := s[..|s| - 1];
      EnergySplit(init, k);
      assert init[..k + 1] == s[..k + 1];
      assert s[k..][..|s[k..]| - 1] == init[k..];
      assert s[k..][|s[k..]| - 2] == s[|s| - 2];
    }
  }

  /** Two readings exactly one hour apart contribute nothing: the boundary is excluded. */
  lemma OneHourGapIgnored(a: Reading, b: Reading)
    requires b.time == a.time + 3600000
    ensures EnergyKWh([a, b]) == 0.0
  {
    assert [a, b][..1] == [a];
  }

  /** 1000 W and 3000 W, 59 minutes apart: 2 kW for 59/60 hour. */
  lemma FiftyNineMinutesCounted(a: Reading, b: Reading)
    requires a.valP == 1000.0 && b.valP == 3000.0 && b.time == a.time + 59 * 60000
    ensures EnergyKWh([a, b]) == 2.0 * 59.0 / 60.0
  {
    assert [a, b][..1] == [a];
    assert HoursBetween(a, b) == 59.0 / 60.0;
  }

  /** The peak of the report loop: the largest `valP` from index 1 on, and at least 0. */
  function PeakAfterFirst(s: seq<Reading>): real
  {
    if |s| < 2 then 0.0
    else
      var p := PeakAfterFirst(s[..|s| - 1]);
      if s[|s| - 1].valP > p then s[|s| - 1].valP else p
  }

  /** One more reading raises the peak to it when it is higher. */
  lemma PeakPrefixStep(s: seq<Reading>, i: nat)
    requires 1 <= i < |s|
    ensures PeakAfterFirst(s[..i + 1]) ==
      (if s[i].valP > PeakAfterFirst(s[..i]) then s[i].valP else PeakAfterFirst(s[..i]))
  {
    var g := s[..i + 1];
    assert g[..|g| - 1] == s[..i];
  }

  /** The peak is an upper bound of every reading but the first, and is 0 or one of them. */
  lemma {:induction false} PeakAfterFirstIsMax(s: seq<Reading>)
    ensures PeakAfterFirst(s) >= 0.0
    ensures forall i :: 1 <= i < |s| ==> s[i].valP <= PeakAfterFirst(s)
    ensures PeakAfterFirst(s) == 0.0 || exists i :: 1 <= i < |s| && s[i].valP == PeakAfterFirst(s)
  {
    if |s| >= 2 {
      var init := s[..|s| - 1];
      PeakAfterFirstIsMax(init);
      if PeakAfterFirst(init) != 0.0 && PeakAfterFirst(s) == PeakAfterFirst(init) {
        var i :| 1 <= i < |init| && init[i].valP == PeakAfterFirst(init);
        assert s[i] == init[i];
      }
    }
  }

  /** The first reading is never looked at by the peak. */
  lemma {:induction false} PeakIgnoresFirst(s: seq<Reading>, x: Reading)
    requires |s| > 0
    ensures PeakAfterFirst(s[0 := x]) == PeakAfterFirst(s)
  {
    if |s| >= 2 {
      PeakIgnoresFirst(s[..|s| - 1], x);
      assert s[0 := x][..|s| - 1] == s[..|s| - 1][0 := x];
    }
  }

  /** One pass of the `generatePDF` loop over the readings `prev`, `curr`. */
  method ReportStep(sumKWh: real, maxP: real, prev: Reading, curr: Reading) returns (sumKWh': real, maxP': real)
    ensures sumKWh' == sumKWh + IntervalKWh(prev, curr)
    ensures maxP' == (if curr.valP > maxP then curr.valP else maxP)
  {
    sumKWh', maxP' := sumKWh, maxP;
    var hDiff := (curr.time - prev.time) as real / 3600000.0;
    ReportTrapezoid(prev, curr, hDiff);
    if hDiff > 0.0 && hDiff < 1.0 {
      sumKWh' := sumKWh' + ((curr.valP + prev.valP) / 2000.0) * hDiff;
    }
    if curr.valP > maxP' {
      maxP' := curr.valP;
    }
  }

  /**
   * The kWh and peak loop of `generatePDF`. Its trapezoid divides by 2000 where
   * `calculateStats` divides by 2 and then by 1000: the totals agree.
   */
  method ReportSummary(s: seq<Reading>) returns (sumKWh: real, maxP: real)
    ensures sumKWh == EnergyKWh(s)
    ensures maxP == PeakAfterFirst(s)
  {
    sumKWh := 0.0;
    maxP := 0.0;
    var i := 1;
    while i < |s|
      invariant 1 <= i <= |s| || (s == [] && i == 1)
      invariant s == [] ==> sumKWh == 0.0 && maxP == 0.0
      invariant s != [] ==> sumKWh == EnergyKWh(s[..i]) && maxP == PeakAfterFirst(s[..i])
    {
      EnergyPrefixStep(s, i);
      PeakPrefixStep(s, i);
      sumKWh, maxP := ReportStep(sumKWh, maxP, s[i - 1], s[i]);
      i := i + 1;
    }
    if s != [] {
      assert s[..|s|] == s;
    }
  }

  /** What a report is built from: an explicit list of rows, or a named period of the history. */
  datatype ReportRequest = Rows(rows: seq<Reading>) | Period(name: string)

  /** The figures printed at the top of a report. */
  datatype Report = Report(totalKWh: real, totalCost: real, peakPower: real)

  /** The readings of `s` at or after instant `t`. */
  function Since(s: seq<Reading>, t: int): seq<Reading>
  {
    if s == [] then [] else (if s[0].time >= t then [s[0]] else []) + Since(s[1..], t)
  }

  /** The `reportData` selection: `'today'`, `'week'`, `'month'`, or the whole history. */
  function ReportRows(req: ReportRequest, history: seq<Reading>, cal: Calendar): seq<Reading>
  {
    match req
    case Rows(rows) => rows
    case Period(name) =>
      if name == "today" then Since(history, cal.startOfToday)
      else if name == "week" then Since(history, cal.weekAgo)
      else if name == "month" then Since(history, cal.monthAgo)
      else history
  }

  /** A daily report selects exactly what the dashboard's "today" filter over all sensors shows. */
  lemma {:induction false} TodayReportMatchesFilter(history: seq<Reading>, cal: Calendar)
    ensures ReportRows(Period("today"), history, cal) ==
            ApplyFilter(history, Window("today", "all", "", ""), cal)
  {
    SinceMatchesFilter(history, cal);
  }

  lemma {:induction false} SinceMatchesFilter(s: seq<Reading>, cal: Calendar)
    ensures Since(s, cal.startOfToday) == ApplyFilter(s, Window("today", "all", "", ""), cal)
  {
    if s != [] {
      SinceMatchesFilter(s[1..], cal);
    }
  }

  /** `generatePDF` without its layout: nothing for an empty selection, else the three figures. */
  method GenerateReport(req: ReportRequest, history: seq<Reading>, cal: Calendar, rate: real)
    returns (report: Option<Report>)
    ensures ReportRows(req, history, cal) == [] <==> report.None?
    ensures report.Some? ==>
      var rows := ReportRows(req, history, cal);
      && report.value.totalKWh == EnergyKWh(rows)
      && report.value.totalCost == EnergyKWh(rows) * rate
      && report.value.peakPower == PeakAfterFirst(rows)
  {
    var rows := ReportRows(req, history, cal);
    if |rows| == 0 {
      return None;
    }
    var sumKWh, maxP := ReportSummary(rows);
    report := Some(Report(sumKWh, sumKWh * rate, maxP));
  }
}

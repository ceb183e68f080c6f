/**
 * The time and sensor filter of `applyFilters` (app.js). The page's inputs
 * are a `Window`; the local-calendar instants derived from "now" and from the
 * two date inputs are a `Calendar` (JavaScript `Date` arithmetic, taken as given).
 */
module TimeFilter {
  import opened Common
  import opened Readings

  /** The values of `time-range`, `sensor-filter`, `date-from` and `date-to`. */
  datatype Window = Window(range: string, sensor: string, dateFrom: string, dateTo: string)

  /** Milliseconds of one day up to 23:59:59 (what `setHours(23, 59, 59)` adds to a midnight). */
  const EndOfDayOffset: int := 23 * 3600000 + 59 * 60000 + 59 * 1000

  /**
   * Instants computed from "now" in local time: `startOfToday`; the same moved
   * back one day, seven days and one month; and the custom bounds `new Date(dFrom)`
   * and `new Date(dTo)` after `setHours(23, 59, 59)`, absent when the date is invalid.
   */
  datatype Calendar = Calendar(
    startOfToday: int,
    startOfYesterday: int,
    weekAgo: int,
    monthAgo: int,
    customFrom: Option<int>,
    customTo: Option<int>)

  /** The sensor test: `'all'` passes everything, otherwise the names must be equal. */
  predicate SensorPasses(w: Window, x: Reading)
  {
    w.sensor == "all" || x.sensor == w.sensor
  }

  /** The range test, branch by branch; an unknown range passes everything. */
  predicate RangePasses(w: Window, cal: Calendar, t: int)
  {
    if w.range == "today" then t >= cal.startOfToday
    else if w.range == "yesterday" then cal.startOfYesterday <= t < cal.startOfToday
    else if w.range == "week" then t >= cal.weekAgo
    else if w.range == "month" then t >= cal.monthAgo
    else if w.range == "custom" && w.dateFrom != "" && w.dateTo != "" then
      // a comparison with an invalid date (NaN) is false
      cal.customFrom.Some? && cal.customTo.Some? &&
      cal.customFrom.value <= t <= cal.customTo.value
    else true
  }

  /** The predicate handed to `allDataGlobal.filter`. */
  predicate Keep(w: Window, cal: Calendar, x: Reading)
  {
    SensorPasses(w, x) && RangePasses(w, cal, x.time)
  }

  /** `r` is obtained from `s` by deleting elements, order kept. */
  ghost predicate IsSubsequence<T>(r: seq<T>, s: seq<T>)
    decreases |s|
  {
    r == [] ||
    (s != [] && ((r[0] == s[0] && IsSubsequence(r[1..], s[1..])) || IsSubsequence(r, s[1..])))
  }

  /** `filteredDataGlobal`: the kept readings of the history, in history order. */
  function ApplyFilter(s: seq<Reading>, w: Window, cal: Calendar): (r: seq<Reading>)
    ensures IsSubsequence(r, s)
    ensures forall i :: 0 <= i < |r| ==> Keep(w, cal, r[i])
    ensures forall x :: multiset(r)[x] == (if Keep(w, cal, x) then multiset(s)[x] else 0)
  {
    if s == [] then []
    else
      var rest := ApplyFilter(s[1..], w, cal);
      assert s == [s[0]] + s[1..];
      if Keep(w, cal, s[0]) then
        assert ([s[0]] + rest)[1..] == rest;
        [s[0]] + rest
      else rest
  }

  /** Each range branch, stated as the interval it selects. */
  lemma RangeBranches(w: Window, cal: Calendar, t: int)
    ensures w.range == "today" ==> (RangePasses(w, cal, t) <==> cal.startOfToday <= t)
    ensures w.range == "yesterday" ==>
      (RangePasses(w, cal, t) <==> cal.startOfYesterday <= t < cal.startOfToday)
    ensures w.range == "week" ==> (RangePasses(w, cal, t) <==> cal.weekAgo <= t)
    ensures w.range == "month" ==> (RangePasses(w, cal, t) <==> cal.monthAgo <= t)
    ensures w.range == "custom" && w.dateFrom != "" && w.dateTo != "" &&
            cal.customFrom.Some? && cal.customTo.Some? ==>
      (RangePasses(w, cal, t) <==> cal.customFrom.value <= t <= cal.customTo.value)
    ensures w.range == "custom" && w.dateFrom != "" && w.dateTo != "" &&
            (cal.customFrom.None? || cal.customTo.None?) ==>
      !RangePasses(w, cal, t)
    ensures w.range == "custom" && (w.dateFrom == "" || w.dateTo == "") ==> RangePasses(w, cal, t)
    ensures w.range !in {"today", "yesterday", "week", "month", "custom"} ==> RangePasses(w, cal, t)
  {
  }

  /**
   * When the custom bounds are a midnight and 23:59:59 after it, the filter
   * keeps exactly the readings in that closed interval. The page gives such
   * bounds for a single date only at UTC offset 0: the start is read as UTC
   * midnight and the end is set in local time.
   */
  lemma CustomSingleDay(w: Window, cal: Calendar, midnight: int, x: Reading)
    requires w.range == "custom" && w.dateFrom != "" && w.dateTo != "" && w.sensor == "all"
    requires cal.customFrom == Some(midnight) && cal.customTo == Some(midnight + EndOfDayOffset)
    ensures Keep(w, cal, x) <==> midnight <= x.time <= midnight + 86399000
  {
  }

  /** With sensor `'all'` and no matching range, the filter is the identity. */
  lemma {:induction false} FilterPassesAll(s: seq<Reading>, w: Window, cal: Calendar)
    requires w.sensor == "all"
    requires w.range !in {"today", "yesterday", "week", "month", "custom"} ||
             (w.range == "custom" && (w.dateFrom == "" || w.dateTo == ""))
    ensures ApplyFilter(s, w, cal) == s
  {
    if s != [] {
      assert Keep(w, cal, s[0]);
      FilterPassesAll(s[1..], w, cal);
      assert s == [s[0]] + s[1..];
    }
  }

  /** The filter keeps chronological order: a filtered history is still sorted. */
  lemma {:induction false} FilterChronological(s: seq<Reading>, w: Window, cal: Calendar)
    requires Chronological(s)
    ensures Chronological(ApplyFilter(s, w, cal))
  {
    if s != [] {
      FilterChronological(s[1..], w, cal);
      var rest := ApplyFilter(s[1..], w, cal);
      forall j | 0 <= j < |rest| ensures s[0].time <= rest[j].time {
        assert rest[j] in multiset(rest);
        assert rest[j] in multiset(s[1..]);
        assert rest[j] in s[1..];
      }
    }
  }
}

/**
 * Readings and their normalisation (app.js, `parseDateSystem` and the
 * `raw.map(...).filter(...)` / `sort` in `loadEnergyData`).
 *
 * A timestamp is an integer number of milliseconds. Turning a timestamp text
 * into milliseconds is JavaScript's `new Date(text)`; it is an oracle `parse`
 * that answers `None` where `getTime()` is `NaN`.
 */
module Readings {
  import opened Common
  import opened Sorting

  /** The sensor a record without a sensor name is attributed to. */
  const DefaultSensor: string := "SCT013"

  /**
   * A record as fetched. An absent field (`undefined`, `null`) is `None`; a
   * numeric field is `None` where `parseFloat` gives `NaN`.
   */
  datatype RawRecord = RawRecord(
    timestamp: Option<string>,
    sensor: Option<string>,
    potencia: Option<real>,
    voltaje: Option<real>,
    corriente: Option<real>)

  /** A normalised reading: `dateObj`, `valP`, `valV`, `valI` and `sensor`. */
  datatype Reading = Reading(time: int, valP: real, valV: real, valI: real, sensor: string)

  /** `parseDateSystem`: an empty or absent text, or one that does not parse, gives no instant. */
  function ParseDateSystem(ts: Option<string>, parse: string -> Option<int>): (r: Option<int>)
    ensures r.Some? <==> ts.Some? && ts.value != "" && parse(ts.value).Some?
    ensures r.Some? ==> r == parse(ts.value)
  {
    match ts
    case None => None
    case Some(text) => if text == "" then None else parse(text)
  }

  /** `parseFloat(v) || 0`: a value that is not a number becomes 0. */
  function Coerce(v: Option<real>): (r: real)
    ensures v.None? ==> r == 0.0
    ensures v.Some? ==> r == v.value
  {
    v.GetOr(0.0)
  }

  /** `item.sensor || "SCT013"`: an absent or empty name becomes the default sensor. */
  function SensorOrDefault(name: Option<string>): (r: string)
    ensures r != ""
    ensures name.Some? && name.value != "" ==> r == name.value
    ensures name.None? || name.value == "" ==> r == DefaultSensor
  {
    if name.Some? && name.value != "" then name.value else DefaultSensor
  }

  /** One record after the `map` and the `filter(item => item.dateObj !== null)`. */
  function NormalizeRecord(rec: RawRecord, parse: string -> Option<int>): (r: seq<Reading>)
    ensures |r| <= 1
    ensures |r| == 1 <==> ParseDateSystem(rec.timestamp, parse).Some?
    ensures |r| == 1 ==>
      && Some(r[0].time) == parse(rec.timestamp.value)
      && (rec.potencia.None? ==> r[0].valP == 0.0)
      && (rec.voltaje.None? ==> r[0].valV == 0.0)
      && (rec.corriente.None? ==> r[0].valI == 0.0)
      && (rec.potencia.Some? ==> r[0].valP == rec.potencia.value)
      && (rec.voltaje.Some? ==> r[0].valV == rec.voltaje.value)
      && (rec.corriente.Some? ==> r[0].valI == rec.corriente.value)
      && (rec.sensor.None? || rec.sensor.value == "" ==> r[0].sensor == DefaultSensor)
      && (rec.sensor.Some? && rec.sensor.value != "" ==> r[0].sensor == rec.sensor.value)
  {
    match ParseDateSystem(rec.timestamp, parse)
    case None => []
    case Some(t) =>
      [Reading(t, Coerce(rec.potencia), Coerce(rec.voltaje), Coerce(rec.corriente),
               SensorOrDefault(rec.sensor))]
  }

  /** The whole batch, in fetch order, with the undated records dropped. */
  function Normalize(raw: seq<RawRecord>, parse: string -> Option<int>): (r: seq<Reading>)
    ensures |r| <= |raw|
  {
    if raw == [] then []
    else Normalize(raw[..|raw| - 1], parse) + NormalizeRecord(raw[|raw| - 1], parse)
  }

  /** Normalisation treats records independently: it distributes over concatenation. */
  lemma {:induction false} NormalizeAppend(a: seq<RawRecord>, b: seq<RawRecord>, parse: string -> Option<int>)
    ensures Normalize(a + b, parse) == Normalize(a, parse) + Normalize(b, parse)
  {
    if b == [] {
      assert a + b == a;
    } else {
      assert (a + b)[..|a + b| - 1] == a + b[..|b| - 1];
      NormalizeAppend(a, b[..|b| - 1], parse);
    }
  }

  /** Every output reading comes from some input record whose timestamp parsed. */
  lemma {:induction false} NormalizeOrigin(raw: seq<RawRecord>, parse: string -> Option<int>, k: nat)
    requires k < |Normalize(raw, parse)|
    ensures exists i :: 0 <= i < |raw| && NormalizeRecord(raw[i], parse) == [Normalize(raw, parse)[k]]
  {
    var init := raw[..|raw| - 1];
    var last := NormalizeRecord(raw[|raw| - 1], parse);
    if k < |Normalize(init, parse)| {
      NormalizeOrigin(init, parse, k);
      var i :| 0 <= i < |init| && NormalizeRecord(init[i], parse) == [Normalize(init, parse)[k]];
      assert raw[i] == init[i];
    } else {
      assert NormalizeRecord(raw[|raw| - 1], parse) == [Normalize(raw, parse)[k]];
    }
  }

  /** Every record whose timestamp parsed appears, normalised, in the output. */
  lemma {:induction false} NormalizeKeeps(raw: seq<RawRecord>, parse: string -> Option<int>, i: nat)
    requires i < |raw|
    requires ParseDateSystem(raw[i].timestamp, parse).Some?
    ensures NormalizeRecord(raw[i], parse)[0] in Normalize(raw, parse)
  {
    if i < |raw| - 1 {
      NormalizeKeeps(raw[..|raw| - 1], parse, i);
    }
  }

  /** A record with a missing or unparsable timestamp contributes nothing. */
  lemma NormalizeDrops(raw: seq<RawRecord>, rec: RawRecord, parse: string -> Option<int>)
    requires ParseDateSystem(rec.timestamp, parse).None?
    ensures Normalize(raw + [rec], parse) == Normalize(raw, parse)
  {
    assert (raw + [rec])[..|raw|] == raw;
  }

  /** The comparator `(a, b) => a.dateObj - b.dateObj`, as "not after". */
  predicate TimeLe(a: Reading, b: Reading)
  {
    a.time <= b.time
  }

  /** `allDataGlobal.sort(...)`, a stable sort by time. */
  function SortByTime(s: seq<Reading>): seq<Reading>
  {
    SortBy(s, TimeLe)
  }

  /** The readings of `s` stamped exactly `t`, in order. */
  function AtTime(s: seq<Reading>, t: int): seq<Reading>
  {
    if s == [] then [] else (if s[0].time == t then [s[0]] else []) + AtTime(s[1..], t)
  }

  /** The history invariant: time never decreases along the sequence. */
  predicate Chronological(s: seq<Reading>)
  {
    forall i, j :: 0 <= i < j < |s| ==> s[i].time <= s[j].time
  }

  lemma AdjacentChronological(s: seq<Reading>)
    requires Sorted(s, TimeLe)
    ensures Chronological(s)
  {
    forall i, j | 0 <= i < j < |s| ensures s[i].time <= s[j].time {
      var k := i;
      while k < j
        invariant i <= k <= j
        invariant s[i].time <= s[k].time
      {
        assert TimeLe(s[k], s[k + 1]);
        k := k + 1;
      }
    }
  }

  /** The sorted history is chronological and a permutation of the input. */
  lemma SortByTimeCorrect(s: seq<Reading>)
    ensures Chronological(SortByTime(s))
    ensures multiset(SortByTime(s)) == multiset(s)
  {
    assert Total(TimeLe);
    SortBySorted(s, TimeLe);
    AdjacentChronological(SortByTime(s));
    SortByPermutes(s, TimeLe);
  }

  lemma AtTimeSingle(x: Reading, t: int)
    ensures AtTime([x], t) == (if x.time == t then [x] else [])
  {
    assert [x][1..] == [];
  }

  lemma AtTimeCons(x: Reading, s: seq<Reading>, t: int)
    ensures AtTime([x] + s, t) == AtTime([x], t) + AtTime(s, t)
  {
    assert ([x] + s)[1..] == s;
    AtTimeSingle(x, t);
  }

  lemma {:induction false} InsertAtTime(x: Reading, s: seq<Reading>, t: int)
    ensures AtTime(InsertBy(x, s, TimeLe), t) == AtTime([x], t) + AtTime(s, t)
  {
    if s == [] || TimeLe(x, s[0]) {
      AtTimeCons(x, s, t);
    } else {
      var r := InsertBy(x, s[1..], TimeLe);
      assert InsertBy(x, s, TimeLe) == [s[0]] + r;
      assert s == [s[0]] + s[1..];
      InsertAtTime(x, s[1..], t);
      AtTimeCons(s[0], r, t);
      AtTimeCons(s[0], s[1..], t);
      AtTimeSingle(x, t);
      AtTimeSingle(s[0], t);
      assert AtTime([x], t) == [] || AtTime([s[0]], t) == [];
    }
  }

  /** Stability: readings that share a timestamp keep their fetch order. */
  lemma {:induction false} SortByTimeStable(s: seq<Reading>, t: int)
    ensures AtTime(SortByTime(s), t) == AtTime(s, t)
  {
    if s != [] {
      SortByTimeStable(s[1..], t);
      InsertAtTime(s[0], SortByTime(s[1..]), t);
      AtTimeCons(s[0], s[1..], t);
      assert s == [s[0]] + s[1..];
    }
  }
}

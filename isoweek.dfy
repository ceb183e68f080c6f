/**
 * `getWeekKey` (app.js): the week-numbering of the ISO 8601 week date. A week
 * runs Monday to Sunday and belongs to the year that holds its Thursday; week 1
 * is the week of that year's first Thursday. The key is written `YYYY-W<n>`,
 * with no padding.
 *
 * A calendar date is its day number: days since 1970-01-01 in the proleptic
 * Gregorian calendar, i.e. `Date.UTC(y, m, d) / 86400000`.
 */
module IsoWeek {
  import opened Common

  /** Leap days counted by the Gregorian rule in years 1 .. x (shifted, so any x works). */
  function Leaps(x: int): int
  {
    x / 4 - x / 100 + x / 400
  }

  predicate IsLeapYear(y: int)
  {
    y % 4 == 0 && (y % 100 != 0 || y % 400 == 0)
  }

  /** The day number of 1 January of year `y` (`Date.UTC(y, 0, 1)` in days). */
  function JanFirst(y: int): int
  {
    365 * (y - 1970) + Leaps(y - 1) - Leaps(1969)
  }

  lemma DivStep(y: int, k: int)
    requires k == 4 || k == 100 || k == 400
    ensures y / k - (y - 1) / k == if y % k == 0 then 1 else 0
  {
    var q, r := (y - 1) / k, (y - 1) % k;
    assert y - 1 == k * q + r && 0 <= r < k;
    if r == k - 1 {
      assert y == k * (q + 1);
    } else {
      assert y == k * q + (r + 1);
    }
  }

  /** Consecutive New Years are 365 days apart, or 366 after a leap year. */
  lemma JanFirstStep(y: int)
    ensures JanFirst(y + 1) - JanFirst(y) == if IsLeapYear(y) then 366 else 365
  {
    DivStep(y, 4);
    DivStep(y, 100);
    DivStep(y, 400);
  }

  lemma {:induction false} JanFirstMonotone(a: int, b: int)
    requires a <= b
    ensures JanFirst(a) + 365 * (b - a) <= JanFirst(b)
    decreases b - a
  {
    if a < b {
      JanFirstMonotone(a, b - 1);
      JanFirstStep(b - 1);
    }
  }

  /** New Years come in the order of their years. */
  lemma JanFirstLe(a: int, b: int)
    requires a <= b
    ensures JanFirst(a) <= JanFirst(b)
  {
    JanFirstMonotone(a, b);
  }

  /** Looks for the year holding `day`, one year at a time from `y`. */
  function YearSearch(y: int, day: int): (r: int)
    ensures JanFirst(r) <= day < JanFirst(r + 1)
    decreases (if day < JanFirst(y) then JanFirst(y) - day else 0),
              (if day >= JanFirst(y) then day - JanFirst(y) else 0)
  {
    JanFirstStep(y - 1);
    JanFirstStep(y);
    if day < JanFirst(y) then YearSearch(y - 1, day)
    else if day >= JanFirst(y + 1) then YearSearch(y + 1, day)
    else y
  }

  /** The Gregorian year (`getUTCFullYear`) of a day number. */
  function YearOf(day: int): (y: int)
    ensures JanFirst(y) <= day < JanFirst(y + 1)
  {
    YearSearch(1970, day)
  }

  /** The year of a day is the only year whose span holds it. */
  lemma YearOfUnique(day: int, y: int)
    requires JanFirst(y) <= day < JanFirst(y + 1)
    ensures YearOf(day) == y
  {
    SpansDisjoint(YearOf(day), y, day);
  }

  /** The spans of two different years do not overlap. */
  lemma SpansDisjoint(z: int, y: int, day: int)
    requires JanFirst(z) <= day < JanFirst(z + 1) && JanFirst(y) <= day < JanFirst(y + 1)
    ensures z == y
  {
    if z < y {
      JanFirstLe(z + 1, y);
    } else if z > y {
      JanFirstLe(y + 1, z);
    }
  }

  lemma YearOfMonotone(d1: int, d2: int)
    requires d1 <= d2
    ensures YearOf(d1) <= YearOf(d2)
  {
    if YearOf(d1) > YearOf(d2) {
      JanFirstLe(YearOf(d2) + 1, YearOf(d1));
    }
  }

  /** `getUTCDay() || 7`: 1 for Monday through 7 for Sunday (1970-01-01 was a Thursday). */
  function IsoDayNum(day: int): (r: int)
    ensures 1 <= r <= 7
    ensures (day - r) % 7 == 3
  {
    var wd := (day + 4) % 7;
    if wd == 0 then 7 else wd
  }

  /** `setUTCDate(getUTCDate() + 4 - dayNum)`: the Thursday of the Monday-to-Sunday week of `day`. */
  function ThursdayOf(day: int): (t: int)
    ensures day - 3 <= t <= day + 3
    ensures t == 7 * ((day + 3) / 7)
  {
    day + 4 - IsoDayNum(day)
  }

  /** The Monday that starts the week of `day`. */
  function MondayOf(day: int): int
  {
    ThursdayOf(day) - 3
  }

  /** A week: the ISO year it belongs to and its number in that year. */
  datatype WeekKey = WeekKey(year: int, week: nat)

  /** `getWeekKey` before formatting. */
  function KeyOf(day: int): (k: WeekKey)
    ensures 1 <= k.week <= 53
  {
    var t := ThursdayOf(day);
    var y := YearOf(t);
    JanFirstStep(y);
    WeekKey(y, CeilDiv(t - JanFirst(y) + 1, 7))
  }

  /** Two days have the same key exactly when they lie in the same Monday-to-Sunday week. */
  lemma KeyOfSameWeek(a: int, b: int)
    ensures KeyOf(a) == KeyOf(b) <==> MondayOf(a) == MondayOf(b)
  {
    if KeyOf(a) == KeyOf(b) {
      SameKeySameThursday(a, b);
    }
  }

  /** Equal keys come from equal Thursdays: the week number tells Thursdays of one year apart. */
  lemma SameKeySameThursday(a: int, b: int)
    requires KeyOf(a) == KeyOf(b)
    ensures ThursdayOf(a) == ThursdayOf(b)
  {
    var ta, tb := ThursdayOf(a), ThursdayOf(b);
    var y := YearOf(ta);
    var j := JanFirst(y);
    assert KeyOf(a).week == CeilDiv(ta - j + 1, 7);
    assert KeyOf(b).week == CeilDiv(tb - j + 1, 7);
    SameWeekNumber(ta, tb, j, (a + 3) / 7, (b + 3) / 7);
  }

  /** Two Thursdays on or after the same New Year with the same week number are the same day. */
  lemma SameWeekNumber(ta: int, tb: int, j: int, qa: int, qb: int)
    requires ta == 7 * qa && tb == 7 * qb && j <= ta && j <= tb
    requires CeilDiv(ta - j + 1, 7) == CeilDiv(tb - j + 1, 7)
    ensures ta == tb
  {
    assert (ta - j + 1) - (tb - j + 1) == 7 * (qa - qb);
    SameBlock(ta - j + 1, tb - j + 1, qa - qb);
  }

  /** Two positive numbers a multiple of 7 apart with the same `ceil(x / 7)` are equal. */
  lemma SameBlock(x: int, z: int, d: int)
    requires x >= 1 && z >= 1 && CeilDiv(x, 7) == CeilDiv(z, 7) && x - z == 7 * d
    ensures d == 0
  {
    var r := CeilDiv(x, 7);
    assert (r - 1) * 7 < x <= r * 7;
    assert (r - 1) * 7 < z <= r * 7;
  }

  /** Keys follow the calendar: a later day never has an earlier (year, week). */
  lemma KeyOfMonotone(a: int, b: int)
    requires a <= b
    ensures ChronoLe(KeyOf(a), KeyOf(b))
  {
    var ta, tb := ThursdayOf(a), ThursdayOf(b);
    assert (a + 3) / 7 <= (b + 3) / 7;
    assert ta <= tb;
    YearOfMonotone(ta, tb);
  }

  /** 4 January always lies in week 1 of its own year. */
  lemma FourthOfJanuaryIsWeekOne(y: int)
    ensures KeyOf(JanFirst(y) + 3) == WeekKey(y, 1)
  {
    var t := ThursdayOf(JanFirst(y) + 3);
    JanFirstStep(y);
    YearOfUnique(t, y);
  }

  /** 28 December always lies in the last week of its own year. */
  lemma TwentyEighthOfDecemberInSameYear(y: int)
    ensures KeyOf(JanFirst(y + 1) - 4).year == y
    ensures forall d :: KeyOf(d).year == y ==> KeyOf(d).week <= KeyOf(JanFirst(y + 1) - 4).week
  {
    DecemberYear(y);
    forall d | KeyOf(d).year == y
      ensures KeyOf(d).week <= KeyOf(JanFirst(y + 1) - 4).week
    {
      WeekAtMostLast(y, d);
    }
  }

  lemma DecemberYear(y: int)
    ensures KeyOf(JanFirst(y + 1) - 4).year == y
  {
    var t := ThursdayOf(JanFirst(y + 1) - 4);
    JanFirstStep(y);
    YearOfUnique(t, y);
  }

  /** No week of year `y` comes after the week of its 28 December. */
  lemma WeekAtMostLast(y: int, d: int)
    requires KeyOf(d).year == y
    ensures KeyOf(d).week <= KeyOf(JanFirst(y + 1) - 4).week
  {
    DecemberYear(y);
    var dec := JanFirst(y + 1) - 4;
    KeyOfParts(d);
    KeyOfParts(dec);
    WeekBound(ThursdayOf(d), ThursdayOf(dec), (d + 3) / 7, JanFirst(y), JanFirst(y + 1));
  }

  /** `getWeekKey` spelled out: the year of the Thursday, and the Thursday's week in it. */
  lemma KeyOfParts(day: int)
    ensures KeyOf(day).year == YearOf(ThursdayOf(day))
    ensures KeyOf(day).week == CeilDiv(ThursdayOf(day) - JanFirst(YearOf(ThursdayOf(day))) + 1, 7)
  {
  }

  /** A Thursday of a year is not after the Thursday of the week of the year's last 28 December. */
  lemma WeekBound(t: int, last: int, q: int, j0: int, j1: int)
    requires t == 7 * q && j0 <= t < j1 && j0 <= last
    requires last == 7 * ((j1 - 4 + 3) / 7)
    ensures CeilDiv(t - j0 + 1, 7) <= CeilDiv(last - j0 + 1, 7)
  {
    CeilDivMono(t - j0 + 1, last - j0 + 1);
  }

  lemma CeilDivMono(a: nat, c: nat)
    requires a <= c
    ensures CeilDiv(a, 7) <= CeilDiv(c, 7)
  {
  }

  /** 1 January 2021 (a Friday) is in week 53 of 2020; 30 December 2024 (a Monday) in week 1 of 2025. */
  lemma YearBoundaryExamples()
    ensures KeyOf(18628) == WeekKey(2020, 53)
    ensures KeyOf(20087) == WeekKey(2025, 1)
  {
    assert ThursdayOf(18628) == 18627;
    YearOfUnique(18627, 2020);
    assert ThursdayOf(20087) == 20090;
    YearOfUnique(20090, 2025);
  }

  /** Chronological order of weeks: by year, then by week number. */
  predicate ChronoLe(a: WeekKey, b: WeekKey)
  {
    a.year < b.year || (a.year == b.year && a.week <= b.week)
  }

  function Digit(n: nat): (c: char)
    requires n < 10
  {
    (n + '0' as int) as char
  }

  /** The number a text of decimal digits stands for. */
  function DecValue(s: string): int
  {
    if s == [] then 0 else 10 * DecValue(s[..|s| - 1]) + (s[|s| - 1] as int - '0' as int)
  }

  predicate IsDigit(c: char)
  {
    '0' <= c <= '9'
  }

  /** Decimal text of a natural number, no leading zeros. */
  function NatToString(n: nat): (s: string)
    ensures |s| >= 1
    ensures forall i :: 0 <= i < |s| ==> IsDigit(s[i])
    ensures n >= 10 ==> |s| >= 2
    ensures DecValue(s) == n
    ensures n >= 1 ==> s[0] != '0'
  {
    if n < 10 then
      assert [Digit(n)][..0] == [];
      [Digit(n)]
    else
      var init := NatToString(n / 10);
      assert (init + [Digit(n % 10)])[..|init|] == init;
      init + [Digit(n % 10)]
  }

  /** Decimal text of an integer, with a leading '-' when negative (JavaScript's `String(n)`). */
  function IntToString(n: int): (s: string)
    ensures |s| >= 1
    ensures forall i :: 0 <= i < |s| ==> s[i] != 'W'
    ensures n >= 0 ==> IsDigit(s[0])
    ensures n < 0 ==> s[0] == '-'
    ensures n >= 0 ==> DecValue(s) == n
    ensures n < 0 ==> DecValue(s[1..]) == -n
  {
    if n < 0 then "-" + NatToString(-n) else NatToString(n)
  }

  /** The key text `${year}-W${weekNo}`. */
  function KeyString(k: WeekKey): string
  {
    IntToString(k.year) + "-W" + NatToString(k.week)
  }

  lemma {:induction false} NatToStringInjective(n: nat, m: nat)
    requires NatToString(n) == NatToString(m)
    ensures n == m
  {
    var s := NatToString(n);
    if n < 10 && m < 10 {
      assert Digit(n) == Digit(m);
    } else if n >= 10 && m >= 10 {
      assert s[..|s| - 1] == NatToString(n / 10);
      assert NatToString(m)[..|s| - 1] == NatToString(m / 10);
      NatToStringInjective(n / 10, m / 10);
      assert Digit(n % 10) == Digit(m % 10);
    }
  }

  lemma IntToStringInjective(n: int, m: int)
    requires IntToString(n) == IntToString(m)
    ensures n == m
  {
    if n < 0 && m < 0 {
      assert IntToString(n)[1..] == NatToString(-n);
      assert IntToString(m)[1..] == NatToString(-m);
      NatToStringInjective(-n, -m);
    } else if n >= 0 && m >= 0 {
      NatToStringInjective(n, m);
    }
  }

  /**
   * Distinct weeks have distinct texts, so bucketing by the text (as the source
   * does) is bucketing by the week.
   */
  lemma KeyStringInjective(a: WeekKey, b: WeekKey)
    requires KeyString(a) == KeyString(b)
    ensures a == b
  {
    var ya, yb := IntToString(a.year), IntToString(b.year);
    var s, t := KeyString(a), KeyString(b);
    assert s[|ya| + 1] == 'W' && s[|ya|] == '-';
    assert t[|yb| + 1] == 'W' && t[|yb|] == '-';
    if |ya| < |yb| {
      assert false;
    } else if |yb| < |ya| {
      assert false;
    }
    assert s[..|ya|] == ya && t[..|yb|] == yb;
    IntToStringInjective(a.year, b.year);
    assert s[|ya| + 2..] == NatToString(a.week);
    assert t[|yb| + 2..] == NatToString(b.week);
    NatToStringInjective(a.week, b.week);
  }

  /** JavaScript's default string order: by code unit, a proper prefix first. */
  predicate StrLe(a: string, b: string)
  {
    if a == [] then true
    else if b == [] then false
    else if a[0] != b[0] then a[0] < b[0]
    else StrLe(a[1..], b[1..])
  }

  lemma {:induction false} StrLeTotal(a: string, b: string)
    ensures StrLe(a, b) || StrLe(b, a)
  {
    if a != [] && b != [] && a[0] == b[0] {
      StrLeTotal(a[1..], b[1..]);
    }
  }

  /** The order `Object.keys(weeklyCosts).sort()` puts the week keys in. */
  predicate TextLe(a: WeekKey, b: WeekKey)
  {
    StrLe(KeyString(a), KeyString(b))
  }
}

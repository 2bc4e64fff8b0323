/** Calendar days as (year, month, day) triples in the proleptic Gregorian
    calendar, standing for Foundation's `Date` compared by calendar day. */
module Dates {
  import opened Wrappers
  import opened Strings

  datatype Day = Day(year: int, month: int, day: int)

  predicate IsLeapYear(year: int) {
    (year % 4 == 0 && year % 100 != 0) || year % 400 == 0
  }

  function DaysInMonth(year: int, month: int): (n: int)
    requires 1 <= month <= 12
    ensures 28 <= n <= 31
  {
    if month == 2 then (if IsLeapYear(year) then 29 else 28)
    else if month == 4 || month == 6 || month == 9 || month == 11 then 30
    else 31
  }

  /** A triple that names an actual calendar day. */
  predicate ValidDay(d: Day) {
    1 <= d.month <= 12 && 1 <= d.day <= DaysInMonth(d.year, d.month)
  }

  function NextDay(d: Day): (r: Day)
    requires ValidDay(d)
    ensures ValidDay(r)
  {
    if d.day < DaysInMonth(d.year, d.month) then d.(day := d.day + 1)
    else if d.month < 12 then Day(d.year, d.month + 1, 1)
    else Day(d.year + 1, 1, 1)
  }

  /** `Calendar.date(byAdding: .day, value: -1, to:)` on a calendar day. */
  function PreviousDay(d: Day): (r: Day)
    requires ValidDay(d)
    ensures ValidDay(r)
  {
    if d.day > 1 then d.(day := d.day - 1)
    else if d.month > 1 then Day(d.year, d.month - 1, DaysInMonth(d.year, d.month - 1))
    else Day(d.year - 1, 12, 31)
  }

  /** Going back one day and forward one day are inverse to each other. */
  lemma PreviousNextInverse(d: Day)
    requires ValidDay(d)
    ensures NextDay(PreviousDay(d)) == d
    ensures PreviousDay(NextDay(d)) == d
  {
  }

  /** `Calendar.date(from:)` on year, month and an arbitrary day number: a day
      number outside the month rolls over into the following or preceding
      months, as the calendar's lenient component arithmetic does. */
  function Normalize(year: int, month: int, day: int): (r: Day)
    requires 1 <= month <= 12
    ensures ValidDay(r)
    decreases if day < 1 then 100 - day else day
  {
    if day < 1 then
      var y := if month == 1 then year - 1 else year;
      var m := if month == 1 then 12 else month - 1;
      Normalize(y, m, day + DaysInMonth(y, m))
    else if day > DaysInMonth(year, month) then
      var y := if month == 12 then year + 1 else year;
      var m := if month == 12 then 1 else month + 1;
      Normalize(y, m, day - DaysInMonth(year, month))
    else
      Day(year, month, day)
  }

  /** Rolling over moves one day at a time: day number `n + 1` of a month is
      the day after day number `n`, for any `n`. */
  lemma {:induction false} NormalizeSucc(year: int, month: int, n: int)
    requires 1 <= month <= 12
    ensures Normalize(year, month, n + 1) == NextDay(Normalize(year, month, n))
    decreases if n < 1 then 100 - n else n
  {
    var dim := DaysInMonth(year, month);
    if n < 0 {
      var y := if month == 1 then year - 1 else year;
      var m := if month == 1 then 12 else month - 1;
      NormalizeSucc(y, m, n + DaysInMonth(y, m));
    } else if n == 0 {
      var y := if month == 1 then year - 1 else year;
      var m := if month == 1 then 12 else month - 1;
      assert Normalize(year, month, 0) == Day(y, m, DaysInMonth(y, m));
    } else if n >= dim {
      var y := if month == 12 then year + 1 else year;
      var m := if month == 12 then 1 else month + 1;
      if n > dim {
        NormalizeSucc(y, m, n - dim);
      } else {
        assert Normalize(y, m, 1) == Day(y, m, 1);
      }
    }
  }

  /** The `yyyy-MM-dd` rendering of a day with the `en_US_POSIX` locale: the
      year with at least four digits, month and day with two. */
  function FormatDate(d: Day): (r: string)
    requires ValidDay(d)
    ensures 0 <= d.year < 10000 ==>
              |r| == 10 && forall k :: 0 <= k < 10 ==> (if k == 4 || k == 7 then r[k] == '-' else IsDigit(r[k]))
  {
    var year := if 0 <= d.year < 10000 then Fixed(d.year, 4)
                else if d.year >= 10000 then NatToString(d.year)
                else "-" + NatToString(-d.year);
    year + "-" + Fixed(d.month, 2) + "-" + Fixed(d.day, 2)
  }

  /** A date in the complete extended calendar format `YYYY-MM-DD` of
      section 4.1.2.2 of ISO 8601:2004, naming an actual day; anything else
      is rejected. */
  function ParseIsoDate(s: string): (r: Option<Day>)
    ensures r.Some? ==> ValidDay(r.value) && 0 <= r.value.year < 10000
  {
    if |s| == 10 && s[4] == '-' && s[7] == '-'
       && AllDigits(s[..4]) && AllDigits(s[5..7]) && AllDigits(s[8..])
    then
      DigitsValueBound(s[..4]);
      var d := Day(DigitsValue(s[..4]), DigitsValue(s[5..7]), DigitsValue(s[8..]));
      if ValidDay(d) then Some(d) else None
    else None
  }

  /** Parsing a formatted day gives the day back: the two formats agree. */
  lemma FormatParseRoundTrip(d: Day)
    requires ValidDay(d) && 0 <= d.year < 10000
    ensures ParseIsoDate(FormatDate(d)) == Some(d)
  {
    var y, m, dd := Fixed(d.year, 4), Fixed(d.month, 2), Fixed(d.day, 2);
    var s := FormatDate(d);
    assert s == y + "-" + m + "-" + dd;
    assert s[..4] == y && s[5..7] == m && s[8..] == dd;
    FixedValue(d.year, 4);
    FixedValue(d.month, 2);
    FixedValue(d.day, 2);
  }
}

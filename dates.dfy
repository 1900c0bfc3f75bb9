/** Python `datetime.datetime` values as the core uses them: compared with
    `max`, initialised to `datetime.min`, and printed with the format
    `%Y-%m-%d %H:%M:%S.%f` (cdls/db.py `_date_to_string`). */
module Dates {
  import opened Text
  import opened Outcomes

  datatype DateTimeFields = DateTimeFields(
    year: int, month: int, day: int,
    hour: int, minute: int, second: int, microsecond: int)

  predicate IsLeapYear(y: int) {
    y % 4 == 0 && (y % 100 != 0 || y % 400 == 0)
  }

  function DaysInMonth(y: int, m: int): int {
    if m == 2 then (if IsLeapYear(y) then 29 else 28)
    else if m == 4 || m == 6 || m == 9 || m == 11 then 30
    else 31
  }

  /** The ranges a `datetime` enforces on its fields (MINYEAR 1, MAXYEAR 9999). */
  predicate ValidFields(d: DateTimeFields) {
    && 1 <= d.year <= 9999
    && 1 <= d.month <= 12
    && 1 <= d.day <= DaysInMonth(d.year, d.month)
    && 0 <= d.hour < 24
    && 0 <= d.minute < 60
    && 0 <= d.second < 60
    && 0 <= d.microsecond < 1000000
  }

  /** A naive `datetime`: a point in time broken into integer fields. */
  type DateTime = d: DateTimeFields | ValidFields(d) witness DateTimeFields(1, 1, 1, 0, 0, 0, 0)

  /** `datetime.min`. */
  const MinDate: DateTime := DateTimeFields(1, 1, 1, 0, 0, 0, 0)

  /** `a < b` on datetimes: chronological, i.e. lexicographic on the fields. */
  predicate Before(a: DateTime, b: DateTime) {
    if a.year != b.year then a.year < b.year
    else if a.month != b.month then a.month < b.month
    else if a.day != b.day then a.day < b.day
    else if a.hour != b.hour then a.hour < b.hour
    else if a.minute != b.minute then a.minute < b.minute
    else if a.second != b.second then a.second < b.second
    else a.microsecond < b.microsecond
  }

  predicate NotAfter(a: DateTime, b: DateTime) {
    a == b || Before(a, b)
  }

  lemma BeforeTotal(a: DateTime, b: DateTime)
    ensures a == b || Before(a, b) || Before(b, a)
    ensures !(Before(a, b) && Before(b, a))
    ensures !Before(a, a)
  {
  }

  lemma BeforeTransitive(a: DateTime, b: DateTime, c: DateTime)
    requires Before(a, b) && Before(b, c)
    ensures Before(a, c)
  {
  }

  /** `datetime.min` is not after any datetime. */
  lemma MinDateIsLeast(d: DateTime)
    ensures NotAfter(MinDate, d)
  {
  }

  /** Python's `max(new, previous)` on two datetimes: `previous` only when it
      is strictly later, otherwise `new`. */
  function Later(newDate: DateTime, previous: DateTime): (r: DateTime)
    ensures r == newDate || r == previous
    ensures NotAfter(newDate, r) && NotAfter(previous, r)
  {
    if Before(newDate, previous) then previous else newDate
  }

  /** The value of a `latest_record` that starts at `init` and is then replaced
      by `max(d, latest_record)` for each `d` of `updates` in turn. */
  function LatestAfter(init: DateTime, updates: seq<DateTime>): DateTime
    decreases |updates|
  {
    if updates == [] then init else LatestAfter(Later(updates[0], init), updates[1..])
  }

  /** After any sequence of updates the latest-record date is an upper bound of
      the initial value and of every supplied date, and is one of them. */
  lemma {:induction false} LatestAfterIsMaximum(init: DateTime, updates: seq<DateTime>)
    decreases |updates|
    ensures NotAfter(init, LatestAfter(init, updates))
    ensures forall i :: 0 <= i < |updates| ==> NotAfter(updates[i], LatestAfter(init, updates))
    ensures LatestAfter(init, updates) == init || LatestAfter(init, updates) in updates
  {
    if updates != [] {
      var next := Later(updates[0], init);
      LatestAfterIsMaximum(next, updates[1..]);
      var r := LatestAfter(init, updates);
      assert r == LatestAfter(next, updates[1..]);
      if Before(next, r) {
        if init != next { BeforeTransitive(init, next, r); }
        if updates[0] != next { BeforeTransitive(updates[0], next, r); }
      }
      forall i | 1 <= i < |updates|
        ensures NotAfter(updates[i], r)
      {
        assert updates[i] == updates[1..][i - 1];
      }
      assert r == next || r in updates[1..];
    }
  }

  /** Whatever the order of the updates, the latest-record date ends the same:
      two update sequences with the same dates lead to the same value. */
  lemma LatestAfterOrderIndependent(init: DateTime, u: seq<DateTime>, v: seq<DateTime>)
    requires multiset(u) == multiset(v)
    ensures LatestAfter(init, u) == LatestAfter(init, v)
  {
    var x, y := LatestAfter(init, u), LatestAfter(init, v);
    LatestAfterIsMaximum(init, u);
    LatestAfterIsMaximum(init, v);
    assert forall d :: d in u <==> d in v by {
      forall d ensures d in u <==> d in v {
        assert d in u <==> d in multiset(u);
        assert d in v <==> d in multiset(v);
      }
    }
    assert NotAfter(x, y) by {
      if x != init {
        var i :| 0 <= i < |v| && v[i] == x;
      }
    }
    assert NotAfter(y, x) by {
      if y != init {
        var i :| 0 <= i < |u| && u[i] == y;
      }
    }
    BeforeTotal(x, y);
  }

  /** `a`, then the separator `c`, then `b`. */
  function Glue(a: string, c: char, b: string): string {
    a + ([c] + b)
  }

  lemma GlueParts(a: string, c: char, b: string)
    ensures var g := Glue(a, c, b);
      |g| == |a| + 1 + |b| && g[..|a|] == a && g[|a|] == c && g[|a| + 1..] == b
  {
  }

  /** The `strftime` directives the core's formats use. */
  predicate IsDirective(c: char) {
    c == 'Y' || c == 'm' || c == 'd' || c == 'H' || c == 'M' || c == 'S' || c == 'f'
  }

  /** What directive `%c` prints: its field, zero-padded to the field's width. */
  function FieldText(c: char, d: DateTime): string
    requires IsDirective(c)
  {
    if c == 'Y' then ZeroPad(d.year, 4)
    else if c == 'm' then ZeroPad(d.month, 2)
    else if c == 'd' then ZeroPad(d.day, 2)
    else if c == 'H' then ZeroPad(d.hour, 2)
    else if c == 'M' then ZeroPad(d.minute, 2)
    else if c == 'S' then ZeroPad(d.second, 2)
    else ZeroPad(d.microsecond, 6)
  }

  /** `d.strftime(fmt)`: each directive replaced by its field, every other
      character printed as it is. */
  function Strftime(fmt: string, d: DateTime): string

  {
    if fmt == [] then []
    else if |fmt| >= 2 && fmt[0] == '%' && IsDirective(fmt[1]) then FieldText(fmt[1], d) + Strftime(fmt[2..], d)
    else [fmt[0]] + Strftime(fmt[1..], d)
  }

  lemma StrftimeField(c: char, rest: string, d: DateTime)
    requires IsDirective(c)
    ensures Strftime(['%', c] + rest, d) == FieldText(c, d) + Strftime(rest, d)
  {
    var f := ['%', c] + rest;
    assert f[0] == '%' && f[1] == c && f[2..] == rest;
  }

  lemma StrftimeChar(c: char, rest: string, d: DateTime)
    requires c != '%'
    ensures Strftime([c] + rest, d) == [c] + Strftime(rest, d)
  {
    var f := [c] + rest;
    assert f[0] == c && f[1..] == rest;
  }

  /** The format of `_date_to_string` in cdls/db.py. */
  const DateFormat := "%Y-%m-%d %H:%M:%S.%f"

  /** `date.strftime(DateFormat)`. */
  function DateToString(d: DateTime): string {
    Strftime(DateFormat, d)
  }

  /** The fields of a date with the separators of `DateFormat` between them. */
  function DateFieldsText(d: DateTime): string {
    Glue(ZeroPad(d.year, 4), '-', Glue(ZeroPad(d.month, 2), '-', Glue(ZeroPad(d.day, 2), ' ',
      Glue(ZeroPad(d.hour, 2), ':', Glue(ZeroPad(d.minute, 2), ':',
      Glue(ZeroPad(d.second, 2), '.', ZeroPad(d.microsecond, 6)))))))
  }

  /** The time half of `DateFormat` prints the hour, minute, second and
      microsecond fields with its separators between them. */
  lemma StrftimeTime(d: DateTime)
    ensures Strftime("%H:%M:%S.%f", d)
            == Glue(ZeroPad(d.hour, 2), ':', Glue(ZeroPad(d.minute, 2), ':', Glue(ZeroPad(d.second, 2), '.', ZeroPad(d.microsecond, 6))))
  {
    var f7 := ['%', 'f'] + [];
    var f6 := ['.'] + f7;
    var f5 := ['%', 'S'] + f6;
    var f4 := [':'] + f5;
    var f3 := ['%', 'M'] + f4;
    var f2 := [':'] + f3;
    var f1 := ['%', 'H'] + f2;
    assert "%H:%M:%S.%f" == f1;
    var us := ZeroPad(d.microsecond, 6);
    StrftimeField('f', [], d);
    assert us + [] == us;
    var t5 := Glue(ZeroPad(d.second, 2), '.', us);
    StrftimeChar('.', f7, d);
    StrftimeField('S', f6, d);
    assert Strftime(f5, d) == t5;
    var t4 := Glue(ZeroPad(d.minute, 2), ':', t5);
    StrftimeChar(':', f5, d);
    StrftimeField('M', f4, d);
    assert Strftime(f3, d) == t4;
    StrftimeChar(':', f3, d);
    StrftimeField('H', f2, d);
  }

  /** `DateFormat` prints the year, month, day, hour, minute, second and
      microsecond fields, in that order, with its separators between them. */
  lemma DateToStringFields(d: DateTime)
    ensures DateToString(d) == DateFieldsText(d)
  {
    var f1 := "%H:%M:%S.%f";
    var e3 := [' '] + f1;
    var e2 := ['%', 'd'] + e3;
    var e1 := ['-'] + e2;
    var e0 := ['%', 'm'] + e1;
    var g1 := ['-'] + e0;
    var g0 := ['%', 'Y'] + g1;
    assert DateFormat == g0;
    var t3 := Glue(ZeroPad(d.hour, 2), ':', Glue(ZeroPad(d.minute, 2), ':', Glue(ZeroPad(d.second, 2), '.', ZeroPad(d.microsecond, 6))));
    StrftimeTime(d);
    var t2 := Glue(ZeroPad(d.day, 2), ' ', t3);
    StrftimeChar(' ', f1, d);
    StrftimeField('d', e3, d);
    assert Strftime(e2, d) == t2;
    var t1 := Glue(ZeroPad(d.month, 2), '-', t2);
    StrftimeChar('-', e2, d);
    StrftimeField('m', e1, d);
    assert Strftime(e0, d) == t1;
    StrftimeChar('-', e0, d);
    StrftimeField('Y', g1, d);
  }

  /** The positions of the separators in a formatted date. */
  predicate WellFormedDateText(s: string) {
    && |s| == 26
    && s[4] == '-' && s[7] == '-' && s[10] == ' '
    && s[13] == ':' && s[16] == ':' && s[19] == '.'
  }

  /** Reads a string in the format `DateToString` prints back into a datetime;
      `None` when the text is not in that format or names no valid datetime. */
  function ParseDateText(s: string): (r: Option<DateTime>)
    ensures r.Some? ==> WellFormedDateText(s)
  {
    if !WellFormedDateText(s) then None
    else
      var f := DateTimeFields(
        ParseDigits(s[0..4]), ParseDigits(s[5..7]), ParseDigits(s[8..10]),
        ParseDigits(s[11..13]), ParseDigits(s[14..16]), ParseDigits(s[17..19]),
        ParseDigits(s[20..26]));
      if ValidFields(f) then Some(f) else None
  }

  /** Where each field sits in a formatted date. */
  lemma DateTextFields(d: DateTime)
    ensures var s := DateToString(d);
      && |s| == 26
      && s[0..4] == ZeroPad(d.year, 4) && s[5..7] == ZeroPad(d.month, 2)
      && s[8..10] == ZeroPad(d.day, 2) && s[11..13] == ZeroPad(d.hour, 2)
      && s[14..16] == ZeroPad(d.minute, 2) && s[17..19] == ZeroPad(d.second, 2)
      && s[20..26] == ZeroPad(d.microsecond, 6)
      && WellFormedDateText(s)
  {
    var y, mo, da := ZeroPad(d.year, 4), ZeroPad(d.month, 2), ZeroPad(d.day, 2);
    var h, mi, se := ZeroPad(d.hour, 2), ZeroPad(d.minute, 2), ZeroPad(d.second, 2);
    var us := ZeroPad(d.microsecond, 6);
    var t5 := Glue(se, '.', us);
    var t4 := Glue(mi, ':', t5);
    var t3 := Glue(h, ':', t4);
    var t2 := Glue(da, ' ', t3);
    var t1 := Glue(mo, '-', t2);
    var s := Glue(y, '-', t1);
    GlueParts(se, '.', us);
    GlueParts(mi, ':', t5);
    GlueParts(h, ':', t4);
    GlueParts(da, ' ', t3);
    GlueParts(mo, '-', t2);
    GlueParts(y, '-', t1);
    DateToStringFields(d);
    assert s == DateToString(d);
    assert s[5..7] == t1[..2];
    assert s[8..10] == t2[..2];
    assert s[11..13] == t3[..2];
    assert s[14..16] == t4[..2];
    assert s[17..19] == t5[..2];
    assert s[20..26] == us;
  }

  /** Formatting a datetime and reading the text back gives the same datetime. */
  lemma DateTextRoundTrip(d: DateTime)
    ensures ParseDateText(DateToString(d)) == Some(d)
  {
    DateTextFields(d);
    ParseZeroPad(d.year, 4);
    ParseZeroPad(d.month, 2);
    ParseZeroPad(d.day, 2);
    ParseZeroPad(d.hour, 2);
    ParseZeroPad(d.minute, 2);
    ParseZeroPad(d.second, 2);
    ParseZeroPad(d.microsecond, 6);
  }

  /** Distinct datetimes are stored as distinct `record_date` strings. */
  lemma DateToStringInjective(a: DateTime, b: DateTime)
    requires DateToString(a) == DateToString(b)
    ensures a == b
  {
    DateTextRoundTrip(a);
    DateTextRoundTrip(b);
  }
}

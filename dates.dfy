/**
 * Dates are Python's `date.toordinal()` numbers: day 1 is 0001-01-01 and
 * consecutive days are consecutive integers, so `d + timedelta(n)` is `d + n`.
 */
module Dates {
  import opened Wrappers
  import opened Text

  /** `date.weekday()`: Monday is 0 and Sunday is 6 (0001-01-01 was a Monday). */
  function Weekday(d: int): (r: int)
    ensures 0 <= r < 7
  {
    (d + 6) % 7
  }

  /** `d - timedelta(d.weekday())`: the Monday of `d`'s week. */
  function Monday(d: int): (r: int)
    ensures Weekday(r) == 0
    ensures r <= d < r + 7
  {
    d - Weekday(d)
  }

  /** A day lies in the week starting on Monday `m` exactly when `m` is its Monday. */
  lemma MondayOf(m: int, d: int)
    requires Weekday(m) == 0
    ensures m <= d < m + 7 <==> Monday(d) == m
  {
    if m <= d < m + 7 {
      assert (d + 6) % 7 == d - m by {
        assert d + 6 == (m + 6) + (d - m);
      }
    }
  }

  lemma WeekdayNext(d: int)
    ensures Weekday(d + 1) == (Weekday(d) + 1) % 7
    ensures Weekday(d + 7) == Weekday(d)
  {
  }

  // ----- the proleptic Gregorian calendar ----------------------------------

  predicate IsLeap(y: int) { y % 4 == 0 && (y % 100 != 0 || y % 400 == 0) }

  function DaysInMonth(y: int, m: int): (n: int)
    requires 1 <= m <= 12
    ensures 28 <= n <= 31
  {
    if m == 2 then (if IsLeap(y) then 29 else 28)
    else if m == 4 || m == 6 || m == 9 || m == 11 then 30
    else 31
  }

  function DaysBeforeMonth(y: int, m: int): int
    requires 1 <= m <= 12
  {
    if m == 1 then 0 else DaysBeforeMonth(y, m - 1) + DaysInMonth(y, m - 1)
  }

  function DaysBeforeYear(y: int): int
    requires y >= 1
  {
    var p := y - 1;
    p * 365 + p / 4 - p / 100 + p / 400
  }

  predicate ValidDate(y: int, m: int, d: int) {
    1 <= y <= 9999 && 1 <= m <= 12 && 1 <= d <= DaysInMonth(y, m)
  }

  /** `date(y, m, d).toordinal()`. */
  function Ordinal(y: int, m: int, d: int): int
    requires ValidDate(y, m, d)
  {
    DaysBeforeYear(y) + DaysBeforeMonth(y, m) + d
  }

  /** 1970-01-01, the day of Unix time 0. */
  const EpochOrdinal: int := 719163

  lemma EpochIsJanuaryFirst1970()
    ensures ValidDate(1970, 1, 1) && Ordinal(1970, 1, 1) == EpochOrdinal
  {
  }

  /** `datetime.fromtimestamp(ts, tz=utc).date()` for whole seconds. */
  function UtcDate(ts: int): (d: int)
    ensures (d - EpochOrdinal) * 86400 <= ts < (d - EpochOrdinal + 1) * 86400
  {
    EpochOrdinal + ts / 86400
  }

  // ----- `datetime.strptime(s, '%Y%m%d').date()` ---------------------------

  function DigitValue(c: char): nat requires IsDigit(c) { c as int - '0' as int }

  /** The number an all-digit string denotes. */
  function DecimalValue(s: string): nat
    requires AllDigits(s)
  {
    if s == [] then 0 else 10 * DecimalValue(s[..|s| - 1]) + DigitValue(s[|s| - 1])
  }

  function Pow10(w: nat): nat { if w == 0 then 1 else 10 * Pow10(w - 1) }

  /** `n` written with exactly `w` digits, zero-padded on the left. */
  function Digits(n: nat, w: nat): (r: string)
    ensures |r| == w && AllDigits(r)
  {
    if w == 0 then [] else Digits(n / 10, w - 1) + [DigitChar(n % 10)]
  }

  lemma {:induction false} DigitsValue(n: nat, w: nat)
    requires n < Pow10(w)
    ensures DecimalValue(Digits(n, w)) == n
  {
    if w > 0 {
      DigitsValue(n / 10, w - 1);
      var r := Digits(n, w);
      assert r[..|r| - 1] == Digits(n / 10, w - 1);
    }
  }

  lemma {:induction false} ValueDigits(s: string)
    requires AllDigits(s)
    ensures DecimalValue(s) < Pow10(|s|)
    ensures Digits(DecimalValue(s), |s|) == s
  {
    if s != [] {
      var p := s[..|s| - 1];
      ValueDigits(p);
      assert s == p + [s[|s| - 1]];
    }
  }

  /** The canonical `YYYYMMDD` spelling of a date. */
  function FormatYmd(y: nat, m: nat, d: nat): (s: string)
    ensures |s| == 8 && AllDigits(s)
  {
    Digits(y, 4) + Digits(m, 2) + Digits(d, 2)
  }

  /*
   * `datetime.strptime(s, '%Y%m%d')` matches `s` from its start against
   *   (\d\d\d\d)(1[0-2]|0[1-9]|[1-9])(3[01]|[12]\d|0[1-9]|[1-9]| [1-9])
   * trying alternatives left to right and backing into `%m` only when `%d`
   * cannot match at all. It raises ValueError when nothing matches, when
   * characters are left over after the match, and when the fields name no
   * real day.
   */

  /** The text of a `%m` field: one or two digits. */
  predicate MonthText(t: string) { 1 <= |t| <= 2 && AllDigits(t) }

  /** The text of a `%d` field: one or two digits, or a blank and a digit. */
  predicate DayText(t: string) {
    (1 <= |t| <= 2 && AllDigits(t)) || (|t| == 2 && t[0] == ' ' && IsDigit(t[1]))
  }

  /** The day a `%d` field names; a leading blank is ignored. */
  function DayValue(t: string): nat
    requires DayText(t)
  {
    if t[0] == ' ' then DigitValue(t[1]) else DecimalValue(t)
  }

  /** The length of the first alternative of `%d` that matches at `j`. */
  function DayLength(s: string, j: nat): (r: Option<nat>)
    requires j <= |s|
    ensures r.Some? ==> j + r.value <= |s| && DayText(s[j..j + r.value])
  {
    if j + 1 < |s| && s[j] == '3' && '0' <= s[j + 1] <= '1' then Some(2)
    else if j + 1 < |s| && '1' <= s[j] <= '2' && IsDigit(s[j + 1]) then Some(2)
    else if j + 1 < |s| && s[j] == '0' && '1' <= s[j + 1] <= '9' then Some(2)
    else if j < |s| && '1' <= s[j] <= '9' then Some(1)
    else if j + 1 < |s| && s[j] == ' ' && '1' <= s[j + 1] <= '9' then Some(2)
    else None
  }

  /** `%m`'s two-character alternatives `1[0-2]|0[1-9]` match after the year. */
  predicate TwoCharMonth(s: string)
    requires 4 <= |s|
  {
    5 < |s| && ((s[4] == '1' && '0' <= s[5] <= '2') || (s[4] == '0' && '1' <= s[5] <= '9'))
  }

  /**
   * The lengths of the `%m` and `%d` fields after the year: a two-character
   * month (`1[0-2]` or `0[1-9]`) when `%d` matches after it, otherwise a
   * one-digit month when `%d` matches after that.
   */
  function FieldLengths(s: string): (r: Option<(nat, nat)>)
    requires 4 <= |s|
    ensures r.Some? ==>
      4 + r.value.0 + r.value.1 <= |s| && MonthText(s[4..4 + r.value.0])
      && DayText(s[4 + r.value.0..4 + r.value.0 + r.value.1])
  {
    if TwoCharMonth(s) && DayLength(s, 6).Some? then Some((2, DayLength(s, 6).value))
    else if 4 < |s| && '1' <= s[4] <= '9' && DayLength(s, 5).Some? then Some((1, DayLength(s, 5).value))
    else None
  }

  /** `datetime.strptime(s, '%Y%m%d').date()`, as an ordinal, or the ValueError it raises. */
  function ParseYmd(s: string): Result<int> {
    if 4 <= |s| && AllDigits(s[..4]) && FieldLengths(s).Some? then
      var a, b := FieldLengths(s).value.0, FieldLengths(s).value.1;
      var y, m, d := DecimalValue(s[..4]), DecimalValue(s[4..4 + a]), DayValue(s[4 + a..4 + a + b]);
      if 4 + a + b == |s| && ValidDate(y, m, d) then Ok(Ordinal(y, m, d)) else Err(BadValue(s))
    else Err(BadValue(s))
  }

  lemma OneDigitValue(t: string)
    requires |t| == 1 && AllDigits(t)
    ensures DecimalValue(t) == DigitValue(t[0])
  {
    assert t[..0] == [];
  }

  lemma TwoDigitValue(t: string)
    requires |t| == 2 && AllDigits(t)
    ensures DecimalValue(t) == 10 * DigitValue(t[0]) + DigitValue(t[1])
  {
    var h := t[..1];
    assert h[0] == t[0];
    OneDigitValue(h);
  }

  /** `%d` reads a day's own text back in full. */
  lemma DayLengthOf(s: string, j: nat, t: string)
    requires j <= |s| && s[j..] == t && DayText(t) && 1 <= DayValue(t) <= 31
    ensures DayLength(s, j) == Some(|t|)
  {
    assert |s| == j + |t| && s[j] == t[0];
    if |t| == 1 {
      OneDigitValue(t);
    } else {
      assert s[j + 1] == t[1];
      if t[0] != ' ' {
        TwoDigitValue(t);
      }
    }
  }

  /** The spelling of a month and a day after the year is read back as those two fields. */
  lemma FieldLengthsOf(s: string, mt: string, dt: string)
    requires |s| == 4 + |mt| + |dt| && s[4..4 + |mt|] == mt && s[4 + |mt|..] == dt
    requires MonthText(mt) && 1 <= DecimalValue(mt) <= 12 && DayText(dt) && 1 <= DayValue(dt) <= 31
    requires !(mt == "1" && |dt| == 2 && '0' <= dt[0] <= '2' && dt[1] != '0')
    ensures FieldLengths(s) == Some((|mt|, |dt|))
  {
    DayLengthOf(s, 4 + |mt|, dt);
    if |mt| == 2 {
      TwoCharMonthOf(s, mt);
    } else {
      OneCharMonthOf(s, mt, dt);
    }
  }

  lemma TwoCharMonthOf(s: string, mt: string)
    requires |mt| == 2 && 4 + |mt| <= |s| && s[4..6] == mt && AllDigits(mt) && 1 <= DecimalValue(mt) <= 12
    ensures TwoCharMonth(s)
  {
    assert s[4] == mt[0] && s[5] == mt[1];
    TwoDigitValue(mt);
  }

  lemma OneCharMonthOf(s: string, mt: string, dt: string)
    requires |mt| == 1 && |s| == 5 + |dt| && s[4..5] == mt && s[5..] == dt
    requires AllDigits(mt) && 1 <= DecimalValue(mt) && DayText(dt)
    requires !(mt == "1" && |dt| == 2 && '0' <= dt[0] <= '2' && dt[1] != '0')
    ensures '1' <= s[4] <= '9' && DecimalValue(mt) == DigitValue(s[4])
    ensures !TwoCharMonth(s) || DayLength(s, 6).None?
  {
    assert s[4] == mt[0];
    OneDigitValue(mt);
    if TwoCharMonth(s) {
      assert s[5] == dt[0];
      if |dt| == 2 {
        assert s[6] == dt[1];
      }
    }
  }

  /**
   * Every spelling of a valid date with a one- or two-digit month and a one-
   * or two-digit (or blank-led) day parses to that date, except a one-digit
   * January followed by a two-character day that `%m` reads as October to
   * December (see `ParseYmdJanuaryRead`).
   */
  lemma ParseSpelled(y: nat, m: nat, d: nat, mt: string, dt: string)
    requires ValidDate(y, m, d)
    requires MonthText(mt) && DecimalValue(mt) == m && DayText(dt) && DayValue(dt) == d
    requires !(mt == "1" && |dt| == 2 && '0' <= dt[0] <= '2' && dt[1] != '0')
    ensures ParseYmd(Digits(y, 4) + mt + dt) == Ok(Ordinal(y, m, d))
  {
    var s := Digits(y, 4) + mt + dt;
    var k := 4 + |mt|;
    assert s[..4] == Digits(y, 4) && s[4..k] == mt && s[k..] == dt && s[k..k + |dt|] == dt;
    DigitsValue(y, 4);
    FieldLengthsOf(s, mt, dt);
  }

  /** The spelling the exception above names: `%m` takes `1` and the day's first digit. */
  lemma ParseYmdJanuaryRead(y: nat, dt: string)
    requires 1 <= y <= 9999 && |dt| == 2 && '0' <= dt[0] <= '2' && '1' <= dt[1] <= '9'
    ensures ValidDate(y, 10 + DigitValue(dt[0]), DigitValue(dt[1]))
    ensures ParseYmd(Digits(y, 4) + "1" + dt) == Ok(Ordinal(y, 10 + DigitValue(dt[0]), DigitValue(dt[1])))
  {
    var s := Digits(y, 4) + "1" + dt;
    assert s[..4] == Digits(y, 4) && s[4..6] == ['1', dt[0]] && s[6..] == [dt[1]] && s[6..7] == [dt[1]];
    assert TwoCharMonth(s);
    DigitsValue(y, 4);
    OneDigitValue([dt[1]]);
    DayLengthOf(s, 6, [dt[1]]);
    TwoDigitValue(s[4..6]);
  }

  /** Every valid date survives formatting and parsing. */
  lemma ParseFormatYmd(y: nat, m: nat, d: nat)
    requires ValidDate(y, m, d)
    ensures ParseYmd(FormatYmd(y, m, d)) == Ok(Ordinal(y, m, d))
  {
    DigitsValue(m, 2);
    DigitsValue(d, 2);
    ParseSpelled(y, m, d, Digits(m, 2), Digits(d, 2));
  }

  /**
   * And whatever parses spells its date: four digits of the year, then a
   * `%m` text for the month and a `%d` text for the day, nothing more.
   */
  lemma ParseYmdSpells(s: string) returns (y: nat, m: nat, d: nat, k: nat)
    requires ParseYmd(s).Ok?
    ensures ValidDate(y, m, d) && ParseYmd(s) == Ok(Ordinal(y, m, d))
    ensures 4 < k < |s| && s[..4] == Digits(y, 4)
    ensures MonthText(s[4..k]) && DecimalValue(s[4..k]) == m
    ensures DayText(s[k..]) && DayValue(s[k..]) == d
  {
    var a, b := FieldLengths(s).value.0, FieldLengths(s).value.1;
    k := 4 + a;
    y, m, d := DecimalValue(s[..4]), DecimalValue(s[4..k]), DayValue(s[k..k + b]);
    assert s[k..] == s[k..k + b];
    ValueDigits(s[..4]);
  }

  lemma Year2017()
    ensures Digits(2017, 4) == "2017"
  {
  }

  /** `201737` is 2017-03-07: a one-digit month and a one-digit day. */
  lemma ParseYmdOneDigitFields()
    ensures ParseYmd("201737") == Ok(Ordinal(2017, 3, 7))
  {
    Year2017();
    OneDigitValue("3");
    OneDigitValue("7");
    ParseSpelled(2017, 3, 7, "3", "7");
    assert "2017" + "3" + "7" == "201737";
  }

  /** `2017111` is 2017-11-01: `%m` takes `11` first, and `%d` then matches `1`. */
  lemma ParseYmdLongMonthFirst()
    ensures ParseYmd("2017111") == Ok(Ordinal(2017, 11, 1))
  {
    Year2017();
    TwoDigitValue("11");
    OneDigitValue("1");
    ParseSpelled(2017, 11, 1, "11", "1");
    assert "2017" + "11" + "1" == "2017111";
  }

  /** `201711 1` is 2017-11-01: `%d` admits a blank before one digit. */
  lemma ParseYmdBlankDay()
    ensures ParseYmd("201711 1") == Ok(Ordinal(2017, 11, 1))
  {
    Year2017();
    TwoDigitValue("11");
    ParseSpelled(2017, 11, 1, "11", " 1");
    assert "2017" + "11" + " 1" == "201711 1";
  }

  /** `2017110` is 2017-01-10: `%d` cannot match `0`, so `%m` falls back to `1`. */
  lemma ParseYmdBacktracks()
    ensures ParseYmd("2017110") == Ok(Ordinal(2017, 1, 10))
  {
    Year2017();
    OneDigitValue("1");
    TwoDigitValue("10");
    ParseSpelled(2017, 1, 10, "1", "10");
    assert "2017" + "1" + "10" == "2017110";
  }
}

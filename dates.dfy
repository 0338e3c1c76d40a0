/**
 * Acquisition datetimes and their compact text form `%Y%m%dT%H%M%S`
 * (`DATETIME_FMT`), which every reader returns when asked for a string.
 */
module Dates {
  import opened Wrappers
  import opened Strings

  datatype DateTime = DateTime(year: nat, month: nat, day: nat, hour: nat, minute: nat, second: nat)

  /** A leap year of the Gregorian calendar. */
  predicate LeapYear(y: nat)
  {
    y % 4 == 0 && (y % 100 != 0 || y % 400 == 0)
  }

  /** The number of days of month `m` of year `y`. */
  function DaysInMonth(y: nat, m: nat): nat
  {
    if m == 2 then (if LeapYear(y) then 29 else 28)
    else if m == 4 || m == 6 || m == 9 || m == 11 then 30
    else 31
  }

  /** Each field fits its width: four digits for the year, two for the others. */
  predicate Fits(dt: DateTime)
  {
    dt.year < 10000 && dt.month < 100 && dt.day < 100 && dt.hour < 100 && dt.minute < 100 && dt.second < 100
  }

  /**
   * The values a `datetime` can hold: a year from 1 to 9999, a month, a day
   * that exists in that month, and a time of day.
   */
  predicate Valid(dt: DateTime)
  {
    && 1 <= dt.year <= 9999 && 1 <= dt.month <= 12 && 1 <= dt.day <= DaysInMonth(dt.year, dt.month)
    && dt.hour < 24 && dt.minute < 60 && dt.second < 60
  }

  function Pow10(k: nat): (p: nat)
    ensures p >= 1
  {
    if k == 0 then 1 else 10 * Pow10(k - 1)
  }

  /** A number below 10^w has at most w decimal digits. */
  lemma {:induction false} NatToStringLength(n: nat, w: nat)
    requires w > 0 && n < Pow10(w)
    ensures |NatToString(n)| <= w
  {
    if n >= 10 {
      assert w > 1;
      assert n / 10 < Pow10(w - 1);
      NatToStringLength(n / 10, w - 1);
      assert |NatToString(n)| == |NatToString(n / 10)| + 1;
    }
  }

  /** `%02d`-style zero padding on the left up to `width` characters. */
  function ZeroPad(s: string, width: nat): (r: string)
    ensures |r| == if |s| < width then width else |s|
    ensures s == r[|r| - |s|..]
    ensures forall i :: 0 <= i < |r| - |s| ==> r[i] == '0'
  {
    if |s| < width then seq(width - |s|, _ => '0') + s else s
  }

  /** The field `n` written with exactly `width` digits. */
  function Field(n: nat, width: nat): string
  {
    ZeroPad(NatToString(n), width)
  }

  lemma FieldDigits(n: nat, width: nat)
    ensures AllDigits(Field(n, width))
  {
    var s := NatToString(n);
    var r := Field(n, width);
    forall i | 0 <= i < |r| ensures IsDigit(r[i]) {
      if i >= |r| - |s| {
        assert r[i] == r[|r| - |s|..][i - (|r| - |s|)];
      }
    }
  }

  /** Every character of the `%Y%m%dT%H%M%S` text is a digit or the `T` at index 8. */
  lemma FormatCharacters(dt: DateTime)
    ensures forall k :: 0 <= k < |Format(dt)| ==> IsDigit(Format(dt)[k]) || Format(dt)[k] == 'T'
  {
    FieldDigits(dt.year, 4);
    FieldDigits(dt.month, 2);
    FieldDigits(dt.day, 2);
    FieldDigits(dt.hour, 2);
    FieldDigits(dt.minute, 2);
    FieldDigits(dt.second, 2);
    AllDigitsConcat(Field(dt.year, 4), Field(dt.month, 2));
    AllDigitsConcat(Field(dt.year, 4) + Field(dt.month, 2), Field(dt.day, 2));
    AllDigitsConcat(Field(dt.hour, 2), Field(dt.minute, 2));
    AllDigitsConcat(Field(dt.hour, 2) + Field(dt.minute, 2), Field(dt.second, 2));
    var d, t := DatePart(dt), TimePart(dt);
    var f := Format(dt);
    forall k | 0 <= k < |f| ensures IsDigit(f[k]) || f[k] == 'T' {
      if k < |d| {
        assert f[k] == d[k];
      } else if k > |d| {
        assert f[k] == t[k - |d| - 1];
      }
    }
  }

  /** The `%Y%m%d` part. */
  function DatePart(dt: DateTime): string
  {
    Field(dt.year, 4) + Field(dt.month, 2) + Field(dt.day, 2)
  }

  /** The `%H%M%S` part. */
  function TimePart(dt: DateTime): string
  {
    Field(dt.hour, 2) + Field(dt.minute, 2) + Field(dt.second, 2)
  }

  /** What `get_datetime` returns: a datetime, or its `%Y%m%dT%H%M%S` text. */
  datatype DateValue = AsDateTime(dt: DateTime) | AsText(text: string)

  /** The last step of every `get_datetime`: the datetime itself, or `strftime(DATETIME_FMT)` of it. */
  function Rendered(dt: DateTime, asDatetime: bool): DateValue
  {
    if asDatetime then AsDateTime(dt) else AsText(Format(dt))
  }

  /** `date.strftime("%Y%m%dT%H%M%S")` */
  function Format(dt: DateTime): string
  {
    DatePart(dt) + "T" + TimePart(dt)
  }

  predicate AllDigits(s: string)
  {
    forall i :: 0 <= i < |s| ==> IsDigit(s[i])
  }

  /**
   * `datetime.strptime(s, "%Y%m%dT%H%M%S")` on the fifteen-character form:
   * eight digits, a `T` and six digits, whose fields must make a valid
   * datetime (a month 13 or a 31 April raises ValueError, here `None`).
   */
  function Parse(s: string): (r: Option<DateTime>)
    ensures r.Some? ==> Valid(r.value)
    ensures r.Some? ==> |s| == 15 && s[8] == 'T' && AllDigits(s[..8]) && AllDigits(s[9..])
  {
    if |s| == 15 && s[8] == 'T' && AllDigits(s[..8]) && AllDigits(s[9..]) then
      var date, time := s[..8], s[9..];
      var dt := DateTime(DigitsValue(date[..4]), DigitsValue(date[4..6]), DigitsValue(date[6..]),
                         DigitsValue(time[..2]), DigitsValue(time[2..4]), DigitsValue(time[4..]));
      if Valid(dt) then Some(dt) else None
    else None
  }

  /** Reading the digits of a concatenation. */
  lemma {:induction false} DigitsValueConcat(a: string, b: string)
    requires AllDigits(a) && AllDigits(b)
    ensures AllDigits(a + b)
    ensures DigitsValue(a + b) == DigitsValue(a) * Pow10(|b|) + DigitsValue(b)
    decreases |b|
  {
    AllDigitsConcat(a, b);
    if |b| == 0 {
      assert a + b == a;
    } else {
      var b' := b[..|b| - 1];
      var ab := a + b;
      assert ab[..|ab| - 1] == a + b';
      assert ab[|ab| - 1] == b[|b| - 1];
      DigitsValueSnoc(ab);
      DigitsValueSnoc(b);
      DigitsValueConcat(a, b');
      ScaleSum(DigitsValue(a), Pow10(|b'|), DigitsValue(b'));
    }
  }

  /** The last digit of a numeral is its units digit. */
  lemma DigitsValueSnoc(s: string)
    requires AllDigits(s) && |s| > 0
    ensures AllDigits(s[..|s| - 1]) && IsDigit(s[|s| - 1])
    ensures DigitsValue(s) == 10 * DigitsValue(s[..|s| - 1]) + DigitValue(s[|s| - 1])
  {
  }

  lemma ScaleSum(x: int, p: int, y: int)
    ensures 10 * (x * p + y) == x * (10 * p) + 10 * y
  {
  }

  lemma AllDigitsConcat(a: string, b: string)
    requires AllDigits(a) && AllDigits(b)
    ensures AllDigits(a + b)
  {
    forall i | 0 <= i < |a + b| ensures IsDigit((a + b)[i]) {
      if i < |a| { assert (a + b)[i] == a[i]; } else { assert (a + b)[i] == b[i - |a|]; }
    }
  }

  lemma {:induction false} ZerosValue(n: nat)
    ensures AllDigits(seq(n, _ => '0'))
    ensures DigitsValue(seq(n, _ => '0')) == 0
  {
    if n > 0 {
      var z := seq(n, _ => '0');
      assert z[..n - 1] == seq(n - 1, _ => '0');
      ZerosValue(n - 1);
    }
  }

  /** A padded field has the requested width and reads back as the number. */
  lemma FieldRoundTrip(n: nat, w: nat)
    requires w > 0 && n < Pow10(w)
    ensures |Field(n, w)| == w
    ensures AllDigits(Field(n, w))
    ensures DigitsValue(Field(n, w)) == n
  {
    var s := NatToString(n);
    NatToStringLength(n, w);
    DigitsValueNatToString(n);
    if |s| < w {
      var z := seq(w - |s|, _ => '0');
      ZerosValue(w - |s|);
      DigitsValueConcat(z, s);
    }
  }

  /** `s` is all digits and its fields `[..i]`, `[i..i+j]` and `[i+j..]` read as `x`, `y` and `z`. */
  predicate ReadsAs(s: string, i: nat, j: nat, x: nat, y: nat, z: nat)
  {
    && i + j <= |s| && AllDigits(s)
    && AllDigits(s[..i]) && AllDigits(s[i..i + j]) && AllDigits(s[i + j..])
    && DigitsValue(s[..i]) == x && DigitsValue(s[i..i + j]) == y && DigitsValue(s[i + j..]) == z
  }

  /** Three digit fields of known widths, written one after the other, read back one by one. */
  lemma ReadThree(a: string, b: string, c: string)
    requires AllDigits(a) && AllDigits(b) && AllDigits(c)
    ensures ReadsAs(a + b + c, |a|, |b|, DigitsValue(a), DigitsValue(b), DigitsValue(c))
  {
    var s := a + b + c;
    assert s[..|a|] == a;
    assert s[|a|..|a| + |b|] == b;
    assert s[|a| + |b|..] == c;
    AllDigitsConcat(a, b);
    AllDigitsConcat(a + b, c);
  }

  lemma SplitAround(d: string, t: string)
    requires |d| == 8 && |t| == 6
    ensures |d + "T" + t| == 15 && (d + "T" + t)[8] == 'T'
    ensures (d + "T" + t)[..8] == d && (d + "T" + t)[9..] == t
  {
  }

  /** The date part is eight digits that read back as year, month and day. */
  lemma DatePartRoundTrip(dt: DateTime)
    requires Fits(dt)
    ensures |DatePart(dt)| == 8
    ensures ReadsAs(DatePart(dt), 4, 2, dt.year, dt.month, dt.day)
  {
    FieldRoundTrip(dt.year, 4);
    FieldRoundTrip(dt.month, 2);
    FieldRoundTrip(dt.day, 2);
    ReadThree(Field(dt.year, 4), Field(dt.month, 2), Field(dt.day, 2));
  }

  /** The time part is six digits that read back as hour, minute and second. */
  lemma TimePartRoundTrip(dt: DateTime)
    requires Fits(dt)
    ensures |TimePart(dt)| == 6
    ensures ReadsAs(TimePart(dt), 2, 2, dt.hour, dt.minute, dt.second)
  {
    FieldRoundTrip(dt.hour, 2);
    FieldRoundTrip(dt.minute, 2);
    FieldRoundTrip(dt.second, 2);
    ReadThree(Field(dt.hour, 2), Field(dt.minute, 2), Field(dt.second, 2));
  }

  /** Formatting then parsing a valid datetime gives it back. */
  lemma ParseFormat(dt: DateTime)
    requires Valid(dt)
    ensures |Format(dt)| == 15 && Format(dt)[8] == 'T'
    ensures Parse(Format(dt)) == Some(dt)
  {
    DatePartRoundTrip(dt);
    TimePartRoundTrip(dt);
    SplitAround(DatePart(dt), TimePart(dt));
  }

  /** The text form of a parsed datetime reads back as that datetime. */
  lemma ParseFormatParse(s: string)
    requires Parse(s).Some?
    ensures Parse(Format(Parse(s).value)) == Parse(s)
  {
    ParseFormat(Parse(s).value);
  }

  /**
   * A datetime whose fields fit their widths but name no real day or time
   * (a 31 April, a 29 February of a common year, a month 13) is written out
   * and rejected on reading.
   */
  lemma ParseFormatInvalid(dt: DateTime)
    requires Fits(dt) && !Valid(dt)
    ensures |Format(dt)| == 15 && Format(dt)[8] == 'T'
    ensures Parse(Format(dt)) == None
  {
    DatePartRoundTrip(dt);
    TimePartRoundTrip(dt);
    SplitAround(DatePart(dt), TimePart(dt));
  }
}

/**
 * The calendar arithmetic behind the `datetime.strptime` / `strftime` calls of
 * external_contributors.py and chart_contributors.py: the fields `strptime`'s patterns
 * accept (one or two digits, a space-padded day, literals matched ignoring case), the
 * proleptic Gregorian month lengths `datetime` validates against, zero-padded output,
 * and date comparison.
 */
module Calendar {
  import opened Common

  datatype Date = Date(year: int, month: int, day: int)

  predicate IsLeap(y: int) { y % 4 == 0 && (y % 100 != 0 || y % 400 == 0) }

  function DaysIn(y: int, m: int): int
  {
    if m == 2 then (if IsLeap(y) then 29 else 28)
    else if m == 4 || m == 6 || m == 9 || m == 11 then 30
    else 31
  }

  /** A date `datetime.date` accepts: years 1 to 9999, and a day that exists in its month. */
  predicate ValidDate(d: Date)
  {
    1 <= d.year <= 9999 && 1 <= d.month <= 12 && 1 <= d.day <= DaysIn(d.year, d.month)
  }

  /** A key that orders valid dates as the calendar does (month and day stay below 100). */
  function Ordinal(d: Date): int { d.year * 10000 + d.month * 100 + d.day }

  lemma OrdinalIsChronological(a: Date, b: Date)
    requires ValidDate(a) && ValidDate(b)
    ensures Ordinal(a) < Ordinal(b) <==>
      a.year < b.year || (a.year == b.year && (a.month < b.month || (a.month == b.month && a.day < b.day)))
    ensures Ordinal(a) == Ordinal(b) <==> a == b
  {
  }

  // ---------------------------------------------------------------- decimal fields

  /** Every character is an ASCII decimal digit. */
  predicate AllDigits(s: string)
  {
    forall i :: 0 <= i < |s| ==> IsDigit(s[i])
  }

  function DigitValue(c: char): nat
    requires IsDigit(c)
  {
    c as int - '0' as int
  }

  function Pow10(n: nat): nat
  {
    if n == 0 then 1 else 10 * Pow10(n - 1)
  }

  /** The value of a run of decimal digits (leading zeros allowed). */
  function Number(s: string): nat
    requires AllDigits(s)
  {
    if s == [] then 0 else 10 * Number(s[..|s| - 1]) + DigitValue(s[|s| - 1])
  }

  /** `n` written with exactly `width` digits, zero-padded on the left, as `%04d` / `%02d`. */
  function Pad(n: nat, width: nat): (r: string)
    ensures |r| == width
    ensures AllDigits(r)
  {
    if width == 0 then [] else Pad(n / 10, width - 1) + [DigitChar(n % 10)]
  }

  lemma DigitRoundTrip(d: nat)
    requires d < 10
    ensures DigitValue(DigitChar(d)) == d
  {
  }

  lemma {:induction false} NumberBound(s: string)
    requires AllDigits(s)
    ensures Number(s) < Pow10(|s|)
  {
    if s != [] {
      NumberBound(s[..|s| - 1]);
    }
  }

  /** Reading back a padded field gives the number, when it fits in the width. */
  lemma {:induction false} NumberOfPad(n: nat, width: nat)
    requires n < Pow10(width)
    ensures Number(Pad(n, width)) == n
  {
    if width > 0 {
      var r := Pad(n, width);
      var d := n % 10;
      assert r[..|r| - 1] == Pad(n / 10, width - 1);
      DigitRoundTrip(d);
      NumberOfPad(n / 10, width - 1);
    }
  }

  /** Padding the value of a digit run to its own width gives the run back. */
  lemma {:induction false} PadOfNumber(s: string)
    requires AllDigits(s)
    ensures Pad(Number(s), |s|) == s
  {
    if s != [] {
      var prefix := s[..|s| - 1];
      NumberLastDigit(s);
      PadOfNumber(prefix);
      PadLastDigit(Number(s), |s|);
      assert prefix + [s[|s| - 1]] == s;
    }
  }

  /** The last digit of a run is its value modulo ten; the rest is its value divided by ten. */
  lemma NumberLastDigit(s: string)
    requires AllDigits(s) && s != []
    ensures Number(s) / 10 == Number(s[..|s| - 1])
    ensures DigitChar(Number(s) % 10) == s[|s| - 1]
  {
    var a, d := Number(s[..|s| - 1]), DigitValue(s[|s| - 1]);
    assert (10 * a + d) / 10 == a && (10 * a + d) % 10 == d;
  }

  /** The last character of a padded field is the last decimal digit of the number. */
  lemma PadLastDigit(n: nat, width: nat)
    requires width > 0
    ensures Pad(n, width) == Pad(n / 10, width - 1) + [DigitChar(n % 10)]
  {
  }

  // ---------------------------------------------------------------- strptime fields

  /** `c` matches the format literal `lit`: `strptime` compiles its pattern ignoring case. */
  predicate MatchesLiteral(c: char, lit: char)
  {
    c == lit || ('A' <= lit <= 'Z' && c as int == lit as int + 32)
  }

  /**
   * Where the one- or two-character field starting at `s[i]` ends: before the first of
   * `s[i + 1]`, `s[i + 2]` that matches the literal following the field in the format.
   * Fields hold digits or a space, never a literal, so no other split can match.
   */
  function FieldEnd(s: string, i: nat, lit: char): (r: Option<nat>)
    ensures r.Some? ==> i < r.value <= i + 2 && r.value < |s| && MatchesLiteral(s[r.value], lit)
  {
    if i + 1 < |s| && MatchesLiteral(s[i + 1], lit) then Some(i + 1)
    else if i + 2 < |s| && MatchesLiteral(s[i + 2], lit) then Some(i + 2)
    else None
  }

  /**
   * The value `strptime` reads from a `%m`, `%d`, `%H`, `%M` or `%S` field: one or two
   * digits, or for `%d` (`spaced`) a space before one nonzero digit; `None` where the
   * pattern does not match.
   */
  function FieldValue(t: string, spaced: bool): (r: Option<nat>)
    ensures r.Some? ==> 1 <= |t| <= 2
    ensures r.Some? && !spaced ==> AllDigits(t) && r.value == Number(t)
    ensures r.Some? && spaced ==> AllDigits(t) || (|t| == 2 && t[0] == ' ' && IsDigit(t[1]) && t[1] != '0')
  {
    if 1 <= |t| <= 2 && AllDigits(t) then Some(Number(t))
    else if spaced && |t| == 2 && t[0] == ' ' && IsDigit(t[1]) && t[1] != '0' then Some(DigitValue(t[1]))
    else None
  }

  predicate AtMost(v: Option<nat>, hi: nat)
  {
    v.Some? && v.value <= hi
  }

  /**
   * The date with `%Y`, `%m` and `%d` fields `y`, `m` and `d`, when their patterns match
   * and `datetime` accepts the date (the patterns' own bounds on month and day lie within
   * `ValidDate`'s).
   */
  function DateOf(y: string, m: string, d: string): (r: Option<Date>)
    ensures r.Some? ==> ValidDate(r.value)
  {
    var month := FieldValue(m, false);
    var day := FieldValue(d, true);
    if |y| == 4 && AllDigits(y) && month.Some? && day.Some? && ValidDate(Date(Number(y), month.value, day.value))
    then Some(Date(Number(y), month.value, day.value))
    else None
  }

  // ---------------------------------------------------------------- "%Y-%m-%d"

  /** `datetime.strptime(s, "%Y-%m-%d").date()`; `None` where it raises. */
  function ParseDate(s: string): (r: Option<Date>)
    ensures r.Some? ==> ValidDate(r.value)
  {
    if |s| < 5 || !AllDigits(s[..4]) || s[4] != '-' then None
    else match FieldEnd(s, 5, '-')
      case None => None
      case Some(j) => DateOf(s[..4], s[5..j], s[j + 1..])
  }

  /** `date.strftime("%Y-%m-%d")`. */
  function FormatDate(d: Date): (s: string)
    requires ValidDate(d)
    ensures |s| == 10
  {
    Pad(d.year, 4) + "-" + Pad(d.month, 2) + "-" + Pad(d.day, 2)
  }

  /** Every valid date reads back from its zero-padded form. */
  lemma ParseFormatDate(d: Date)
    requires ValidDate(d)
    ensures ParseDate(FormatDate(d)) == Some(d)
  {
    var s := FormatDate(d);
    assert s[..4] == Pad(d.year, 4) && s[5..7] == Pad(d.month, 2) && s[8..] == Pad(d.day, 2);
    assert IsDigit(s[6]);
    assert FieldEnd(s, 5, '-') == Some(7);
    NumberOfPad(d.year, 4);
    NumberOfPad(d.month, 2);
    NumberOfPad(d.day, 2);
  }

  /**
   * An accepted date string is its own zero-padded form exactly when it is ten characters
   * long and its day does not start with a space; `"2023-1-5"` and `"2023-01- 5"` parse
   * but are not.
   */
  lemma FormatParseDate(s: string)
    requires ParseDate(s).Some?
    ensures FormatDate(ParseDate(s).value) == s <==> |s| == 10 && s[8] != ' '
  {
    var d := ParseDate(s).value;
    var j := FieldEnd(s, 5, '-').value;
    assert DateOf(s[..4], s[5..j], s[j + 1..]) == Some(d);
    assert IsDigit(FormatDate(d)[8]) by {
      assert FormatDate(d)[8..] == Pad(d.day, 2);
    }
    if |s| == 10 && s[8] != ' ' {
      assert j == 7;
      assert AllDigits(s[8..]) by {
        assert s[j + 1..][0] == s[8];
      }
      PadOfNumber(s[..4]);
      PadOfNumber(s[5..7]);
      PadOfNumber(s[8..]);
      assert s == s[..4] + [s[4]] + s[5..7] + [s[7]] + s[8..];
    }
  }

  // ---------------------------------------------------------------- "%Y-%m-%dT%H:%M:%SZ"

  /**
   * `%H:%M:%SZ` matching all of `t`, at a time `datetime` accepts: hour up to 23, minute and
   * second up to 59 (the `%S` pattern reads 60 and 61, which `datetime` then refuses).
   */
  predicate Clock(t: string)
  {
    match FieldEnd(t, 0, ':')
    case None => false
    case Some(a) =>
      match FieldEnd(t, a + 1, ':')
      case None => false
      case Some(b) =>
        match FieldEnd(t, b + 1, 'Z')
        case None => false
        case Some(c) =>
          && c == |t| - 1
          && AtMost(FieldValue(t[..a], false), 23)
          && AtMost(FieldValue(t[a + 1..b], false), 59)
          && AtMost(FieldValue(t[b + 1..c], false), 59)
  }

  /** The date of `datetime.strptime(s, "%Y-%m-%dT%H:%M:%SZ")`; `None` where it raises. */
  function ParseTimestamp(s: string): (r: Option<Date>)
    ensures r.Some? ==> ValidDate(r.value)
  {
    if |s| < 5 || !AllDigits(s[..4]) || s[4] != '-' then None
    else match FieldEnd(s, 5, '-')
      case None => None
      case Some(j) =>
        match FieldEnd(s, j + 1, 'T')
        case None => None
        case Some(k) => if Clock(s[k + 1..]) then DateOf(s[..4], s[5..j], s[j + 1..k]) else None
  }

  /** `created_at.strftime("%Y-%m")`, or `None` where `strptime` raises. */
  function MonthKey(s: string): (r: Option<string>)
  {
    match ParseTimestamp(s)
    case None => None
    case Some(d) => Some(Pad(d.year, 4) + "-" + Pad(d.month, 2))
  }

  /**
   * The bucket of a timestamp is its own first seven characters exactly when its month is
   * written with two digits; `"2023-1-05T10:00:00Z"` goes to `"2023-01"`.
   */
  lemma MonthKeyIsPrefix(s: string)
    requires MonthKey(s).Some?
    ensures |s| >= 8
    ensures MonthKey(s) == Some(s[..7]) <==> s[7] == '-'
  {
    var d := ParseTimestamp(s).value;
    var j := FieldEnd(s, 5, '-').value;
    var k := FieldEnd(s, j + 1, 'T').value;
    assert DateOf(s[..4], s[5..j], s[j + 1..k]) == Some(d);
    var key := Pad(d.year, 4) + "-" + Pad(d.month, 2);
    assert MonthKey(s) == Some(key);
    PadOfNumber(s[..4]);
    if j == 7 {
      PadOfNumber(s[5..7]);
      assert s[..7] == s[..4] + [s[4]] + s[5..7];
    } else {
      assert key[6] == Pad(d.month, 2)[1];
      assert s[7] == s[j + 1..k][0];
      assert key[6] != s[6];
    }
  }

  /** The value of a field of one or two digits. */
  lemma ShortNumber(t: string)
    requires 1 <= |t| <= 2 && AllDigits(t)
    ensures |t| == 1 ==> Number(t) == DigitValue(t[0])
    ensures |t| == 2 ==> Number(t) == 10 * DigitValue(t[0]) + DigitValue(t[1])
  {
    assert t[..|t| - 1][..0] == [];
  }

  /** The value of a four-digit year field. */
  lemma YearNumber(t: string)
    requires |t| == 4 && AllDigits(t)
    ensures Number(t) == 1000 * DigitValue(t[0]) + 100 * DigitValue(t[1]) + 10 * DigitValue(t[2]) + DigitValue(t[3])
  {
    var p3 := t[..3];
    var p2 := p3[..2];
    ShortNumber(p2);
    assert Number(p3) == 10 * Number(p2) + DigitValue(t[2]);
  }

  /** `strptime` accepts one-digit and space-padded fields: `"2023-1-5"` and `"2023-01- 5"` are 5 January 2023. */
  lemma LenientDates()
    ensures ParseDate("2023-1-5") == Some(Date(2023, 1, 5))
    ensures ParseDate("2023-01- 5") == Some(Date(2023, 1, 5))
  {
    YearNumber("2023");
    var short := "2023-1-5";
    assert short[..4] == "2023" && short[5..6] == "1" && short[7..] == "5";
    assert FieldEnd(short, 5, '-') == Some(6);
    ShortNumber("1");
    ShortNumber("5");
    var spaced := "2023-01- 5";
    assert spaced[..4] == "2023" && spaced[5..7] == "01" && spaced[8..] == " 5";
    assert FieldEnd(spaced, 5, '-') == Some(7);
    ShortNumber("01");
    assert !IsDigit(" 5"[0]);
  }

  /** `datetime` refuses 29 February of a common year, and a leap second the `%S` pattern reads. */
  lemma RefusedDates()
    ensures ParseDate("2023-02-29") == None
    ensures ParseTimestamp("2016-12-31T23:59:60Z") == None
  {
    var leap := "2023-02-29";
    assert FieldEnd(leap, 5, '-') == Some(7);
    assert leap[..4] == "2023" && leap[5..7] == "02" && leap[8..] == "29";
    YearNumber("2023");
    ShortNumber("02");
    ShortNumber("29");
    var stamp := "2016-12-31T23:59:60Z";
    assert FieldEnd(stamp, 5, '-') == Some(7);
    assert FieldEnd(stamp, 8, 'T') == Some(10);
    var clock := stamp[11..];
    assert clock == "23:59:60Z";
    assert FieldEnd(clock, 0, ':') == Some(2);
    assert FieldEnd(clock, 3, ':') == Some(5);
    assert FieldEnd(clock, 6, 'Z') == Some(8);
    assert clock[6..8] == "60";
    ShortNumber("60");
  }

  /** Ten o'clock sharp, with the closing `Z` in either case. */
  lemma TenOClock(clock: string)
    requires clock == "10:00:00Z" || clock == "10:00:00z"
    ensures Clock(clock)
  {
    assert FieldEnd(clock, 0, ':') == Some(2);
    assert FieldEnd(clock, 3, ':') == Some(5);
    assert FieldEnd(clock, 6, 'Z') == Some(8);
    assert clock[..2] == "10" && clock[3..5] == "00" && clock[6..8] == "00";
    ShortNumber("10");
    ShortNumber("00");
  }

  /** 5 January 2023, with its month written with one digit or two. */
  lemma FifthOfJanuary(month: string)
    requires month == "1" || month == "01"
    ensures DateOf("2023", month, "05") == Some(Date(2023, 1, 5))
  {
    YearNumber("2023");
    ShortNumber(month);
    ShortNumber("05");
  }

  /** The `T` and `Z` literals match in either case. */
  lemma LowerCaseLiterals()
    ensures ParseTimestamp("2023-01-05t10:00:00z") == Some(Date(2023, 1, 5))
  {
    var lower := "2023-01-05t10:00:00z";
    assert lower[..4] == "2023";
    assert lower[5..7] == "01";
    assert lower[8..10] == "05";
    assert lower[11..] == "10:00:00z";
    assert FieldEnd(lower, 5, '-') == Some(7);
    assert FieldEnd(lower, 8, 'T') == Some(10);
    TenOClock(lower[11..]);
    FifthOfJanuary("01");
  }

  /** A one-digit month still buckets as two digits: `"2023-1-05T10:00:00Z"` goes to `"2023-01"`. */
  lemma OneDigitMonthBucket()
    ensures ParseTimestamp("2023-1-05T10:00:00Z") == Some(Date(2023, 1, 5))
    ensures MonthKey("2023-1-05T10:00:00Z") == Some("2023-01")
  {
    var short := "2023-1-05T10:00:00Z";
    assert short[..4] == "2023" && short[5..6] == "1" && short[7..9] == "05" && short[10..] == "10:00:00Z";
    assert FieldEnd(short, 5, '-') == Some(6);
    assert FieldEnd(short, 7, 'T') == Some(9);
    TenOClock(short[10..]);
    FifthOfJanuary("1");
    JanuaryKey();
  }

  /** The `%Y-%m` of January 2023. */
  lemma JanuaryKey()
    ensures Pad(2023, 4) + "-" + Pad(1, 2) == "2023-01"
  {
    YearNumber("2023");
    PadOfNumber("2023");
    ShortNumber("01");
    PadOfNumber("01");
  }

  /** `datetime.strptime(month + "-01", "%Y-%m-%d").date()`: the first day of a `YYYY-MM` bucket. */
  function MonthStart(month: string): Option<Date>
  {
    ParseDate(month + "-01")
  }

  /** Every bucket produced from a timestamp reads back as the first day of that timestamp's month. */
  lemma MonthKeyStartsMonth(s: string)
    requires MonthKey(s).Some?
    ensures var d := ParseTimestamp(s).value;
      MonthStart(MonthKey(s).value) == Some(Date(d.year, d.month, 1))
  {
    var d := ParseTimestamp(s).value;
    FormatFirstOfMonth(d);
    ParseFormatDate(Date(d.year, d.month, 1));
  }

  /** The first day of a valid date's month is valid, and formats as the month's key followed by `-01`. */
  lemma FormatFirstOfMonth(d: Date)
    requires ValidDate(d)
    ensures ValidDate(Date(d.year, d.month, 1))
    ensures FormatDate(Date(d.year, d.month, 1)) == (Pad(d.year, 4) + "-" + Pad(d.month, 2)) + "-01"
  {
    assert Pad(1, 2) == "01";
  }
}

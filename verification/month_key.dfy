/**
 * Month keys: the `year-MM` strings that rainfall is grouped by
 * (`${year}-${String(month + 1).padStart(2, '0')}`), and the month read back
 * from such a key, which for a four-digit year (1000-9999) is the month whose
 * first day `new Date(key + "-01")` denotes.
 */
module MonthKeys {
  import opened Wrappers

  /** A 0-based calendar month, as `Date.prototype.getMonth` returns it. */
  type Month = m: int | 0 <= m < 12

  /** A calendar month of a year: the first day of that month, as a date. */
  datatype MonthStamp = MonthStamp(year: int, month: Month) {
    /** Months since January of year 0; first days of months compare as their ordinals do. */
    function Ordinal(): int { year * 12 + month }
  }

  predicate IsDigit(c: char) { '0' <= c <= '9' }

  function DigitChar(d: int): (c: char)
    requires 0 <= d < 10
    ensures IsDigit(c)
  {
    ('0' as int + d) as char
  }

  function DigitValue(c: char): (d: nat)
    requires IsDigit(c)
    ensures d < 10
  {
    c as int - '0' as int
  }

  lemma DigitRoundTrip(d: int)
    requires 0 <= d < 10
    ensures DigitValue(DigitChar(d)) == d
  {
  }

  /** Decimal digits of `n`, most significant first, without leading zeros. */
  function NatToString(n: nat): (s: string)
    ensures |s| >= 1
    ensures forall i :: 0 <= i < |s| ==> IsDigit(s[i])
    ensures n >= 10 ==> s[0] != '0'
    decreases n
  {
    if n < 10 then [DigitChar(n)] else NatToString(n / 10) + [DigitChar(n % 10)]
  }

  /** `String(n)` for an integral JavaScript number: a minus sign, then the digits of `|n|`. */
  function IntToString(n: int): (s: string)
    ensures |s| >= 1
    ensures s[0] == '-' <==> n < 0
  {
    if n < 0 then "-" + NatToString(-n) else NatToString(n)
  }

  /** `s.padStart(width, fill)` with a one-character fill: left-pads `s` to `width`; a longer `s` is unchanged. */
  function PadStart(s: string, width: nat, fill: char): (r: string)
    ensures |r| == if |s| >= width then |s| else width
    ensures r[|r| - |s|..] == s
    ensures forall i :: 0 <= i < |r| - |s| ==> r[i] == fill
  {
    if |s| >= width then s else seq(width - |s|, _ => fill) + s
  }

  /** The `monthYear` key of a row with the given year and 0-based month. */
  function MonthKey(year: int, month: Month): string
  {
    IntToString(year) + "-" + MonthDigits(month)
  }

  /** The value of a non-empty string of decimal digits; `None` for anything else. */
  function ParseNat(s: string): Option<nat>
    decreases |s|
  {
    if |s| == 0 || !IsDigit(s[|s| - 1]) then None
    else if |s| == 1 then Some(DigitValue(s[0]))
    else match ParseNat(s[..|s| - 1])
      case None => None
      case Some(p) => Some(10 * p + DigitValue(s[|s| - 1]))
  }

  /** The value of an optional minus sign followed by decimal digits. */
  function ParseInt(s: string): Option<int>
  {
    var negative := |s| > 0 && s[0] == '-';
    match ParseNat(if negative then s[1..] else s)
    case None => None
    case Some(n) => Some(if negative then -(n as int) else n as int)
  }

  /**
   * The month named by a key made of a year, a dash and a two-digit month
   * `01`..`12`, which for a four-digit year (1000-9999) is the month whose
   * first day `new Date(key + "-01")` denotes; `None` for other keys.
   */
  function ParseMonthKey(key: string): Option<MonthStamp>
  {
    if |key| < 4 || key[|key| - 3] != '-' then None
    else match (ParseInt(key[..|key| - 3]), ParseNat(key[|key| - 2..]))
      case (Some(y), Some(m)) => if 1 <= m <= 12 then Some(MonthStamp(y, m - 1)) else None
      case _ => None
  }

  /** Reading back the decimal digits of `n` gives `n`. */
  lemma {:induction false} ParseNatToString(n: nat)
    ensures ParseNat(NatToString(n)) == Some(n)
    decreases n
  {
    var s := NatToString(n);
    if n < 10 {
      DigitRoundTrip(n);
    } else {
      ParseNatToString(n / 10);
      assert s[..|s| - 1] == NatToString(n / 10);
      DigitRoundTrip(n % 10);
    }
  }

  /** Reading back `String(n)` gives `n`, for every integer, negative ones included. */
  lemma {:induction false} ParseIntToString(n: int)
    ensures ParseInt(IntToString(n)) == Some(n)
  {
    var s := IntToString(n);
    if n < 0 {
      assert s[1..] == NatToString(-n);
      ParseNatToString(-n);
    } else {
      assert s[0] != '-';
      ParseNatToString(n);
    }
  }

  /** The month part of a key: the 1-based month, zero-padded to two digits. */
  function MonthDigits(month: Month): string
  {
    PadStart(NatToString(month + 1), 2, '0')
  }

  /** The month part is two digits, the tens and the units of the 1-based month. */
  lemma MonthDigitsShape(month: Month)
    ensures MonthDigits(month) == [DigitChar((month + 1) / 10), DigitChar((month + 1) % 10)]
  {
    if month + 1 < 10 {
      assert NatToString(month + 1) == [DigitChar(month + 1)];
    } else {
      assert NatToString((month + 1) / 10) == [DigitChar(1)];
      assert NatToString(month + 1) == [DigitChar(1), DigitChar((month + 1) % 10)];
    }
  }

  /** The month part reads back as the 1-based month. */
  lemma MonthDigitsParse(month: Month)
    ensures ParseNat(MonthDigits(month)) == Some(month + 1)
  {
    var mm := MonthDigits(month);
    MonthDigitsShape(month);
    assert mm[..1] == [DigitChar((month + 1) / 10)];
    DigitRoundTrip((month + 1) / 10);
    DigitRoundTrip((month + 1) % 10);
  }

  /** A key is the year, a dash and two month digits, `01` to `12`. */
  lemma MonthKeyShape(year: int, month: Month)
    ensures |MonthKey(year, month)| == |IntToString(year)| + 3
    ensures MonthKey(year, month) == IntToString(year) + "-" + [DigitChar((month + 1) / 10), DigitChar((month + 1) % 10)]
  {
    MonthDigitsShape(month);
  }

  /** A four-digit year gives a seven-character key. */
  lemma FourDigitYearKeyLength(year: int, month: Month)
    requires 1000 <= year <= 9999
    ensures |MonthKey(year, month)| == 7
  {
    MonthKeyShape(year, month);
    assert NatToString(year / 1000) == [DigitChar(year / 1000)];
    assert |NatToString(year / 100)| == 2;
    assert |NatToString(year / 10)| == 3;
  }

  /** The key names exactly the month it was made from: parsing it gives back year and month. */
  lemma MonthKeyRoundTrip(year: int, month: Month)
    ensures ParseMonthKey(MonthKey(year, month)) == Some(MonthStamp(year, month))
  {
    MonthDigitsShape(month);
    ParseIntToString(year);
    MonthDigitsParse(month);
    ParseJoined(IntToString(year), MonthDigits(month), year, month + 1);
  }

  /** A year and a two-digit month joined by a dash parse back to that month. */
  lemma ParseJoined(y: string, mm: string, year: int, m: int)
    requires |mm| == 2 && ParseInt(y) == Some(year) && ParseNat(mm) == Some(m) && 1 <= m <= 12
    ensures ParseMonthKey(y + "-" + mm) == Some(MonthStamp(year, m - 1))
  {
    SplitAtDash(y, mm);
  }

  /** Joining with a dash before a two-character tail can be undone by position. */
  lemma SplitAtDash(y: string, mm: string)
    requires |mm| == 2
    ensures |y + "-" + mm| == |y| + 3
    ensures (y + "-" + mm)[..|y + "-" + mm| - 3] == y
    ensures (y + "-" + mm)[|y + "-" + mm| - 3] == '-'
    ensures (y + "-" + mm)[|y + "-" + mm| - 2..] == mm
  {
    var key := y + "-" + mm;
    assert key[..|y|] == y;
    assert key[|y| + 1..] == mm;
  }

  /** Two rows get the same key exactly when they have the same year and month. */
  lemma MonthKeyInjective(y1: int, m1: Month, y2: int, m2: Month)
    ensures MonthKey(y1, m1) == MonthKey(y2, m2) <==> y1 == y2 && m1 == m2
  {
    if MonthKey(y1, m1) == MonthKey(y2, m2) {
      MonthKeyRoundTrip(y1, m1);
      MonthKeyRoundTrip(y2, m2);
    }
  }

  /** Ordinals order months chronologically: by year first, then by month. */
  lemma OrdinalChronological(a: MonthStamp, b: MonthStamp)
    ensures a.Ordinal() < b.Ordinal() <==> a.year < b.year || (a.year == b.year && a.month < b.month)
    ensures a.Ordinal() == b.Ordinal() <==> a == b
  {
    if a.year < b.year {
      assert a.year * 12 <= b.year * 12 - 12;
    } else if a.year > b.year {
      assert b.year * 12 <= a.year * 12 - 12;
    }
  }
}

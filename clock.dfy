/**
 * Calendar times as the scripts read them from the clock, and the
 * zero-padded `strftime` renderings they are turned into. The clock itself
 * is not modelled: every reading is a `DateTime` passed in by the caller.
 */
module Clock {

  /** A clock reading to the second (the scripts never print finer fields). */
  datatype DateTime = DateTime(year: nat, month: nat, day: nat, hour: nat, minute: nat, second: nat)

  predicate IsLeapYear(y: nat)
  {
    (y % 4 == 0 && y % 100 != 0) || y % 400 == 0
  }

  function DaysInMonth(y: nat, m: nat): nat
  {
    if m == 2 then (if IsLeapYear(y) then 29 else 28)
    else if m == 4 || m == 6 || m == 9 || m == 11 then 30
    else 31
  }

  /** The readings Python's `datetime` can hold (years 1 to 9999). */
  predicate Valid(t: DateTime)
  {
    1 <= t.year <= 9999 && 1 <= t.month <= 12 && 1 <= t.day <= DaysInMonth(t.year, t.month) &&
    t.hour < 24 && t.minute < 60 && t.second < 60
  }

  predicate IsDigit(c: char)
  {
    '0' <= c <= '9'
  }

  function Pow10(w: nat): (p: nat)
    ensures p >= 1
  {
    if w == 0 then 1 else 10 * Pow10(w - 1)
  }

  function DigitChar(d: nat): (c: char)
    requires d < 10
    ensures IsDigit(c)
  {
    ('0' as int + d) as char
  }

  function DigitValue(c: char): nat
  {
    if IsDigit(c) then c as int - '0' as int else 0
  }

  /** The last `w` decimal digits of `n`, zero-padded on the left (`%0wd`). */
  function Digits(n: nat, w: nat): (s: string)
    ensures |s| == w
    ensures forall k :: 0 <= k < w ==> IsDigit(s[k])
  {
    if w == 0 then [] else Digits(n / 10, w - 1) + [DigitChar(n % 10)]
  }

  /** The number a string of decimal digits denotes. */
  function Value(s: string): nat
  {
    if s == [] then 0 else 10 * Value(s[..|s| - 1]) + DigitValue(s[|s| - 1])
  }

  /** Padding to `w` digits loses nothing when the number has at most `w` digits. */
  lemma {:induction false} ValueOfDigits(n: nat, w: nat)
    requires n < Pow10(w)
    ensures Value(Digits(n, w)) == n
  {
    if w > 0 {
      var s := Digits(n, w);
      assert s[..|s| - 1] == Digits(n / 10, w - 1);
      assert n / 10 < Pow10(w - 1);
      ValueOfDigits(n / 10, w - 1);
      assert DigitValue(DigitChar(n % 10)) == n % 10;
    }
  }

  /**
   * `strftime("%Y<ds>%m<ds>%d<ms>%H<ts>%M<ts>%S")`: the year in four digits,
   * every other field in two, with the given separators between them.
   */
  function Stamp(t: DateTime, ds: string, ms: string, ts: string): string
  {
    Digits(t.year, 4) + ds + Digits(t.month, 2) + ds + Digits(t.day, 2) + ms +
    Digits(t.hour, 2) + ts + Digits(t.minute, 2) + ts + Digits(t.second, 2)
  }

  function StampLength(ds: string, ms: string, ts: string): nat
  {
    14 + 2 * |ds| + |ms| + 2 * |ts|
  }

  /** Reads the six fields back out of a stamp with the given separators. */
  function ReadStamp(s: string, ds: string, ms: string, ts: string): DateTime
    requires |s| == StampLength(ds, ms, ts)
  {
    var d, m, t := |ds|, |ms|, |ts|;
    var h := 8 + 2 * d + m;
    DateTime(Value(s[..4]), Value(s[4 + d..6 + d]), Value(s[6 + 2 * d..8 + 2 * d]),
             Value(s[h..h + 2]), Value(s[h + 2 + t..h + 4 + t]), Value(s[h + 4 + 2 * t..h + 6 + 2 * t]))
  }

  /** The middle piece of a concatenation is found at the length of what precedes it. */
  lemma SliceOf(pre: string, x: string, post: string)
    ensures (pre + x + post)[|pre|..|pre| + |x|] == x
  {
    assert (pre + x + post)[|pre|..|pre| + |x|] == (pre + x)[|pre|..];
  }

  /** Where each field of a stamp sits. */
  lemma StampFields(t: DateTime, ds: string, ms: string, ts: string)
    ensures var s, d, n := Stamp(t, ds, ms, ts), |ds|, |ts|;
      var h := 8 + 2 * d + |ms|;
      |s| == StampLength(ds, ms, ts) &&
      s[..4] == Digits(t.year, 4) && s[4 + d..6 + d] == Digits(t.month, 2) &&
      s[6 + 2 * d..8 + 2 * d] == Digits(t.day, 2) && s[h..h + 2] == Digits(t.hour, 2) &&
      s[h + 2 + n..h + 4 + n] == Digits(t.minute, 2) && s[h + 4 + 2 * n..h + 6 + 2 * n] == Digits(t.second, 2)
  {
    var y, mo, da := Digits(t.year, 4), Digits(t.month, 2), Digits(t.day, 2);
    var ho, mi, se := Digits(t.hour, 2), Digits(t.minute, 2), Digits(t.second, 2);
    SliceOf([], y, ds + mo + ds + da + ms + ho + ts + mi + ts + se);
    SliceOf(y + ds, mo, ds + da + ms + ho + ts + mi + ts + se);
    SliceOf(y + ds + mo + ds, da, ms + ho + ts + mi + ts + se);
    SliceOf(y + ds + mo + ds + da + ms, ho, ts + mi + ts + se);
    SliceOf(y + ds + mo + ds + da + ms + ho + ts, mi, ts + se);
    SliceOf(y + ds + mo + ds + da + ms + ho + ts + mi + ts, se, []);
  }

  /** A stamp has its fixed length and gives back the reading it was made from. */
  lemma StampRoundTrip(t: DateTime, ds: string, ms: string, ts: string)
    requires Valid(t)
    ensures |Stamp(t, ds, ms, ts)| == StampLength(ds, ms, ts)
    ensures ReadStamp(Stamp(t, ds, ms, ts), ds, ms, ts) == t
  {
    StampFields(t, ds, ms, ts);
    assert Pow10(2) == 100 && Pow10(4) == 10000;
    ValueOfDigits(t.year, 4);
    ValueOfDigits(t.month, 2);
    ValueOfDigits(t.day, 2);
    ValueOfDigits(t.hour, 2);
    ValueOfDigits(t.minute, 2);
    ValueOfDigits(t.second, 2);
  }

  /** Two different readings never give the same stamp. */
  lemma StampInjective(t1: DateTime, t2: DateTime, ds: string, ms: string, ts: string)
    requires Valid(t1) && Valid(t2)
    requires Stamp(t1, ds, ms, ts) == Stamp(t2, ds, ms, ts)
    ensures t1 == t2
  {
    StampRoundTrip(t1, ds, ms, ts);
    StampRoundTrip(t2, ds, ms, ts);
  }

  /** `strftime("%Y-%m")`: the name of a month folder. */
  function MonthStamp(t: DateTime): (s: string)
    ensures |s| == 7 && s[4] == '-'
    ensures forall k :: 0 <= k < 7 && k != 4 ==> IsDigit(s[k])
  {
    Digits(t.year, 4) + "-" + Digits(t.month, 2)
  }

  /** A month folder name gives back the year and month it was made from. */
  lemma MonthStampRoundTrip(t: DateTime)
    requires Valid(t)
    ensures Value(MonthStamp(t)[..4]) == t.year && Value(MonthStamp(t)[5..]) == t.month
  {
    var s := MonthStamp(t);
    assert s[..4] == Digits(t.year, 4);
    assert s[5..] == Digits(t.month, 2);
    assert Pow10(2) == 100 && Pow10(4) == 10000;
    ValueOfDigits(t.year, 4);
    ValueOfDigits(t.month, 2);
  }
}

/** The text the game's field panel shows for a statistic: times as
    seconds with two decimals, counts zero-padded, scores grouped. */
module Actions {
  import opened Integers

  // ---------------------------------------------------------------------
  // Decimal digits

  predicate IsDigit(c: char) {
    '0' <= c <= '9'
  }

  predicate AllDigits(s: string) {
    forall i :: 0 <= i < |s| ==> IsDigit(s[i])
  }

  function DigitChar(d: nat): (c: char)
    requires d < 10
    ensures IsDigit(c)
  {
    ('0' as int + d) as char
  }

  function DigitValue(c: char): (d: nat)
    requires IsDigit(c)
    ensures d < 10
  {
    (c as int - '0' as int) as nat
  }

  lemma DigitRoundTrip(d: nat)
    requires d < 10
    ensures DigitValue(DigitChar(d)) == d
  {
  }

  function Pow10(k: nat): (p: nat)
    ensures p >= 1
  {
    if k == 0 then 1 else 10 * Pow10(k - 1)
  }

  /** `format!("{}", n)`: the decimal digits of `n`, without leading zeros. */
  function Dec(n: nat): (s: string)
    ensures 1 <= |s| && AllDigits(s)
    ensures n > 0 ==> s[0] != '0'
    decreases n
  {
    if n < 10 then [DigitChar(n)] else Dec(n / 10) + [DigitChar(n % 10)]
  }

  /** The number a string of digits denotes. */
  function ParseDec(s: string): nat
    requires AllDigits(s)
  {
    if s == [] then 0 else 10 * ParseDec(s[..|s| - 1]) + DigitValue(s[|s| - 1])
  }

  /** `format!("{:0>w}", ...)`: `s` right-aligned in `w` characters,
      filled with zeros; longer strings are kept whole. */
  function PadLeft(s: string, w: nat): (r: string)
    ensures |r| == if |s| >= w then |s| else w
    ensures AllDigits(s) ==> AllDigits(r)
  {
    if |s| >= w then s else Zeros(w - |s|) + s
  }

  function Zeros(k: nat): (z: string)
    ensures |z| == k && AllDigits(z)
  {
    seq(k, _ => '0')
  }

  // ---------------------------------------------------------------------
  // The formatter

  /** The panel text for `field` holding `value`. */
  function FormatFieldText(field: string, value: u32): (r: string)
    ensures field == "time" ==> |r| >= 7 && r[|r| - 3] == '.' && AllDigits(r[..|r| - 3]) && AllDigits(r[|r| - 2..])
    ensures field == "score" ==> |r| >= 7 && r[3] == ',' && AllDigits(r[..3]) && AllDigits(r[4..])
    ensures field == "alpha_count" || field == "chain_length" ==> |r| >= 4 && AllDigits(r)
    ensures field !in {"time", "alpha_count", "score", "chain_length"} ==> |r| >= 1 && AllDigits(r)
  {
    if field == "time" then
      assert Pow10(2) == 100;
      DecLength(value % 100, 2);
      PadLeft(Dec(value / 100), 4) + "." + PadLeft(Dec(value % 100), 2)
    else if field == "alpha_count" then
      PadLeft(Dec(value), 4)
    else if field == "score" then
      var valueStr := PadLeft(Dec(value), 6);
      valueStr[..3] + "," + valueStr[3..]
    else if field == "chain_length" then
      PadLeft(Dec(value), 4)
    else
      Dec(value)
  }

  // ---------------------------------------------------------------------
  // Round trips

  lemma {:induction false} DecRoundTrip(n: nat)
    ensures ParseDec(Dec(n)) == n
    decreases n
  {
    if n >= 10 {
      var s := Dec(n);
      assert s[..|s| - 1] == Dec(n / 10);
      DecRoundTrip(n / 10);
      DigitRoundTrip(n % 10);
    } else {
      DigitRoundTrip(n);
    }
  }

  /** A number below `10^k` has at most `k` digits. */
  lemma {:induction false} DecLength(n: nat, k: nat)
    requires n < Pow10(k)
    ensures |Dec(n)| <= k || (n == 0 && k == 0)
    decreases n
  {
    if n >= 10 {
      assert Pow10(0) == 1;
      DivBelowPow(n, k);
      DecLength(n / 10, k - 1);
    }
  }

  lemma DivBelowPow(n: nat, k: nat)
    requires k >= 1 && n < Pow10(k)
    ensures n / 10 < Pow10(k - 1)
  {
  }

  lemma {:induction false} ParseAppend(a: string, b: string)
    requires AllDigits(a) && AllDigits(b)
    ensures AllDigits(a + b)
    ensures ParseDec(a + b) == ParseDec(a) * Pow10(|b|) + ParseDec(b)
    decreases |b|
  {
    var ab := a + b;
    if b == [] {
      assert ab == a;
    } else {
      var b' := b[..|b| - 1];
      var d := DigitValue(b[|b| - 1]);
      assert ab[..|ab| - 1] == a + b';
      assert ab[|ab| - 1] == b[|b| - 1];
      ParseAppend(a, b');
      assert ParseDec(ab) == 10 * ParseDec(a + b') + d;
      assert ParseDec(b) == 10 * ParseDec(b') + d;
      Regroup(ParseDec(a), Pow10(|b'|), ParseDec(b'), d);
    }
  }

  lemma Regroup(x: int, q: int, y: int, d: int)
    ensures 10 * (x * q + y) + d == x * (10 * q) + (10 * y + d)
  {
  }

  lemma {:induction false} ZerosParse(k: nat)
    ensures ParseDec(Zeros(k)) == 0
  {
    if k > 0 {
      assert Zeros(k)[..k - 1] == Zeros(k - 1);
      ZerosParse(k - 1);
    }
  }

  /** Zero padding does not change the number. */
  lemma PadParse(s: string, w: nat)
    requires AllDigits(s)
    ensures ParseDec(PadLeft(s, w)) == ParseDec(s)
  {
    if |s| < w {
      var z := Zeros(w - |s|);
      assert PadLeft(s, w) == z + s;
      ParseAppend(z, s);
      ZerosParse(w - |s|);
      assert ParseDec(z) * Pow10(|s|) == 0;
    }
  }

  /** Dropping the decimal point from a time and reading the digits gives
      back the number of centiseconds; the point always sits before the last
      two digits. */
  lemma TimeRoundTrip(value: u32)
    ensures var t := FormatFieldText("time", value);
      |t| >= 7 && t[|t| - 3] == '.' && AllDigits(t[..|t| - 3] + t[|t| - 2..])
      && ParseDec(t[..|t| - 3] + t[|t| - 2..]) == value
  {
    var whole, cents := PadLeft(Dec(value / 100), 4), PadLeft(Dec(value % 100), 2);
    DecLength(value % 100, 2);
    assert |cents| == 2;
    var t := FormatFieldText("time", value);
    assert t == whole + "." + cents;
    assert t[..|t| - 3] == whole && t[|t| - 2..] == cents;
    ParseAppend(whole, cents);
    PadParse(Dec(value / 100), 4);
    PadParse(Dec(value % 100), 2);
    DecRoundTrip(value / 100);
    DecRoundTrip(value % 100);
  }

  /** Dropping the separator from a score and reading the digits gives back
      the score; the separator always follows the first three characters. */
  lemma ScoreRoundTrip(value: u32)
    ensures var t := FormatFieldText("score", value);
      |t| >= 7 && t[3] == ',' && AllDigits(t[..3] + t[4..]) && ParseDec(t[..3] + t[4..]) == value
  {
    var valueStr := PadLeft(Dec(value), 6);
    var t := FormatFieldText("score", value);
    assert t[..3] + t[4..] == valueStr;
    PadParse(Dec(value), 6);
    DecRoundTrip(value);
  }

  /** Counts are padded to four digits and never cut; other names show the
      plain number. */
  lemma CountRoundTrip(field: string, value: u32)
    ensures field == "alpha_count" || field == "chain_length" ==>
      |FormatFieldText(field, value)| == (if |Dec(value)| >= 4 then |Dec(value)| else 4)
      && AllDigits(FormatFieldText(field, value)) && ParseDec(FormatFieldText(field, value)) == value
    ensures field !in {"time", "alpha_count", "score", "chain_length"} ==> FormatFieldText(field, value) == Dec(value)
  {
    PadParse(Dec(value), 4);
    DecRoundTrip(value);
  }

  lemma TimeExample()
    ensures FormatFieldText("time", 12345) == "0123.45"
  {
    assert Dec(12) == "12";
    assert Dec(123) == Dec(12) + "3" == "123";
    assert Zeros(1) == "0";
    assert Dec(45) == "45";
    TimeText(12345, "0123", "45");
  }

  /** The time text joined around its decimal point. */
  lemma TimeText(value: u32, whole: string, cents: string)
    requires PadLeft(Dec(value / 100), 4) == whole && PadLeft(Dec(value % 100), 2) == cents
    ensures FormatFieldText("time", value) == whole + "." + cents
  {
  }

  lemma ScoreExample()
    ensures FormatFieldText("score", 1234) == "001,234"
  {
    assert Dec(12) == "12";
    assert Dec(123) == Dec(12) + "3";
    assert Dec(1234) == Dec(123) + "4" == "1234";
    assert Zeros(2) == "00";
    ScoreText(1234, "001234");
  }

  /** The score text cut around its separator. */
  lemma ScoreText(value: u32, digits: string)
    requires PadLeft(Dec(value), 6) == digits
    ensures FormatFieldText("score", value) == digits[..3] + "," + digits[3..]
  {
    assert "score" != "time" && "score" != "alpha_count";
  }

  lemma CountExample()
    ensures FormatFieldText("alpha_count", 7) == "0007"
    ensures FormatFieldText("level", 42) == "42"
  {
    assert Dec(42) == "42";
  }
}

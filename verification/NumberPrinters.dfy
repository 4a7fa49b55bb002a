/** Two programs print the same numbers: the broker from a database decimal, the bot from a float
    that came over JSON. Floats are read as exact. */
module NumberPrinters {
  import opened Wrappers

  /** Sign, coefficient and exponent, as Python's `Decimal` holds them. */
  datatype Dec = Dec(negative: bool, coefficient: nat, exponent: int)

  const SCALE: nat := 8

  const MISSING := "\U{2014}"

  function Pow10(k: nat): (p: nat)
    ensures p > 0
  {
    if k == 0 then 1 else 10 * Pow10(k - 1)
  }

  function Quotient(n: nat, d: nat): nat
    requires d > 0
  {
    n / d
  }

  function Remainder(n: nat, d: nat): nat
    requires d > 0
  {
    n % d
  }

  function DigitChar(d: nat): char
    requires d < 10
  {
    '0' + d as char
  }

  function Digits(n: nat): (s: string)
    ensures s != []
  {
    if n < 10 then [DigitChar(n)] else Digits(n / 10) + [DigitChar(n % 10)]
  }

  function Zeros(k: nat): (s: string)
    ensures |s| == k && forall c <- s :: c == '0'
  {
    seq(k, i => '0')
  }

  // ── The broker's printer ───────────────────────────────────────────

  /** `Decimal.normalize`, for coefficients within the context's precision. */
  function Normalised(d: Dec): (r: Dec)
    ensures r.negative == d.negative
    ensures r.coefficient == 0 ==> r.exponent == 0
    ensures r.coefficient % 10 == 0 ==> r.coefficient == 0
    decreases d.coefficient
  {
    if d.coefficient == 0 then Dec(d.negative, 0, 0)
    else if d.coefficient % 10 == 0 then Normalised(Dec(d.negative, d.coefficient / 10, d.exponent + 1))
    else d
  }

  /** The digits with a point before the last `k` of them, padded on the left as far as needed. */
  function PointBefore(digits: string, k: nat): string {
    if |digits| > k then digits[..|digits| - k] + "." + digits[|digits| - k..]
    else "0." + Zeros(k - |digits|) + digits
  }

  /** `f"{d:f}"` of a decimal without a positive exponent. */
  function Plain(d: Dec): string
    requires d.exponent <= 0
  {
    (if d.negative then "-" else "")
    + if d.exponent == 0 then Digits(d.coefficient) else PointBefore(Digits(d.coefficient), -d.exponent)
  }

  function Broker(d: Dec): string {
    var n := Normalised(d);
    Plain(if n.exponent > 0 then Dec(n.negative, n.coefficient * Pow10(n.exponent), 0) else n)
  }

  /** `format_number`. */
  method FormatNumber(value: Option<Dec>) returns (text: string)
    ensures text == if value.None? then MISSING else Broker(value.value)
  {
    if value.None? {
      return MISSING;
    }
    var normalised := Normalised(value.value);
    if normalised.exponent > 0 {
      normalised := Dec(normalised.negative, normalised.coefficient * Pow10(normalised.exponent), 0);
    }
    return Plain(normalised);
  }

  // ── The bot's printer ──────────────────────────────────────────────

  /** `k` digits of `n`, the last ones. */
  function LastDigits(n: nat, k: nat): (s: string)
    ensures |s| == k
  {
    if k == 0 then "" else LastDigits(n / 10, k - 1) + [DigitChar(n % 10)]
  }

  /** `f"{x:.kf}"` of `magnitude / 10^k`. */
  function Fixed(magnitude: nat, k: nat): string {
    Digits(Quotient(magnitude, Pow10(k))) + "." + LastDigits(Remainder(magnitude, Pow10(k)), k)
  }

  function RStrip(s: string, c: char): string {
    if s != [] && s[|s| - 1] == c then RStrip(s[..|s| - 1], c) else s
  }

  /** A value in units of `10^-8`. */
  function Bot(negative: bool, magnitude: nat): string {
    (if negative then "-" else "") + RStrip(RStrip(Fixed(magnitude, SCALE), '0'), '.')
  }

  /** `n / m`, to the nearest whole number; a tie goes to the even one. */
  function RoundHalfEven(n: nat, m: nat): nat
    requires m > 0
  {
    var q, r := Quotient(n, m), Remainder(n, m);
    if 2 * r < m then q else if 2 * r > m then q + 1 else q + q % 2
  }

  /** The value in hundred-millionths, rounded the way `:.8f` rounds. */
  function Scaled(d: Dec): nat {
    if d.exponent >= 0 - SCALE then d.coefficient * Pow10(d.exponent + SCALE)
    else RoundHalfEven(d.coefficient, Pow10(0 - SCALE - d.exponent))
  }

  /** `_num`. */
  method Num(value: Option<Dec>) returns (text: string)
    ensures text == if value.None? then MISSING else Bot(value.value.negative, Scaled(value.value))
  {
    if value.None? {
      return MISSING;
    }
    var sign := if value.value.negative then "-" else "";
    var magnitude := Scaled(value.value);
    var fixed := sign + Fixed(magnitude, SCALE);
    StrippedIsText(magnitude, SCALE);
    TextIsNotEmpty(magnitude, SCALE);
    RStripWithPrefix(sign, Fixed(magnitude, SCALE));
    text := RStrip(RStrip(fixed, '0'), '.');
    if text == "" {
      text := "0";
    }
  }

  lemma {:induction false} RStripPrefix(prefix: string, s: string, c: char)
    requires RStrip(s, c) != []
    ensures RStrip(prefix + s, c) == prefix + RStrip(s, c)
    decreases |s|
  {
    if s != [] && s[|s| - 1] == c {
      assert (prefix + s)[..|prefix + s| - 1] == prefix + s[..|s| - 1];
      RStripPrefix(prefix, s[..|s| - 1], c);
    }
  }

  // ── One form for both ──────────────────────────────────────────────

  /** The shortest plain writing of `c / 10^k`. */
  function Text(c: nat, k: nat): string {
    if k == 0 then Digits(c)
    else if c % 10 == 0 then Text(c / 10, k - 1)
    else Fixed(c, k)
  }

  lemma PowStep(c: nat, k: nat)
    requires k > 0
    ensures c / Pow10(k) == (c / 10) / Pow10(k - 1)
    ensures (c % Pow10(k)) / 10 == (c / 10) % Pow10(k - 1)
    ensures (c % Pow10(k)) % 10 == c % 10
  {
    var p := Pow10(k - 1);
    var q, r := (c / 10) / p, (c / 10) % p;
    assert c / 10 == p * q + r;
    assert c == 10 * (p * q + r) + c % 10;
    assert 10 * (p * q) == (10 * p) * q;
    var low := 10 * r + c % 10;
    assert 0 <= low < 10 * p;
    DivisionIsUnique(c, 10 * p, q, low);
  }

  lemma DivisionIsUnique(c: nat, d: nat, q: nat, r: nat)
    requires 0 <= r < d && c == d * q + r
    ensures c / d == q && c % d == r
  {
    var x := c / d - q;
    assert d * x == r - c % d;
    if x != 0 {
      NoMultipleBetween(d, x);
    }
  }

  lemma NoMultipleBetween(d: nat, x: int)
    requires d > 0 && x != 0
    ensures d * x >= d || d * x <= 0 - d
  {
    if x > 0 {
      Distributes(d, x - 1, 1);
      assert d * (x - 1) >= 0;
    } else {
      Distributes(d, x + 1, -1);
      assert d * (0 - x - 1) >= 0;
      Distributes(d, x + 1, 0 - x - 1);
    }
  }

  lemma Distributes(d: int, x: int, y: int)
    ensures d * (x + y) == d * x + d * y
  {
  }

  /** A fixed writing is the one of a digit less, and that digit. */
  lemma FixedStep(c: nat, k: nat)
    requires k > 0
    ensures Fixed(c, k) == Fixed(c / 10, k - 1) + [DigitChar(c % 10)]
  {
    PowStep(c, k);
  }

  lemma FixedZero(c: nat)
    ensures Fixed(c, 0) == Digits(c) + "."
  {
    assert c / 1 == c;
  }

  /** Putting the point among the digits of `c` is the fixed writing of `c / 10^k`. */
  lemma {:induction false} PointBeforeIsFixed(c: nat, k: nat)
    ensures PointBefore(Digits(c), k) == Fixed(c, k)
    decreases k
  {
    if k == 0 {
      FixedZero(c);
      assert Digits(c)[..|Digits(c)|] == Digits(c);
    } else {
      FixedStep(c, k);
      PointBeforeIsFixed(c / 10, k - 1);
      PointStep(c, k);
    }
  }

  lemma PointStep(c: nat, k: nat)
    requires k > 0
    ensures PointBefore(Digits(c), k) == PointBefore(Digits(c / 10), k - 1) + [DigitChar(c % 10)]
  {
    if c >= 10 {
      PointAppend(Digits(c / 10), [DigitChar(c % 10)], k);
    } else if k == 1 {
      assert Digits(c / 10) == "0" && Digits(c / 10)[1..] == "";
    } else {
      assert Zeros(k - 1) == Zeros(k - 2) + "0";
      assert Digits(c) == [DigitChar(c % 10)] && Digits(c / 10) == "0";
    }
  }

  lemma PointAppend(d: string, x: string, k: nat)
    requires k > 0 && |x| == 1 && d != []
    ensures PointBefore(d + x, k) == PointBefore(d, k - 1) + x
  {
    if |d| > k - 1 {
      var i := |d| + 1 - k;
      assert (d + x)[..i] == d[..i];
      assert (d + x)[i..] == d[i..] + x;
    } else {
      assert Zeros(k - |d + x|) == Zeros(k - 1 - |d|);
    }
  }

  lemma TimesTen(x: nat, y: nat)
    ensures x * (10 * y) == (10 * x) * y == 10 * (x * y)
  {
  }

  /** Trailing zeros taken off a whole number are put back. */
  lemma {:induction false} NormalisedInteger(d: Dec)
    requires d.exponent >= 0
    ensures var n := Normalised(d);
            n.exponent >= 0 && n.coefficient * Pow10(n.exponent) == d.coefficient * Pow10(d.exponent)
    decreases d.coefficient
  {
    if d.coefficient != 0 && d.coefficient % 10 == 0 {
      var next := Dec(d.negative, d.coefficient / 10, d.exponent + 1);
      NormalisedInteger(next);
      TimesTen(next.coefficient, Pow10(d.exponent));
    }
  }

  lemma {:induction false} DigitsEnd(c: nat)
    ensures Digits(c)[|Digits(c)| - 1] == DigitChar(c % 10)
  {
  }

  lemma StrippedWhole(c: nat)
    ensures RStrip(Fixed(c, 0), '0') == Digits(c) + "."
    ensures RStrip(Digits(c) + ".", '.') == Digits(c)
  {
    FixedZero(c);
    DigitsEnd(c);
    assert (Digits(c) + ".")[..|Digits(c)|] == Digits(c);
    assert DigitChar(c % 10) != '.';
  }

  lemma {:induction false} StrippedIsText(c: nat, k: nat)
    ensures RStrip(RStrip(Fixed(c, k), '0'), '.') == Text(c, k)
    ensures RStrip(Fixed(c, k), '0') != []
    decreases k
  {
    if k == 0 {
      StrippedWhole(c);
    } else {
      FixedStep(c, k);
      var f := Fixed(c / 10, k - 1);
      assert (f + [DigitChar(c % 10)])[..|f|] == f;
      if c % 10 == 0 {
        StrippedIsText(c / 10, k - 1);
      } else {
        assert DigitChar(c % 10) != '0' && DigitChar(c % 10) != '.';
      }
    }
  }

  lemma {:induction false} TextIsNotEmpty(c: nat, k: nat)
    ensures Text(c, k) != []
  {
    if k > 0 && c % 10 == 0 {
      TextIsNotEmpty(c / 10, k - 1);
    }
  }

  lemma RStripWithPrefix(prefix: string, fixed: string)
    requires RStrip(fixed, '0') != [] && RStrip(RStrip(fixed, '0'), '.') != []
    ensures RStrip(RStrip(prefix + fixed, '0'), '.') == prefix + RStrip(RStrip(fixed, '0'), '.')
  {
    RStripPrefix(prefix, fixed, '0');
    RStripPrefix(prefix, RStrip(fixed, '0'), '.');
  }

  // ── Reading it back ────────────────────────────────────────────────

  function DigitOf(c: char): nat {
    if '0' <= c <= '9' then (c - '0') as nat else 0
  }

  function ValueOf(s: string): nat {
    if s == [] then 0 else 10 * ValueOf(s[..|s| - 1]) + DigitOf(s[|s| - 1])
  }

  predicate AllDigits(s: string) {
    forall c <- s :: '0' <= c <= '9'
  }

  /** The place of the point, or the end. */
  function PointAt(s: string): (i: nat)
    ensures i <= |s|
    ensures forall j | 0 <= j < i :: s[j] != '.'
    ensures i < |s| ==> s[i] == '.'
  {
    if s == [] || s[0] == '.' then 0 else 1 + PointAt(s[1..])
  }

  /** Plain decimal notation: digits, and after a point more of them. */
  function ParseMagnitude(s: string): Option<Dec> {
    var i := PointAt(s);
    var whole, rest := s[..i], if i < |s| then s[i + 1..] else "";
    if whole == "" || !AllDigits(whole + rest) || (i < |s| && rest == "") then None
    else Some(Dec(false, ValueOf(whole + rest), 0 - |rest|))
  }

  function Parse(s: string): Option<Dec> {
    if s != [] && s[0] == '-' then
      var d := ParseMagnitude(s[1..]);
      if d.Some? then Some(d.value.(negative := true)) else None
    else ParseMagnitude(s)
  }

  /** Both stand for the same number: equal signs, and equal once brought to `10^-k`. */
  predicate SameNumber(a: Dec, b: Dec, k: nat) {
    && a.negative == b.negative && -(k as int) <= a.exponent && -(k as int) <= b.exponent
    && a.coefficient * Pow10(k + a.exponent) == b.coefficient * Pow10(k + b.exponent)
  }

  lemma {:induction false} DigitsRead(n: nat)
    ensures AllDigits(Digits(n)) && ValueOf(Digits(n)) == n
  {
    if n >= 10 {
      DigitsRead(n / 10);
      assert Digits(n)[..|Digits(n)| - 1] == Digits(n / 10);
    } else {
      assert Digits(n)[..0] == "";
    }
  }

  /** A fixed writing with at least one decimal is a whole part, a point, and `k` digits, which
      together are the digits of the number. */
  lemma DigitReads(d: nat)
    requires d < 10
    ensures '0' <= DigitChar(d) <= '9' && DigitOf(DigitChar(d)) == d && DigitChar(d) != '.' && (DigitChar(d) == '0' ==> d == 0)
  {
  }

  lemma OneMoreDigit(s: string, d: nat)
    requires d < 10
    ensures ValueOf(s + [DigitChar(d)]) == 10 * ValueOf(s) + d
    ensures AllDigits(s) ==> AllDigits(s + [DigitChar(d)])
  {
    DigitReads(d);
    assert (s + [DigitChar(d)])[..|s|] == s;
  }

  /** A fixed writing taken apart at its point. */
  function Parts(c: nat, k: nat): (p: (string, string))
    ensures |p.1| == k
  {
    if k == 0 then (Digits(c), "")
    else var p := Parts(c / 10, k - 1); (p.0, p.1 + [DigitChar(c % 10)])
  }

  lemma {:induction false} FixedInParts(c: nat, k: nat)
    ensures Fixed(c, k) == Parts(c, k).0 + "." + Parts(c, k).1
  {
    if k == 0 {
      FixedZero(c);
    } else {
      FixedStep(c, k);
      FixedInParts(c / 10, k - 1);
    }
  }

  /** The whole part and the decimals are together the digits of the number. */
  lemma {:induction false} PartsRead(c: nat, k: nat)
    ensures Parts(c, k).0 != "" && AllDigits(Parts(c, k).0) && AllDigits(Parts(c, k).1)
    ensures ValueOf(Parts(c, k).0 + Parts(c, k).1) == c
    ensures Parts(c, k).0[0] == '0' ==> |Parts(c, k).0| == 1
  {
    if k == 0 {
      DigitsRead(c);
      DigitsStart(c);
      assert Digits(c) + "" == Digits(c);
    } else {
      PartsRead(c / 10, k - 1);
      OneMoreDecimal(Parts(c / 10, k - 1).0, Parts(c / 10, k - 1).1, c);
    }
  }

  lemma OneMoreDecimal(whole: string, rest: string, c: nat)
    requires AllDigits(rest) && ValueOf(whole + rest) == c / 10
    ensures AllDigits(rest + [DigitChar(c % 10)]) && ValueOf(whole + (rest + [DigitChar(c % 10)])) == c
  {
    OneMoreDigit(whole + rest, c % 10);
    OneMoreDigit(rest, c % 10);
    assert whole + (rest + [DigitChar(c % 10)]) == (whole + rest) + [DigitChar(c % 10)];
  }

  lemma {:induction false} PointFound(whole: string, rest: string)
    requires AllDigits(whole)
    ensures PointAt(whole + "." + rest) == |whole|
    ensures PointAt(whole) == |whole|
  {
    if whole != [] {
      assert whole[0] in whole;
      assert forall c <- whole[1..] :: c in whole;
      PointFound(whole[1..], rest);
      assert (whole + "." + rest)[1..] == whole[1..] + "." + rest;
    }
  }

  lemma ParseWhole(whole: string)
    requires AllDigits(whole) && whole != ""
    ensures ParseMagnitude(whole) == Some(Dec(false, ValueOf(whole), 0))
  {
    PointFound(whole, "");
    assert whole[..|whole|] == whole && whole + "" == whole;
  }

  lemma ParsePointed(whole: string, rest: string)
    requires AllDigits(whole) && whole != "" && AllDigits(rest) && rest != ""
    ensures ParseMagnitude(whole + "." + rest) == Some(Dec(false, ValueOf(whole + rest), 0 - |rest|))
  {
    PointFound(whole, rest);
    var s := whole + "." + rest;
    assert s[..|whole|] == whole && s[|whole| + 1..] == rest;
    assert AllDigits(whole + rest);
  }

  lemma ScaleUp(d: Dec, c: nat, k: nat)
    requires k > 0 && SameNumber(d, Dec(false, c, 0 - (k - 1)), k - 1)
    ensures SameNumber(d, Dec(false, 10 * c, 0 - k), k)
  {
    assert Pow10(k + d.exponent) == 10 * Pow10(k - 1 + d.exponent);
    var x, p := d.coefficient, Pow10(k - 1 + d.exponent);
    assert x * (10 * p) == 10 * (x * p);
    assert x * p == c * Pow10(0);
  }

  /** The short writing reads back as the number it was made of. */
  lemma {:induction false} TextReads(c: nat, k: nat)
    ensures var d := ParseMagnitude(Text(c, k)); d.Some? && SameNumber(d.value, Dec(false, c, 0 - k), k)
    decreases k
  {
    if k == 0 {
      DigitsRead(c);
      ParseWhole(Digits(c));
    } else if c % 10 == 0 {
      TextReads(c / 10, k - 1);
      ScaleUp(ParseMagnitude(Text(c / 10, k - 1)).value, c / 10, k);
    } else {
      FixedParses(c, k);
    }
  }

  lemma FixedParses(c: nat, k: nat)
    requires k > 0
    ensures ParseMagnitude(Fixed(c, k)) == Some(Dec(false, c, 0 - k))
  {
    FixedInParts(c, k);
    PartsRead(c, k);
    ParsePointed(Parts(c, k).0, Parts(c, k).1);
  }

  lemma {:induction false} DigitsStart(n: nat)
    ensures '0' <= Digits(n)[0] <= '9' && (Digits(n)[0] == '0' ==> n == 0)
  {
    if n >= 10 {
      DigitsStart(n / 10);
    }
  }

  lemma {:induction false} TextStart(c: nat, k: nat)
    ensures Text(c, k) != [] && '0' <= Text(c, k)[0] <= '9'
    decreases k
  {
    if k == 0 {
      DigitsStart(c);
    } else if c % 10 == 0 {
      TextStart(c / 10, k - 1);
    } else {
      FixedInParts(c, k);
      PartsRead(c, k);
      assert Parts(c, k).0[0] in Parts(c, k).0;
    }
  }

  function Signed(negative: bool, text: string): string {
    (if negative then "-" else "") + text
  }

  lemma SignedReads(negative: bool, c: nat, k: nat)
    ensures
      var d := Parse(Signed(negative, Text(c, k)));
      d.Some? && SameNumber(d.value, Dec(negative, c, 0 - k), k)
  {
    TextReads(c, k);
    TextStart(c, k);
    if negative {
      assert Signed(negative, Text(c, k))[1..] == Text(c, k);
    } else {
      assert Signed(negative, Text(c, k)) == Text(c, k);
    }
  }

  /** Nothing of the number is lost in print, by either program. */
  lemma PrintedNumberReadsBack(negative: bool, n: nat)
    ensures
      var d := Parse(Bot(negative, n));
      d.Some? && SameNumber(d.value, Dec(negative, n, -8), 8)
  {
    BotIsSigned(negative, n, SCALE);
    SignedReads(negative, n, SCALE);
  }

  lemma BotIsSigned(negative: bool, n: nat, k: nat)
    requires k == SCALE
    ensures Bot(negative, n) == Signed(negative, Text(n, k))
  {
    StrippedIsText(n, k);
  }

  // ── And nothing is written twice over ──────────────────────────────

  /** No exponent, no needless zero in front, and none behind a point. */
  predicate Tidy(s: string) {
    var i := PointAt(s);
    && i > 0 && AllDigits(s[..i])
    && (s[0] == '0' ==> i == 1)
    && (i < |s| ==> i + 1 < |s| && AllDigits(s[i + 1..]) && s[|s| - 1] != '0')
  }

  lemma {:induction false} TextIsTidy(c: nat, k: nat)
    ensures Tidy(Text(c, k))
    decreases k
  {
    if k == 0 {
      DigitsRead(c);
      DigitsStart(c);
      PointFound(Digits(c), "");
      assert Digits(c)[..|Digits(c)|] == Digits(c);
    } else if c % 10 == 0 {
      TextIsTidy(c / 10, k - 1);
    } else {
      FixedIsTidy(c, k);
    }
  }

  lemma FixedIsTidy(c: nat, k: nat)
    requires k > 0 && c % 10 != 0
    ensures Tidy(Fixed(c, k))
  {
    FixedInParts(c, k);
    PartsRead(c, k);
    var (whole, rest) := Parts(c, k);
    PointFound(whole, rest);
    DigitReads(c % 10);
    assert Fixed(c, k)[..|whole|] == whole && Fixed(c, k)[|whole| + 1..] == rest;
  }

  lemma PrintsTidily(negative: bool, n: nat)
    ensures Bot(negative, n) != "" && (negative ==> Bot(negative, n)[0] == '-')
    ensures Tidy(if negative then Bot(negative, n)[1..] else Bot(negative, n))
  {
    BotIsSigned(negative, n, SCALE);
    SignedIsTidy(negative, n, SCALE);
  }

  lemma SignedIsTidy(negative: bool, c: nat, k: nat)
    ensures var s := Signed(negative, Text(c, k));
            s != "" && (negative ==> s[0] == '-') && Tidy(if negative then s[1..] else s)
  {
    TextIsTidy(c, k);
    TextStart(c, k);
    if negative {
      assert Signed(negative, Text(c, k))[1..] == Text(c, k);
    } else {
      assert Signed(negative, Text(c, k)) == Text(c, k);
    }
  }

  // ── When the two agree ─────────────────────────────────────────────

  lemma NearestIsClose(n: nat, m: nat)
    requires m > 0
    ensures 0 - m <= 2 * (RoundHalfEven(n, m) * m - n) <= m
    ensures 2 * (RoundHalfEven(n, m) * m - n) in {0 - m, m} ==> RoundHalfEven(n, m) % 2 == 0
  {
    var q, r := n / m, n % m;
    assert n == m * q + r;
    assert (q + 1) * m == q * m + m;
  }

  /** A trailing zero of the coefficient makes no difference to the bot's value. */
  lemma ScaledStep(d: Dec)
    requires d.coefficient % 10 == 0
    ensures Scaled(d) == Scaled(Dec(d.negative, d.coefficient / 10, d.exponent + 1))
  {
    var x := d.coefficient / 10;
    if d.exponent >= 0 - SCALE {
      TimesTen(x, Pow10(d.exponent + SCALE));
    } else {
      RoundTens(x, Pow10(0 - SCALE - d.exponent - 1));
      if d.exponent + 1 == 0 - SCALE {
        assert Quotient(x, 1) == x && Remainder(x, 1) == 0;
        assert x * Pow10(0) == x;
      }
    }
  }

  lemma RoundTens(x: nat, m: nat)
    requires m > 0
    ensures RoundHalfEven(10 * x, 10 * m) == RoundHalfEven(x, m)
  {
    var q, r := x / m, x % m;
    assert x == m * q + r;
    assert 10 * x == 10 * (m * q) + 10 * r == (10 * m) * q + 10 * r;
    DivisionIsUnique(10 * x, 10 * m, q, 10 * r);
  }

  lemma {:induction false} ScaledNormalised(d: Dec)
    ensures Scaled(Normalised(d)) == Scaled(d)
    decreases d.coefficient
  {
    if d.coefficient == 0 {
      ZeroScaled(d);
      ZeroScaled(Normalised(d));
    } else if d.coefficient % 10 == 0 {
      ScaledStep(d);
      ScaledNormalised(Dec(d.negative, d.coefficient / 10, d.exponent + 1));
    }
  }

  lemma ZeroScaled(d: Dec)
    requires d.coefficient == 0
    ensures Scaled(d) == 0
  {
    if d.exponent < 0 - SCALE {
      DivisionIsUnique(0, Pow10(0 - SCALE - d.exponent), 0, 0);
    }
  }

  lemma Tenfold(x: nat)
    ensures (10 * x) % 10 == 0 && (10 * x) / 10 == x
  {
  }

  lemma {:induction false} TextOfMore(c: nat, k: nat, j: nat)
    ensures Text(c * Pow10(j), k + j) == Text(c, k)
    decreases j
  {
    if j == 0 {
      TimesOne(c);
    } else {
      var x := c * Pow10(j - 1);
      TimesTen(c, Pow10(j - 1));
      assert c * Pow10(j) == 10 * x;
      Tenfold(x);
      TextOfMore(c, k, j - 1);
    }
  }

  lemma TimesOne(c: nat)
    ensures c * Pow10(0) == c
  {
  }

  /** What the broker prints of a normalised number, apart from the sign. */
  function Shortest(n: Dec): string {
    if n.exponent >= 0 then Digits(n.coefficient * Pow10(n.exponent)) else PointBefore(Digits(n.coefficient), 0 - n.exponent)
  }

  lemma BrokerIsSigned(d: Dec)
    ensures Broker(d) == Signed(d.negative, Shortest(Normalised(d)))
  {
    TimesOne(Normalised(d).coefficient);
  }

  /** Numbers of at most so many decimals are printed the same, whichever way. */
  lemma ShortAgree(n: Dec, k: nat)
    requires n.exponent >= 0 - k && (n.exponent < 0 ==> n.coefficient % 10 != 0)
    ensures Shortest(n) == Text(n.coefficient * Pow10(n.exponent + k), k)
  {
    if n.exponent >= 0 {
      PowSum(n.coefficient, n.exponent, k);
      TextOfMore(n.coefficient * Pow10(n.exponent), 0, k);
    } else {
      TextOfMore(n.coefficient, 0 - n.exponent, n.exponent + k);
      PointBeforeIsFixed(n.coefficient, 0 - n.exponent);
    }
  }

  lemma {:induction false} PowSum(c: nat, i: nat, j: nat)
    ensures c * Pow10(i + j) == (c * Pow10(i)) * Pow10(j)
    decreases j
  {
    if j == 0 {
      assert (c * Pow10(i)) * 1 == c * Pow10(i);
    } else {
      PowSum(c, i, j - 1);
      TimesTen(c, Pow10(i + j - 1));
      TimesTen(c * Pow10(i), Pow10(j - 1));
      assert (10 * c) * Pow10(i + j - 1) == 10 * (c * Pow10(i + j - 1));
      assert (10 * (c * Pow10(i))) * Pow10(j - 1) == 10 * ((c * Pow10(i)) * Pow10(j - 1));
    }
  }

  /** Digits behind the point. */
  function Decimals(s: string): nat {
    if PointAt(s) < |s| then |s| - PointAt(s) - 1 else 0
  }

  lemma FixedDecimals(c: nat, k: nat)
    ensures Decimals(Fixed(c, k)) == k
  {
    FixedInParts(c, k);
    PartsRead(c, k);
    PointFound(Parts(c, k).0, Parts(c, k).1);
  }

  lemma {:induction false} TextDecimals(c: nat, k: nat)
    ensures Decimals(Text(c, k)) <= k
    decreases k
  {
    if k == 0 {
      DigitsRead(c);
      PointFound(Digits(c), "");
    } else if c % 10 == 0 {
      TextDecimals(c / 10, k - 1);
    } else {
      FixedDecimals(c, k);
    }
  }

  lemma LongDiffer(n: Dec, c: nat, k: nat)
    requires n.exponent < 0 - k
    ensures Shortest(n) != Text(c, k)
  {
    PointBeforeIsFixed(n.coefficient, 0 - n.exponent);
    FixedDecimals(n.coefficient, 0 - n.exponent);
    TextDecimals(c, k);
  }

  lemma AgreeIffShort(d: Dec, k: nat)
    requires k == SCALE
    ensures Shortest(Normalised(d)) == Text(Scaled(d), k) <==> Normalised(d).exponent >= 0 - k
  {
    var n := Normalised(d);
    ScaledNormalised(d);
    if n.exponent >= 0 - k {
      NormalisedTail(d);
      ShortAgree(n, k);
    } else {
      LongDiffer(n, Scaled(d), k);
    }
  }

  lemma {:induction false} NormalisedTail(d: Dec)
    ensures Normalised(d).exponent < 0 ==> Normalised(d).coefficient % 10 != 0
    decreases d.coefficient
  {
    if d.coefficient != 0 && d.coefficient % 10 == 0 {
      NormalisedTail(Dec(d.negative, d.coefficient / 10, d.exponent + 1));
    }
  }

  /** The two programs print the same text exactly for the numbers of at most eight decimals, which
      are those a NUMERIC(20,8) column can hold; the bot rounds the others to the nearest. */
  lemma PrintersAgreeIff(d: Dec)
    ensures Broker(d) == Bot(d.negative, Scaled(d)) <==> Normalised(d).exponent >= -8
  {
    BrokerIsSigned(d);
    BotIsSigned(d.negative, Scaled(d), SCALE);
    AgreeIffShort(d, SCALE);
    SignedIsInjective(d.negative, Shortest(Normalised(d)), Text(Scaled(d), SCALE));
  }

  lemma SignedIsInjective(negative: bool, x: string, y: string)
    ensures Signed(negative, x) == Signed(negative, y) <==> x == y
  {
    if negative {
      assert Signed(negative, x)[1..] == x && Signed(negative, y)[1..] == y;
    } else {
      assert Signed(negative, x) == x && Signed(negative, y) == y;
    }
  }

  /** What the bot prints of any other number is off by at most half a hundred-millionth, and of two as
      near it is the even one. */
  lemma BotRoundsToNearest(d: Dec)
    requires d.exponent < 0 - SCALE
    ensures
      var m := Pow10(0 - SCALE - d.exponent);
      && 0 - m <= 2 * (Scaled(d) * m - d.coefficient) <= m
      && (2 * (Scaled(d) * m - d.coefficient) in {0 - m, m} ==> Scaled(d) % 2 == 0)
  {
    NearestIsClose(d.coefficient, Pow10(0 - SCALE - d.exponent));
  }

  /** In particular for every value the column can hold. */
  lemma PrintersAgree(negative: bool, n: nat)
    ensures Scaled(Dec(negative, n, -8)) == n
    ensures Broker(Dec(negative, n, -8)) == Bot(negative, n)
  {
    var d := Dec(negative, n, 0 - SCALE);
    assert n * Pow10(0) == n;
    NormalisedGrows(d);
    PrintersAgreeIff(d);
  }

  lemma {:induction false} NormalisedGrows(d: Dec)
    requires d.exponent <= 0
    ensures Normalised(d).exponent >= d.exponent
    decreases d.coefficient
  {
    if d.coefficient != 0 && d.coefficient % 10 == 0 && d.exponent < 0 {
      NormalisedGrows(Dec(d.negative, d.coefficient / 10, d.exponent + 1));
    } else if d.exponent == 0 {
      NormalisedInteger(d);
    }
  }
}

/** CreditAmount: decimal credits in text, millionths of a credit in store, and nothing lost in between. */
module Credits {
  import opened Wrappers
  import opened Model
  import opened Text

  const MICRO := 1_000_000

  // Digits

  predicate IsDigit(c: char) {
    '0' <= c <= '9'
  }

  predicate AllDigits(s: string) {
    forall i | 0 <= i < |s| :: IsDigit(s[i])
  }

  function DigitValue(c: char): (n: nat)
    requires IsDigit(c)
    ensures n < 10
  {
    c as int - '0' as int
  }

  function DigitChar(n: nat): (c: char)
    requires n < 10
    ensures IsDigit(c) && DigitValue(c) == n
  {
    ('0' as int + n) as char
  }

  /** The number a run of digits denotes. */
  function NumberOf(s: string): nat
    requires AllDigits(s)
  {
    if s == "" then 0 else NumberOf(s[..|s| - 1]) * 10 + DigitValue(s[|s| - 1])
  }

  function Pow10(n: nat): (p: nat)
    ensures p > 0
  {
    if n == 0 then 1 else 10 * Pow10(n - 1)
  }

  // What the text means, independently of how it is read

  function DotAt(s: string): (r: Option<nat>)
    ensures r.Some? ==> r.value < |s| && s[r.value] == '.' && '.' !in s[..r.value]
    ensures r.None? ==> '.' !in s
  {
    if s == "" then None
    else if s[0] == '.' then Some(0)
    else
      var rest := DotAt(s[1..]);
      if rest.Some? then
        assert s[..rest.value + 1] == [s[0]] + s[1..][..rest.value];
        Some(rest.value + 1)
      else None
  }

  function WholePart(s: string): string {
    if DotAt(s).Some? then s[..DotAt(s).value] else s
  }

  function FractionPart(s: string): string {
    if DotAt(s).Some? then s[DotAt(s).value + 1..] else ""
  }

  /** Digits, or digits, a point and one to six digits; at most 64 characters. */
  predicate WellFormed(s: string) {
    && |s| <= 64
    && WholePart(s) != "" && AllDigits(WholePart(s))
    && AllDigits(FractionPart(s)) && |FractionPart(s)| <= 6
    && (DotAt(s).Some? ==> FractionPart(s) != "")
  }

  /** The exact decimal number a well-formed text denotes, in credits. */
  function Decimal(s: string): real
    requires WellFormed(s)
  {
    NumberOf(WholePart(s)) as real + NumberOf(FractionPart(s)) as real / Pow10(|FractionPart(s)|) as real
  }

  /** The same number in millionths: six decimals always suffice. */
  function Millionths(s: string): nat
    requires WellFormed(s)
  {
    NumberOf(WholePart(s)) * MICRO + NumberOf(FractionPart(s)) * Pow10(6 - |FractionPart(s)|)
  }

  lemma {:induction false} Pow10Adds(a: nat, b: nat)
    ensures Pow10(a + b) == Pow10(a) * Pow10(b)
  {
    if a > 0 {
      Pow10Adds(a - 1, b);
      assert Pow10(a + b) == 10 * Pow10(a - 1 + b);
    }
  }

  /** No rounding: the millionths are exactly a million times the decimal number. */
  lemma MillionthsExact(s: string)
    requires WellFormed(s)
    ensures Millionths(s) as real == Decimal(s) * MICRO as real
  {
    var n, f := NumberOf(FractionPart(s)), |FractionPart(s)|;
    Pow10Adds(f, 6 - f);
    assert Pow10(6) == MICRO;
    Scaled(n, Pow10(f), Pow10(6 - f));
  }

  lemma Scaled(n: nat, a: nat, b: nat)
    requires a > 0
    ensures (n * b) as real == n as real / a as real * (a * b) as real
  {
    var q := n as real / a as real;
    assert q * a as real == n as real;
    assert (a * b) as real == a as real * b as real;
    assert (n * b) as real == n as real * b as real;
    assert q * (a as real * b as real) == (q * a as real) * b as real;
  }

  // Reading

  /** What CreditAmount::parse answers: the millionths, if the trimmed text is well formed and they fit i64. */
  function Parsed(value: string, unit: string): Option<int> {
    var text := Trim(value);
    if unit == "credits" && WellFormed(text) && Millionths(text) <= MAX_I64 then Some(Millionths(text)) else None
  }

  lemma NumberOfFront(s: string, i: nat)
    requires AllDigits(s) && i < |s|
    ensures NumberOf(s[..i + 1]) == NumberOf(s[..i]) * 10 + DigitValue(s[i])
  {
    assert s[..i + 1][..i] == s[..i];
  }

  lemma DigitsHaveNoDot(s: string)
    requires AllDigits(s)
    ensures '.' !in s
  {
  }

  /** The two loops of CreditAmount::parse over the decimals: their number, scaled to six of them. */
  method ParseFraction(fraction: string) returns (micro: int)
    requires AllDigits(fraction) && |fraction| <= 6
    ensures micro == NumberOf(fraction) * Pow10(6 - |fraction|)
  {
    micro := 0;
    for i := 0 to |fraction|
      invariant micro == NumberOf(fraction[..i])
    {
      NumberOfFront(fraction, i);
      micro := micro * 10 + DigitValue(fraction[i]);
    }
    assert fraction[..|fraction|] == fraction;
    ghost var number := micro;
    for i := |fraction| to 6
      invariant micro == number * Pow10(i - |fraction|)
    {
      Tenfold(number, i - |fraction|);
      micro := micro * 10;
    }
  }

  lemma Tenfold(number: int, n: nat)
    ensures number * Pow10(n + 1) == number * Pow10(n) * 10
  {
  }

  /** CreditAmount::parse */
  method Parse(value: string, unit: string) returns (amount: Option<int>)
    ensures amount == Parsed(value, unit)
  {
    hide Trim, DotAt, NumberOf, Pow10;
    if unit != "credits" {
      return None;
    }
    var text := Trim(value);
    if text == "" || |text| > 64 || text[0] == '-' || text[0] == '+' {
      BadStart(text);
      return None;
    }
    var dot := DotAt(text);
    var whole, fraction := text, "";
    if dot.Some? {
      whole, fraction := text[..dot.value], text[dot.value + 1..];
      if '.' in fraction || fraction == "" {
        return None;
      }
    }
    if whole == "" || !AllDigits(whole) || |fraction| > 6 || !AllDigits(fraction) {
      return None;
    }
    assert WellFormed(text) && WholePart(text) == whole && FractionPart(text) == fraction;
    var number := NumberOf(whole);
    if number > MAX_I64 || number * MICRO > MAX_I64 {
      return None;
    }
    var fractional := ParseFraction(fraction);
    var micro := number * MICRO + fractional;
    if micro > MAX_I64 {
      return None;
    }
    return Some(micro);
  }

  lemma BadStart(s: string)
    requires s == "" || |s| > 64 || s[0] == '-' || s[0] == '+'
    ensures !WellFormed(s)
  {
    assert s != "" && WholePart(s) != "" ==> WholePart(s)[0] == s[0];
  }

  // Printing

  function Digits(n: nat): (s: string)
    ensures s != "" && AllDigits(s) && NumberOf(s) == n
  {
    if n < 10 then
      assert [DigitChar(n)][..0] == "";
      [DigitChar(n)]
    else
      var front := Digits(n / 10);
      assert (front + [DigitChar(n % 10)])[..|front|] == front;
      front + [DigitChar(n % 10)]
  }

  /** `{:0width}`: the last `width` digits. */
  function Padded(n: nat, width: nat): (s: string)
    requires n < Pow10(width)
    ensures |s| == width && AllDigits(s) && NumberOf(s) == n
  {
    if width == 0 then ""
    else
      var front := Padded(n / 10, width - 1);
      assert (front + [DigitChar(n % 10)])[..|front|] == front;
      front + [DigitChar(n % 10)]
  }

  /** Display for CreditAmount */
  function Printed(micro: nat): string {
    MillionIsPow10();
    Digits(micro / MICRO) + "." + Padded(micro % MICRO, 6)
  }

  lemma {:induction false} DigitCount(n: nat, width: nat)
    requires n < Pow10(width) && width > 0
    ensures |Digits(n)| <= width
    decreases width
  {
    if n >= 10 {
      DigitCount(n / 10, width - 1);
    }
  }

  lemma {:induction false} DotAfter(front: string, back: string)
    requires '.' !in front
    ensures DotAt(front + "." + back) == Some(|front|)
  {
    var s := front + "." + back;
    if front != "" {
      assert s[1..] == front[1..] + "." + back;
      DotAfter(front[1..], back);
    }
  }

  lemma NothingToTrim(s: string)
    requires s != "" && IsDigit(s[0]) && IsDigit(s[|s| - 1])
    ensures Trim(s) == s
  {
  }

  lemma PrintedParts(whole: string, fraction: string)
    requires AllDigits(whole)
    ensures WholePart(whole + "." + fraction) == whole && FractionPart(whole + "." + fraction) == fraction
    ensures DotAt(whole + "." + fraction).Some?
  {
    hide DotAt;
    DigitsHaveNoDot(whole);
    DotAfter(whole, fraction);
    var s := whole + "." + fraction;
    assert s[..|whole|] == whole && s[|whole| + 1..] == fraction;
  }

  /** Whatever amount is printed reads back as itself. */
  lemma PrintParse(micro: nat)
    requires micro <= MAX_I64
    ensures Parsed(Printed(micro), "credits") == Some(micro)
  {
    hide DotAt, Trim, Digits, Padded, NumberOf, WholePart, FractionPart, Pow10;
    MillionIsPow10();
    var whole, fraction := Digits(micro / MICRO), Padded(micro % MICRO, 6);
    PrintedParts(whole, fraction);
    PowersOfTen();
    DigitCount(micro / MICRO, 13);
    assert Printed(micro) == whole + "." + fraction;
    NothingToTrim(Printed(micro));
  }

  lemma MillionIsPow10()
    ensures Pow10(6) == MICRO && Pow10(0) == 1
  {
  }

  lemma PowersOfTen()
    ensures Pow10(13) == 10_000_000_000_000
  {
    assert Pow10(5) == 100_000;
    Pow10Adds(5, 5);
    Pow10Adds(10, 3);
    assert Pow10(3) == 1_000;
  }

  /** Reading is exact: an accepted text denotes a million times less than the amount it reads as. */
  lemma ParseExact(value: string)
    requires Parsed(value, "credits").Some?
    ensures Parsed(value, "credits").value as real == Decimal(Trim(value)) * MICRO as real
    ensures 0 <= Parsed(value, "credits").value <= MAX_I64
  {
    MillionthsExact(Trim(value));
  }

  /** Two texts read as the same amount exactly when they denote the same decimal number. */
  lemma ParseAgrees(a: string, b: string)
    requires Parsed(a, "credits").Some? && Parsed(b, "credits").Some?
    ensures Parsed(a, "credits") == Parsed(b, "credits") <==> Decimal(Trim(a)) == Decimal(Trim(b))
  {
    hide Decimal, Trim;
    ParseExact(a);
    ParseExact(b);
    SameMultiple(Parsed(a, "credits").value, Parsed(b, "credits").value, Decimal(Trim(a)), Decimal(Trim(b)));
  }

  lemma SameMultiple(m: int, n: int, x: real, y: real)
    requires m as real == x * MICRO as real && n as real == y * MICRO as real
    ensures m == n <==> x == y
  {
  }

  // Arithmetic

  /** checked_add and checked_sub, which answer None outside the non-negative i64 range. */
  function CheckedAdd(a: int, b: int): (r: Option<int>)
    requires 0 <= a <= MAX_I64 && 0 <= b <= MAX_I64
    ensures r.Some? <==> a + b <= MAX_I64
    ensures r.Some? ==> r.value == a + b && CheckedSub(r.value, b) == Some(a)
  {
    if a + b > MAX_I64 then None else Some(a + b)
  }

  function CheckedSub(a: int, b: int): Option<int>
    requires 0 <= a <= MAX_I64 && 0 <= b <= MAX_I64
  {
    if a - b < 0 then None else Some(a - b)
  }
}

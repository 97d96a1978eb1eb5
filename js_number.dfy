/** The few JavaScript number operations the core relies on, on exact reals and integers. */
module JsNumber {
  import opened Wrappers
  import opened Text

  /** `Math.round`: the nearest integer, halves rounded towards +infinity. */
  function Round(x: real): (r: int)
    ensures x - 0.5 < r as real <= x + 0.5
  {
    (x + 0.5).Floor
  }

  lemma {:induction false} RoundOfInteger(n: int)
    ensures Round(n as real) == n
  {
    assert n as real - 0.5 < n as real <= n as real + 0.5;
    RoundUnique(n as real, n);
  }

  /** The bounds of `Round` pin its result down: there is exactly one such integer. */
  lemma {:induction false} RoundUnique(x: real, k: int)
    requires x - 0.5 < k as real <= x + 0.5
    ensures Round(x) == k
  {
    var r := Round(x);
    assert x - 0.5 < r as real <= x + 0.5;
  }

  /** JavaScript's `%` on integers: the remainder truncates towards zero, so it takes the sign of `a`. */
  function Rem(a: int, n: int): (r: int)
    requires n > 0
    ensures a >= 0 ==> r == a % n
    ensures a <= 0 ==> -n < r <= 0
  {
    if a >= 0 then a % n else -((-a) % n)
  }

  /** `Math.ceil(count / size)` for a non-negative count and a positive page size. */
  function CeilDiv(count: nat, size: nat): (r: nat)
    requires size > 0
    ensures r * size >= count
    ensures count > 0 ==> (r - 1) * size < count
    ensures count == 0 ==> r == 0
  {
    (count + size - 1) / size
  }

  // ---------------------------------------------------------------- Number(string)

  function Pow10(k: nat): (r: nat)
    ensures r >= 1
  {
    if k == 0 then 1 else 10 * Pow10(k - 1)
  }

  /** The value of the decimal numeral `intPart.fracPart`. */
  function DecimalValue(intPart: string, fracPart: string): (r: real)
    requires AllDigits(intPart) && AllDigits(fracPart)
    ensures r >= NumeralValue(intPart) as real
  {
    NumeralValue(intPart) as real + NumeralValue(fracPart) as real / Pow10(|fracPart|) as real
  }

  /** `Number(s)` on unsigned decimal numerals, `None` standing for `NaN`: surrounding white space is ignored and a blank string is 0. */
  function ToNumber(s: string): (r: Option<real>)
    ensures r.Some? ==> r.value >= 0.0
    ensures Trim(s) == "" ==> r == Some(0.0)
  {
    var t := Trim(s);
    if t == "" then Some(0.0)
    else
      var parts := Split(t, '.');
      if |parts| == 1 then
        if AllDigits(t) then Some(NumeralValue(t) as real) else None
      else if |parts| == 2 && AllDigits(parts[0]) && AllDigits(parts[1]) && (parts[0] != "" || parts[1] != "") then
        Some(DecimalValue(parts[0], parts[1]))
      else None
  }

  /** A non-empty run of digits reads as its value. */
  lemma {:induction false} ToNumberOfDigits(s: string)
    requires s != "" && AllDigits(s)
    ensures ToNumber(s) == Some(NumeralValue(s) as real)
  {
    assert TrimStart(s) == s;
    assert TrimEnd(s) == s;
    assert forall i :: 0 <= i < |s| ==> s[i] != '.';
    SplitWithoutSeparator(s, '.');
  }

  /** The numeral `toString` writes for a non-negative integer reads back as its value. */
  lemma {:induction false} ToNumberOfNumeral(n: nat)
    ensures ToNumber(NatToString(n)) == Some(n as real)
  {
    ToNumberOfDigits(NatToString(n));
    NatToStringValue(n);
  }

  /** `a.b` with digit runs `a` (non-empty) and `b` reads as `a` plus `b` tenths, hundredths, and so on. */
  lemma {:induction false} ToNumberOfDecimal(a: string, b: string)
    requires a != "" && AllDigits(a) && AllDigits(b)
    ensures ToNumber(a + "." + b) == Some(DecimalValue(a, b))
  {
    var s := a + "." + b;
    assert s[0] == a[0];
    assert s[|s| - 1] == if b == "" then '.' else b[|b| - 1];
    TrimOfUnspaced(s);
    SplitDecimal(a, b);
  }

  lemma {:induction false} SplitDecimal(a: string, b: string)
    requires AllDigits(a) && AllDigits(b)
    ensures Split(a + "." + b, '.') == [a, b]
  {
    assert forall i :: 0 <= i < |a| ==> a[i] != '.';
    assert forall i :: 0 <= i < |b| ==> b[i] != '.';
    SplitAtFirstSeparator(a, b, '.');
    SplitWithoutSeparator(b, '.');
  }

  // ---------------------------------------------------------------- parseInt(string, 10)

  /** The run of digits a string starts with. */
  function LeadingDigits(s: string): (r: string)
    ensures |r| <= |s| && r == s[..|r|] && AllDigits(r)
    ensures |r| < |s| ==> !IsDigit(s[|r|])
  {
    if s != [] && IsDigit(s[0]) then [s[0]] + LeadingDigits(s[1..]) else []
  }

  /** `parseInt(s, 10)`, `None` standing for `NaN`: leading white space and one sign are allowed, and reading stops at the first non-digit. */
  function ParseInt(s: string): Option<int> {
    ParseSigned(TrimStart(s))
  }

  /** `parseInt` once the leading white space is gone. */
  function ParseSigned(t: string): Option<int> {
    var signed := t != [] && (t[0] == '-' || t[0] == '+');
    var body := if signed then t[1..] else t;
    var digits := LeadingDigits(body);
    if digits == [] then None
    else if signed && t[0] == '-' then Some(-(NumeralValue(digits) as int))
    else Some(NumeralValue(digits))
  }

  /** `parseInt` gives `NaN` exactly when no digit follows the leading white space and the optional sign. */
  lemma {:induction false} ParseIntNaNIff(s: string)
    ensures var t := TrimStart(s);
            var body := if t != [] && (t[0] == '-' || t[0] == '+') then t[1..] else t;
            ParseInt(s).None? <==> LeadingDigits(body) == []
  {
  }

  lemma {:induction false} ParseSignedDigits(t: string, d: string)
    requires t != [] && IsDigit(t[0]) && d != [] && LeadingDigits(t) == d
    ensures ParseSigned(t) == Some(NumeralValue(d))
  {
  }

  /** A run of digits followed by a non-digit reads as the digits' value. */
  lemma {:induction false} ParseIntOfDigits(d: string, rest: string)
    requires d != [] && AllDigits(d)
    requires rest == [] || !IsDigit(rest[0])
    ensures ParseInt(d + rest) == Some(NumeralValue(d))
  {
    var s := d + rest;
    assert s[0] == d[0];
    LeadingDigitsOfNumeral(d, rest);
    ParseIntUnsigned(s, d);
  }

  lemma {:induction false} ParseIntUnsigned(s: string, d: string)
    requires s != [] && IsDigit(s[0]) && d != [] && LeadingDigits(s) == d
    ensures ParseInt(s) == Some(NumeralValue(d))
  {
    TrimStartOfUnspaced(s);
    ParseSignedDigits(s, d);
  }

  /** `parseInt` reads back what `toString` writes, and ignores anything after the digits. */
  lemma {:induction false} ParseIntOfNumeral(n: nat, rest: string)
    requires rest == [] || !IsDigit(rest[0])
    ensures ParseInt(NatToString(n) + rest) == Some(n)
  {
    ParseIntOfDigits(NatToString(n), rest);
    NatToStringValue(n);
  }

  lemma {:induction false} LeadingDigitsOfNumeral(d: string, rest: string)
    requires AllDigits(d)
    requires rest == [] || !IsDigit(rest[0])
    ensures LeadingDigits(d + rest) == d
  {
    if d == [] {
      assert d + rest == rest;
    } else {
      assert (d + rest)[1..] == d[1..] + rest;
      LeadingDigitsOfNumeral(d[1..], rest);
    }
  }
}

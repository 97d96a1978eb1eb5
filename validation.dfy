/** Form-field validators: regular-expression checks written as character-level predicates, and the Luhn check. */
module Validation {
  import opened Text
  import opened Wrappers

  // ---------------------------------------------------------------- email

  /** `[^\s@]*`: no white space and no '@'. */
  predicate NoSpaceOrAt(s: string) {
    forall i :: 0 <= i < |s| ==> !IsSpace(s[i]) && s[i] != '@'
  }

  /** The first position of `c` in `s`. */
  function IndexOfChar(s: string, c: char): (r: Option<nat>)
    ensures r.Some? ==> r.value < |s| && s[r.value] == c && c !in s[..r.value]
    ensures r.None? <==> c !in s
  {
    if s == [] then None
    else if s[0] == c then Some(0)
    else match IndexOfChar(s[1..], c)
         case None => None
         case Some(k) => assert s[..k + 1] == [s[0]] + s[1..][..k]; Some(k + 1)
  }

  /** The email regex `^[^\s@]+@[^\s@]+\.[^\s@]+$`, read literally: a split into three non-empty runs. */
  ghost predicate EmailPattern(s: string) {
    exists i, j :: 0 < i && i + 1 < j < |s| - 1 && s[i] == '@' && s[j] == '.'
      && NoSpaceOrAt(s[..i]) && NoSpaceOrAt(s[i + 1..j]) && NoSpaceOrAt(s[j + 1..])
  }

  /** `validateEmail`: a non-empty local part, one '@', and a '.' strictly inside the domain. */
  function ValidateEmail(email: string): (r: bool)
    ensures r ==> |email| >= 5 && email[0] != '@' && email[|email| - 1] != '@'
  {
    match IndexOfChar(email, '@')
    case None => false
    case Some(k) =>
      var domain := email[k + 1..];
      && k > 0
      && NoSpaceOrAt(email[..k])
      && NoSpaceOrAt(domain)
      && |domain| >= 3
      && '.' in domain[1..|domain| - 1]
  }

  lemma {:induction false} EmailFromPattern(s: string, i: nat, j: nat)
    requires 0 < i && i + 1 < j < |s| - 1 && s[i] == '@' && s[j] == '.'
    requires NoSpaceOrAt(s[..i]) && NoSpaceOrAt(s[i + 1..j]) && NoSpaceOrAt(s[j + 1..])
    ensures ValidateEmail(s)
  {
    assert '@' !in s[..i] by {
      forall m | 0 <= m < i ensures s[..i][m] != '@' { }
    }
    var k := IndexOfChar(s, '@').value;
    assert k == i;
    var domain := s[i + 1..];
    assert domain == s[i + 1..j] + [s[j]] + s[j + 1..];
    assert domain[1..|domain| - 1][j - i - 2] == '.';
  }

  lemma {:induction false} PatternFromEmail(s: string)
    requires ValidateEmail(s)
    ensures EmailPattern(s)
  {
    var i := IndexOfChar(s, '@').value;
    var domain := s[i + 1..];
    assert NoSpaceOrAt(domain);
    var inner := domain[1..|domain| - 1];
    var m :| 0 <= m < |inner| && inner[m] == '.';
    var j := i + 2 + m;
    assert inner[m] == domain[m + 1] == s[j];
    var middle := s[i + 1..j];
    assert middle == domain[..m + 1];
    assert NoSpaceOrAt(middle) by {
      forall t | 0 <= t < |middle| ensures !IsSpace(middle[t]) && middle[t] != '@' {
        assert middle[t] == domain[t];
      }
    }
    var last := s[j + 1..];
    assert last == domain[m + 2..];
    assert NoSpaceOrAt(last) by {
      forall t | 0 <= t < |last| ensures !IsSpace(last[t]) && last[t] != '@' {
        assert last[t] == domain[m + 2 + t];
      }
    }
    assert 0 < i && i + 1 < j < |s| - 1 && s[i] == '@' && s[j] == '.'
      && NoSpaceOrAt(s[..i]) && NoSpaceOrAt(middle) && NoSpaceOrAt(last);
  }

  /** `validateEmail` accepts exactly what its regular expression matches. */
  lemma {:induction false} EmailMatchesPattern(s: string)
    ensures ValidateEmail(s) <==> EmailPattern(s)
  {
    if ValidateEmail(s) {
      PatternFromEmail(s);
    }
    if EmailPattern(s) {
      var i, j :| 0 < i && i + 1 < j < |s| - 1 && s[i] == '@' && s[j] == '.'
        && NoSpaceOrAt(s[..i]) && NoSpaceOrAt(s[i + 1..j]) && NoSpaceOrAt(s[j + 1..]);
      EmailFromPattern(s, i, j);
    }
  }

  // ---------------------------------------------------------------- phone

  /** `[\s\-\(\)]`: what `validatePhone` deletes before matching. */
  predicate IsPhoneSeparator(c: char) {
    IsSpace(c) || c == '-' || c == '(' || c == ')'
  }

  /** `phone.replace(/[\s\-\(\)]/g, '')`. */
  function StripPhone(s: string): (r: string)
    ensures |r| <= |s|
    ensures forall i :: 0 <= i < |r| ==> !IsPhoneSeparator(r[i])
  {
    if s == [] then []
    else (if IsPhoneSeparator(s[0]) then [] else [s[0]]) + StripPhone(s[1..])
  }

  /** `[1-9][\d]{0,15}`. */
  predicate PhoneDigits(t: string) {
    1 <= |t| <= 16 && '1' <= t[0] <= '9' && AllDigits(t)
  }

  /** `validatePhone`: after stripping, an optional '+', then a digit 1-9, then up to 15 digits. */
  function ValidatePhone(phone: string): (r: bool)
    ensures r ==> 1 <= |StripPhone(phone)| <= 17
  {
    var t := StripPhone(phone);
    if |t| > 0 && t[0] == '+' then PhoneDigits(t[1..]) else PhoneDigits(t)
  }

  lemma {:induction false} StripPhoneAppend(a: string, b: string)
    ensures StripPhone(a + b) == StripPhone(a) + StripPhone(b)
  {
    if a != [] {
      assert (a + b)[1..] == a[1..] + b;
      StripPhoneAppend(a[1..], b);
    } else {
      assert a + b == b;
    }
  }

  /** Spaces, dashes and parentheses anywhere in a phone number never change the verdict. */
  lemma {:induction false} PhoneIgnoresSeparators(a: string, c: char, b: string)
    requires IsPhoneSeparator(c)
    ensures ValidatePhone(a + [c] + b) == ValidatePhone(a + b)
  {
    StripPhoneAppend(a + [c], b);
    StripPhoneAppend(a, [c]);
    StripPhoneAppend(a, b);
    assert StripPhone([c]) == [] by {
      assert [c][1..] == [];
      assert StripPhone([c]) == [] + StripPhone([]);
    }
    assert StripPhone(a + [c] + b) == StripPhone(a + b);
  }

  /** Every accepted number has 1 to 16 digits, after an optional leading '+'. */
  lemma {:induction false} PhoneAcceptedShape(phone: string)
    requires ValidatePhone(phone)
    ensures var t := StripPhone(phone);
            var d := if t[0] == '+' then t[1..] else t;
            1 <= |d| <= 16 && AllDigits(d) && d[0] != '0'
  {
  }

  // ---------------------------------------------------------------- credit card (Luhn, ISO/IEC 7812-1 Annex B)

  /** One digit's contribution: doubled digits above 9 lose 9. */
  function LuhnTerm(d: nat, doubled: bool): (r: nat)
    requires d < 10
    ensures r < 10
  {
    if doubled then (if 2 * d > 9 then 2 * d - 9 else 2 * d) else d
  }

  /** The Luhn sum, from the rightmost digit leftwards; `doubled` says whether the rightmost digit is doubled. */
  function LuhnSum(digits: string, doubled: bool): nat
    requires AllDigits(digits)
  {
    if digits == [] then 0
    else LuhnTerm(DigitValue(digits[|digits| - 1]), doubled) + LuhnSum(digits[..|digits| - 1], !doubled)
  }

  /** `number.replace(/\s/g, '')`. */
  function RemoveSpaces(s: string): (r: string)
    ensures forall i :: 0 <= i < |r| ==> !IsSpace(r[i])
  {
    if s == [] then [] else (if IsSpace(s[0]) then [] else [s[0]]) + RemoveSpaces(s[1..])
  }

  /** What `validateCreditCard` accepts: digits only after removing white space, at least one, Luhn sum divisible by 10. */
  predicate LuhnValid(number: string) {
    var c := RemoveSpaces(number);
    c != [] && AllDigits(c) && LuhnSum(c, false) % 10 == 0
  }

  method ValidateCreditCard(number: string) returns (ok: bool)
    ensures ok == LuhnValid(number)
  {
    var clean := RemoveSpaces(number);
    if clean == [] || !(forall k :: 0 <= k < |clean| ==> IsDigit(clean[k])) {
      return false;
    }
    var sum := 0;
    var isEven := false;
    var i := |clean|;
    assert clean[..i] == clean;
    while i > 0
      invariant 0 <= i <= |clean|
      invariant sum + LuhnSum(clean[..i], isEven) == LuhnSum(clean, false)
    {
      assert clean[..i][..i - 1] == clean[..i - 1];
      var digit := DigitValue(clean[i - 1]);
      if isEven {
        digit := digit * 2;
        if digit > 9 {
          digit := digit - 9;
        }
      }
      sum := sum + digit;
      isEven := !isEven;
      i := i - 1;
    }
    ok := sum % 10 == 0;
  }

  /** The check digit that completes a payload. */
  function CheckDigit(payload: string): (d: nat)
    requires AllDigits(payload)
    ensures d < 10
  {
    (10 - LuhnSum(payload, true) % 10) % 10
  }

  /** Appending the check digit always yields an accepted number. */
  lemma {:induction false} CheckDigitCompletes(payload: string)
    requires AllDigits(payload)
    ensures LuhnValid(payload + [DigitChar(CheckDigit(payload))])
  {
    var d := CheckDigit(payload);
    var full := payload + [DigitChar(d)];
    RemoveSpacesOfDigits(full);
    assert full[..|full| - 1] == payload;
    assert LuhnSum(full, false) == d + LuhnSum(payload, true);
    CheckDigitMod(LuhnSum(payload, true));
  }

  lemma {:induction false} CheckDigitMod(sum: nat)
    ensures ((10 - sum % 10) % 10 + sum) % 10 == 0
  {
    var q, r := sum / 10, sum % 10;
    assert sum == 10 * q + r;
    if r == 0 {
      assert (10 - r) % 10 + sum == 10 * q;
    } else {
      assert (10 - r) % 10 + sum == 10 * (q + 1);
    }
  }

  lemma {:induction false} RemoveSpacesOfDigits(s: string)
    requires AllDigits(s)
    ensures RemoveSpaces(s) == s
  {
    if s != [] {
      RemoveSpacesOfDigits(s[1..]);
      assert [s[0]] + s[1..] == s;
    }
  }

  /** Changing one digit changes that digit's term alone; its doubling depends on its distance from the right. */
  lemma {:induction false} LuhnSumChangeOne(c: string, p: nat, x: char, doubled: bool)
    requires AllDigits(c) && p < |c| && IsDigit(x)
    ensures AllDigits(c[p := x])
    ensures var dbl := (doubled != ((|c| - 1 - p) % 2 == 1));
            LuhnSum(c[p := x], doubled) as int ==
              LuhnSum(c, doubled) as int - LuhnTerm(DigitValue(c[p]), dbl) as int + LuhnTerm(DigitValue(x), dbl) as int
  {
    var c' := c[p := x];
    var n := |c|;
    if p == n - 1 {
      assert c'[..n - 1] == c[..n - 1];
    } else {
      assert c'[..n - 1] == c[..n - 1][p := x];
      LuhnSumChangeOne(c[..n - 1], p, x, !doubled);
    }
  }

  /** The Luhn check detects every single-digit error: no two accepted numbers differ in exactly one digit. */
  lemma {:induction false} LuhnDetectsSingleDigitError(c: string, p: nat, x: char)
    requires AllDigits(c) && p < |c| && IsDigit(x) && x != c[p]
    requires LuhnSum(c, false) % 10 == 0
    ensures AllDigits(c[p := x]) && LuhnSum(c[p := x], false) % 10 != 0
  {
    LuhnSumChangeOne(c, p, x, false);
    var dbl := (|c| - 1 - p) % 2 == 1;
    LuhnTermInjective(DigitValue(c[p]), DigitValue(x), dbl);
    ChangedTermBreaksSum(LuhnSum(c, false), LuhnTerm(DigitValue(c[p]), dbl), LuhnTerm(DigitValue(x), dbl));
  }

  /** Distinct digits have distinct terms, doubled or not. */
  lemma {:induction false} LuhnTermInjective(d: nat, e: nat, doubled: bool)
    requires d < 10 && e < 10 && d != e
    ensures LuhnTerm(d, doubled) != LuhnTerm(e, doubled)
  {
  }

  lemma {:induction false} ChangedTermBreaksSum(s: int, a: int, b: int)
    requires s % 10 == 0 && 0 <= a < 10 && 0 <= b < 10 && a != b
    ensures (s - a + b) % 10 != 0
  {
    var q := s / 10;
    assert s == 10 * q;
    if b > a {
      assert s - a + b == 10 * q + (b - a);
    } else {
      assert s - a + b == 10 * (q - 1) + (10 + b - a);
    }
  }

  // ---------------------------------------------------------------- postal codes

  /** `^\d{5}(-\d{4})?$`. */
  predicate UsZip(z: string) {
    (|z| == 5 && AllDigits(z)) || (|z| == 10 && AllDigits(z[..5]) && z[5] == '-' && AllDigits(z[6..]))
  }

  /** `^[A-Za-z]\d[A-Za-z] ?\d[A-Za-z]\d$`. */
  predicate CaZip(z: string) {
    (|z| == 6 || (|z| == 7 && z[3] == ' ')) &&
    var rest := if |z| == 7 then z[4..] else z[3..];
    IsLetter(z[0]) && IsDigit(z[1]) && IsLetter(z[2])
    && IsDigit(rest[0]) && IsLetter(rest[1]) && IsDigit(rest[2])
  }

  /** `[A-Za-z]{1,2}\d[A-Za-z\d]?`: the outward half of a British postcode. */
  predicate GbOutward(o: string) {
    || (|o| == 2 && IsLetter(o[0]) && IsDigit(o[1]))
    || (|o| == 3 && IsLetter(o[0]) && IsLetter(o[1]) && IsDigit(o[2]))
    || (|o| == 3 && IsLetter(o[0]) && IsDigit(o[1]) && IsAlnum(o[2]))
    || (|o| == 4 && IsLetter(o[0]) && IsLetter(o[1]) && IsDigit(o[2]) && IsAlnum(o[3]))
  }

  /** `\d[A-Za-z]{2}`: the inward half of a British postcode. */
  predicate GbInward(i: string) {
    |i| == 3 && IsDigit(i[0]) && IsLetter(i[1]) && IsLetter(i[2])
  }

  /** What stands before the inward half, without the one optional space. */
  function OutwardOf(pre: string): string {
    if |pre| > 0 && pre[|pre| - 1] == ' ' then pre[..|pre| - 1] else pre
  }

  /** `^[A-Za-z]{1,2}\d[A-Za-z\d]? ?\d[A-Za-z]{2}$`: the last three characters are the inward half, an optional space precedes it. */
  predicate GbZip(z: string) {
    |z| >= 3 && GbInward(z[|z| - 3..]) && GbOutward(OutwardOf(z[..|z| - 3]))
  }

  /** `validateZipCode(zip, country = 'US')`: only US, CA and GB have a pattern; any other country is rejected. */
  function ValidateZipCode(zip: string, country: string := "US"): (r: bool)
    ensures country != "US" && country != "CA" && country != "GB" ==> !r
    ensures r ==> 3 <= |zip|
    ensures r && country == "US" ==> |zip| == 5 || |zip| == 10
    ensures r && country == "CA" ==> |zip| == 6 || |zip| == 7
  {
    if country == "US" then UsZip(zip)
    else if country == "CA" then CaZip(zip)
    else if country == "GB" then GbZip(zip)
    else false
  }

  /** No postal code passes for a country without a pattern, India among them. */
  lemma {:induction false} ZipUnknownCountryRejects(zip: string, country: string)
    requires country != "US" && country != "CA" && country != "GB"
    ensures !ValidateZipCode(zip, country)
    ensures !ValidateZipCode(zip, "IN")
  {
  }

  /** What the Canadian and British patterns can see of a character. */
  datatype CharClass = Letter | Digit | Blank | Other

  function ClassOf(c: char): CharClass {
    if IsLetter(c) then Letter else if IsDigit(c) then Digit else if c == ' ' then Blank else Other
  }

  predicate SameClasses(a: string, b: string) {
    |a| == |b| && forall i :: 0 <= i < |a| ==> ClassOf(a[i]) == ClassOf(b[i])
  }

  lemma {:induction false} SameClassesSlice(a: string, b: string, i: nat, j: nat)
    requires SameClasses(a, b) && i <= j <= |a|
    ensures SameClasses(a[i..j], b[i..j])
  {
    assert forall k :: 0 <= k < j - i ==> a[i..j][k] == a[i + k] && b[i..j][k] == b[i + k];
  }

  lemma {:induction false} SameClassesOutward(a: string, b: string)
    requires SameClasses(a, b)
    ensures GbOutward(a) == GbOutward(b)
  {
  }

  lemma {:induction false} SameClassesOutwardOf(a: string, b: string)
    requires SameClasses(a, b)
    ensures SameClasses(OutwardOf(a), OutwardOf(b))
  {
    var n := |a|;
    if n > 0 {
      SameClassesSlice(a, b, 0, n - 1);
      assert a[..n - 1] == a[0..n - 1] && b[..n - 1] == b[0..n - 1];
      assert ClassOf(a[n - 1]) == ClassOf(b[n - 1]);
    }
  }

  lemma {:induction false} SameClassesGb(a: string, b: string)
    requires SameClasses(a, b)
    ensures GbZip(a) == GbZip(b)
  {
    if |a| >= 3 {
      var n := |a| - 3;
      SameClassesSlice(a, b, 0, n);
      assert a[..n] == a[0..n] && b[..n] == b[0..n];
      SameClassesSlice(a, b, n, |a|);
      assert a[n..] == a[n..|a|] && b[n..] == b[n..|b|];
      SameClassesOutwardOf(a[..n], b[..n]);
      SameClassesOutward(OutwardOf(a[..n]), OutwardOf(b[..n]));
    }
  }

  lemma {:induction false} SameClassesCa(a: string, b: string)
    requires SameClasses(a, b)
    ensures CaZip(a) == CaZip(b)
  {
    if |a| >= 4 {
      assert SameClasses(a[3..], b[3..]);
      assert SameClasses(a[4..], b[4..]);
    }
  }

  /** The Canadian and British patterns ignore letter case. */
  lemma {:induction false} ZipIgnoresCase(zip: string, country: string)
    requires country == "CA" || country == "GB"
    ensures ValidateZipCode(UpperAll(zip), country) == ValidateZipCode(zip, country)
  {
    SameClassesGb(UpperAll(zip), zip);
    SameClassesCa(UpperAll(zip), zip);
  }

  /** The US pattern: five digits, or five digits, a dash and four digits. */
  lemma {:induction false} UsZipShapes(d5: string, d4: string)
    requires |d5| == 5 && AllDigits(d5) && |d4| == 4 && AllDigits(d4)
    ensures ValidateZipCode(d5)
    ensures ValidateZipCode(d5 + "-" + d4)
    ensures !ValidateZipCode(d5 + d4)
  {
    var z := d5 + "-" + d4;
    assert z[..5] == d5 && z[6..] == d4;
  }
}

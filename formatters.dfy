/** Display-string helpers: truncation, slugs and stock-keeping-unit codes. */
module Formatters {
  import opened Text

  // ---------------------------------------------------------------- truncateText

  /** `text.substring(0, maxLength)`: a negative end counts as 0. */
  function Prefix(text: string, maxLength: int): (r: string)
    requires |text| > maxLength
    ensures |r| == if maxLength < 0 then 0 else maxLength
  {
    text[..if maxLength < 0 then 0 else maxLength]
  }

  /** `truncateText(text, maxLength = 100)`. */
  function TruncateText(text: string, maxLength: int := 100): (r: string)
    ensures |text| <= maxLength ==> r == text
    ensures |text| > maxLength ==> |r| >= 3 && r[|r| - 3..] == "..."
    ensures |text| > maxLength ==> |r| <= (if maxLength < 0 then 0 else maxLength) + 3
  {
    if |text| <= maxLength then text else Trim(Prefix(text, maxLength)) + "..."
  }

  /** A cut text is its first `maxLength` characters, trimmed, then "...": the kept part is a piece of that prefix with no white space at its ends. */
  lemma {:induction false} TruncatedKeepsPrefixPiece(text: string, maxLength: int)
    requires |text| > maxLength
    ensures TruncateText(text, maxLength) == Trim(Prefix(text, maxLength)) + "..."
    ensures var p := Prefix(text, maxLength);
            exists i, j {:trigger p[i..j]} :: 0 <= i <= j <= |p| && Trim(p) == p[i..j]
    ensures var kept := Trim(Prefix(text, maxLength));
            kept != [] ==> !IsSpace(kept[0]) && !IsSpace(kept[|kept| - 1])
  {
    TrimIsPiece(Prefix(text, maxLength));
  }

  /** Truncating a result again, with room for its ellipsis, changes nothing. */
  lemma {:induction false} TruncateIdempotent(text: string, maxLength: nat)
    ensures TruncateText(TruncateText(text, maxLength), maxLength + 3) == TruncateText(text, maxLength)
  {
  }

  // ---------------------------------------------------------------- slugify

  /** `[\w ]`: what `slugify` keeps. */
  predicate IsSlugSource(c: char) { IsWordChar(c) || c == ' ' }

  /** `.replace(/[^\w ]+/g, '')`. */
  function KeepSlugSource(s: string): (r: string)
    ensures |r| <= |s|
    ensures forall i :: 0 <= i < |r| ==> IsSlugSource(r[i])
  {
    if s == [] then []
    else (if IsSlugSource(s[0]) then [s[0]] else []) + KeepSlugSource(s[1..])
  }

  /** Filtering keeps a string free of capitals. */
  lemma {:induction false} KeepSlugSourceNoUpper(s: string)
    requires forall i :: 0 <= i < |s| ==> !IsUpper(s[i])
    ensures forall i :: 0 <= i < |KeepSlugSource(s)| ==> !IsUpper(KeepSlugSource(s)[i])
  {
    if s != [] {
      KeepSlugSourceNoUpper(s[1..]);
    }
  }

  /** Drops the run of spaces at the start. */
  function DropSpaces(s: string): (r: string)
    ensures |r| <= |s| && r == s[|s| - |r|..]
    ensures r != [] ==> r[0] != ' '
  {
    if s != [] && s[0] == ' ' then DropSpaces(s[1..]) else s
  }

  /** `.replace(/ +/g, '-')`: every run of spaces becomes one '-'. */
  function Hyphenate(s: string): (r: string)
    ensures |r| <= |s|
    decreases |s|
  {
    if s == [] then []
    else if s[0] == ' ' then "-" + Hyphenate(DropSpaces(s[1..]))
    else [s[0]] + Hyphenate(s[1..])
  }

  /** `slugify(text)`: lower-case, drop everything but word characters and spaces, spaces to '-'. */
  function Slugify(text: string): (r: string)
    ensures |r| <= |text|
  {
    Hyphenate(KeepSlugSource(LowerAll(text)))
  }

  predicate IsSlugChar(c: char) { IsLower(c) || IsDigit(c) || c == '_' || c == '-' }

  /** Only `[a-z0-9_-]`, and never two '-' in a row. */
  predicate SlugShaped(r: string) {
    && (forall i :: 0 <= i < |r| ==> IsSlugChar(r[i]))
    && (forall i :: 0 <= i < |r| - 1 ==> !(r[i] == '-' && r[i + 1] == '-'))
  }

  lemma {:induction false} ConsShaped(c: char, t: string)
    requires IsSlugChar(c) && c != '-' && SlugShaped(t)
    ensures SlugShaped([c] + t)
  {
    var r := [c] + t;
    assert forall i :: 1 <= i < |r| ==> r[i] == t[i - 1];
  }

  lemma {:induction false} HyphenShaped(t: string)
    requires SlugShaped(t) && (t != [] ==> t[0] != '-')
    ensures SlugShaped("-" + t)
  {
    var r := "-" + t;
    assert forall i :: 1 <= i < |r| ==> r[i] == t[i - 1];
  }

  /** Hyphenating a string of slug sources without capitals leaves no spaces, no capitals and no "--". */
  lemma {:induction false} HyphenateShape(s: string)
    requires forall i :: 0 <= i < |s| ==> IsSlugSource(s[i]) && !IsUpper(s[i])
    ensures SlugShaped(Hyphenate(s))
    ensures Hyphenate(s) != [] && Hyphenate(s)[0] == '-' ==> s != [] && s[0] == ' '
    decreases |s|
  {
    if s != [] {
      if s[0] == ' ' {
        var t := DropSpaces(s[1..]);
        assert forall i :: 0 <= i < |t| ==> t[i] == s[|s| - |t| + i];
        HyphenateShape(t);
        HyphenShaped(Hyphenate(t));
        assert Hyphenate(s) == "-" + Hyphenate(t);
      } else {
        var t := s[1..];
        HyphenateShape(t);
        ConsShaped(s[0], Hyphenate(t));
        assert Hyphenate(s) == [s[0]] + Hyphenate(t);
      }
    }
  }

  lemma {:induction false} LowerAllHasNoUpper(s: string)
    ensures forall i :: 0 <= i < |s| ==> !IsUpper(LowerAll(s)[i])
  {
  }

  /** Slugs contain only `[a-z0-9_-]`: no spaces, no capitals, and never two '-' in a row. */
  lemma {:induction false} SlugShape(text: string)
    ensures SlugShaped(Slugify(text))
  {
    var low := LowerAll(text);
    LowerAllHasNoUpper(text);
    KeepSlugSourceNoUpper(low);
    HyphenateShape(KeepSlugSource(low));
  }

  lemma {:induction false} KeepSlugSourceAppend(a: string, b: string)
    ensures KeepSlugSource(a + b) == KeepSlugSource(a) + KeepSlugSource(b)
  {
    if a == [] {
      assert a + b == b;
    } else {
      assert (a + b)[1..] == a[1..] + b;
      KeepSlugSourceAppend(a[1..], b);
    }
  }

  lemma {:induction false} LowerAllAppend(a: string, b: string)
    ensures LowerAll(a + b) == LowerAll(a) + LowerAll(b)
  {
  }

  /** A '-' in the input contributes nothing: only runs of spaces make the slug's hyphens. */
  lemma {:induction false} SlugDropsInputHyphens(a: string, b: string)
    ensures Slugify(a + "-" + b) == Slugify(a + b)
  {
    LowerAroundHyphen(a, b);
    LowerAllAppend(a, b);
    KeepSkipsHyphen(LowerAll(a), LowerAll(b));
  }

  lemma {:induction false} LowerAroundHyphen(a: string, b: string)
    ensures LowerAll(a + "-" + b) == LowerAll(a) + "-" + LowerAll(b)
  {
    LowerAllAppend(a + "-", b);
    LowerAllAppend(a, "-");
  }

  lemma {:induction false} KeepSkipsHyphen(a: string, b: string)
    ensures KeepSlugSource(a + "-" + b) == KeepSlugSource(a + b)
  {
    assert KeepSlugSource("-") == [] by {
      assert "-"[1..] == [];
    }
    KeepSlugSourceAppend(a + "-", b);
    KeepSlugSourceAppend(a, "-");
    KeepSlugSourceAppend(a, b);
  }

  // ---------------------------------------------------------------- generateSKU

  /** `.replace(/[^a-zA-Z0-9]/g, '')`. */
  function KeepAlnum(s: string): (r: string)
    ensures |r| <= |s|
    ensures forall i :: 0 <= i < |r| ==> IsAlnum(r[i])
  {
    if s == [] then [] else (if IsAlnum(s[0]) then [s[0]] else []) + KeepAlnum(s[1..])
  }

  function Min(a: int, b: int): int { if a <= b then a else b }

  function Max(a: int, b: int): int { if a >= b then a else b }

  /** The name part of a code: its first three alphanumerics, upper-cased. */
  function SkuLetters(name: string): (r: string)
    ensures |r| == Min(3, |KeepAlnum(name)|)
    ensures forall i :: 0 <= i < |r| ==> r[i] == ToUpper(KeepAlnum(name)[i]) && (IsUpper(r[i]) || IsDigit(r[i]))
  {
    var kept := KeepAlnum(name);
    var clean := UpperAll(kept);
    assert forall i :: 0 <= i < |kept| ==> IsAlnum(kept[i]);
    clean[..Min(3, |clean|)]
  }

  /** The number part of a code: the id padded with zeros to four characters. */
  function SkuNumber(id: int): (r: string)
    ensures |r| == Max(4, |IntToString(id)|)
  {
    PadStart(IntToString(id), 4, '0')
  }

  /** `generateSKU(name, id)`: up to three upper-cased alphanumerics of the name, then the id padded to four digits. */
  function GenerateSku(name: string, id: int): (r: string)
    ensures |r| == Min(3, |KeepAlnum(name)|) + Max(4, |IntToString(id)|)
  {
    SkuLetters(name) + SkuNumber(id)
  }

  /** The code starts with the name's first alphanumerics, upper-cased. */
  lemma {:induction false} SkuStartsWithName(name: string, id: int)
    ensures var r := GenerateSku(name, id);
            var kept := KeepAlnum(name);
            forall i :: 0 <= i < Min(3, |kept|) ==> r[i] == ToUpper(kept[i]) && (IsUpper(r[i]) || IsDigit(r[i]))
  {
    var letters := SkuLetters(name);
    assert forall i :: 0 <= i < |letters| ==> (letters + SkuNumber(id))[i] == letters[i];
  }

  lemma {:induction false} LeadingZerosValue(zeros: string, s: string)
    requires forall i :: 0 <= i < |zeros| ==> zeros[i] == '0'
    requires AllDigits(s)
    ensures AllDigits(zeros + s) && NumeralValue(zeros + s) == NumeralValue(s)
  {
    if s == [] {
      assert zeros + s == zeros;
      if zeros != [] {
        LeadingZerosValue(zeros[..|zeros| - 1], []);
        assert zeros[..|zeros| - 1] + [] == zeros[..|zeros| - 1];
      }
    } else {
      LeadingZerosValue(zeros, s[..|s| - 1]);
      assert (zeros + s)[..|zeros + s| - 1] == zeros + s[..|s| - 1];
    }
  }

  /** For a non-negative id the code ends in a numeral that reads back as the id. */
  lemma {:induction false} SkuEndsWithId(name: string, id: nat)
    ensures var r := GenerateSku(name, id);
            var k := Min(3, |KeepAlnum(name)|);
            AllDigits(r[k..]) && NumeralValue(r[k..]) == id
  {
    SkuTail(name, id);
    PaddedNumeral(id);
  }

  lemma {:induction false} SkuTail(name: string, id: int)
    ensures GenerateSku(name, id)[Min(3, |KeepAlnum(name)|)..] == PadStart(IntToString(id), 4, '0')
  {
    var letters := SkuLetters(name);
    assert (letters + SkuNumber(id))[|letters|..] == SkuNumber(id);
  }

  /** Padding a numeral with zeros keeps its value. */
  lemma {:induction false} PaddedNumeral(id: nat)
    ensures AllDigits(PadStart(IntToString(id), 4, '0')) && NumeralValue(PadStart(IntToString(id), 4, '0')) == id
  {
    assert IntToString(id) == NatToString(id);
    NatToStringValue(id);
    PaddedValue(IntToString(id));
  }

  lemma {:induction false} PaddedValue(digits: string)
    requires AllDigits(digits)
    ensures AllDigits(PadStart(digits, 4, '0')) && NumeralValue(PadStart(digits, 4, '0')) == NumeralValue(digits)
  {
    var padded := PadStart(digits, 4, '0');
    var zeros := padded[..|padded| - |digits|];
    assert padded == zeros + digits;
    LeadingZerosValue(zeros, digits);
  }
}

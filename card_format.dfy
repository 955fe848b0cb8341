/** Card-number text: the digit filter applied to the input field, the
    4-character grouping shown on cards (`formatCardNumber`) and the
    field's visual transformation with its cursor offset mapping
    (`CreditCardVisualTransformation`). */
module CardFormat {
  import opened Strings

  /** `input.filter { it.isDigit() }.take(16)`, applied on every edit. */
  function FilterCardNumber(input: string): (r: string)
    ensures AllDigits(r) && |r| <= 16
    ensures r <= DigitsOnly(input)
    ensures |r| == if |DigitsOnly(input)| < 16 then |DigitsOnly(input)| else 16
    ensures AllDigits(input) && |input| <= 16 ==> r == input
  {
    Take(DigitsOnly(input), 16)
  }

  /** Typing one character at the end of a stored number: a digit is
      appended while there is room for it, and anything else (a letter, a
      space, a seventeenth digit) leaves the number as it was. */
  lemma TypeAtEnd(number: string, c: char)
    requires AllDigits(number) && |number| <= 16
    ensures FilterCardNumber(number + [c]) ==
      if IsDigit(c) && |number| < 16 then number + [c] else number
  {
    DigitsOnlyAppend(number, [c]);
    DigitsOnlyAppend([c], []);
    assert DigitsOnly(number) == number;
    if IsDigit(c) && |number| == 16 {
      assert (number + [c])[..16] == number;
    }
  }

  /** `formatCardNumber`, i.e. `chunked(4).joinToString(" ")`: one space
      between successive groups of 4 characters, the last group possibly
      shorter, nothing truncated. */
  function FormatCardNumber(s: string): string
    decreases |s|
  {
    if |s| <= 4 then s else s[..4] + " " + FormatCardNumber(s[4..])
  }

  /** Drop the character at every fifth position, where FormatCardNumber puts
      its separators. */
  function Ungrouped(s: string): string
    decreases |s|
  {
    if |s| <= 4 then s else s[..4] + Ungrouped(s[5..])
  }

  function RemoveSpaces(s: string): (r: string)
    ensures |r| <= |s|
  {
    if s == [] then [] else (if s[0] == ' ' then [] else [s[0]]) + RemoveSpaces(s[1..])
  }

  lemma {:induction false} FormatCardNumberLength(s: string)
    ensures |s| > 0 ==> |FormatCardNumber(s)| == |s| + (|s| - 1) / 4
    ensures |s| == 0 ==> FormatCardNumber(s) == ""
    decreases |s|
  {
    if |s| > 4 {
      FormatCardNumberLength(s[4..]);
    }
  }

  /** Every separator is a space, and every other character is the input's
      character it was shifted from. */
  lemma {:induction false} FormatCardNumberAt(s: string, j: nat)
    requires j < |FormatCardNumber(s)|
    ensures j % 5 == 4 ==> FormatCardNumber(s)[j] == ' '
    ensures j % 5 != 4 ==> j - j / 5 < |s| && FormatCardNumber(s)[j] == s[j - j / 5]
    decreases |s|
  {
    if |s| > 4 && j >= 5 {
      FormatCardNumberAt(s[4..], j - 5);
    }
  }

  lemma {:induction false} UngroupFormatCardNumber(s: string)
    ensures Ungrouped(FormatCardNumber(s)) == s
    decreases |s|
  {
    if |s| > 4 {
      var g := FormatCardNumber(s);
      FormatCardNumberLength(s[4..]);
      assert g[..4] == s[..4];
      assert g[5..] == FormatCardNumber(s[4..]);
      UngroupFormatCardNumber(s[4..]);
    }
  }

  lemma {:induction false} RemoveSpacesAppend(a: string, b: string)
    ensures RemoveSpaces(a + b) == RemoveSpaces(a) + RemoveSpaces(b)
    decreases |a|
  {
    if a != [] {
      assert (a + b)[1..] == a[1..] + b;
      RemoveSpacesAppend(a[1..], b);
    } else {
      assert a + b == b;
    }
  }

  lemma {:induction false} RemoveSpacesSpaceFree(s: string)
    requires forall i :: 0 <= i < |s| ==> s[i] != ' '
    ensures RemoveSpaces(s) == s
    decreases |s|
  {
    if s != [] {
      RemoveSpacesSpaceFree(s[1..]);
    }
  }

  /** For text without spaces (card digits), removing the spaces from the
      grouped text gives the text back. */
  lemma {:induction false} RemoveSpacesFormatCardNumber(s: string)
    requires forall i :: 0 <= i < |s| ==> s[i] != ' '
    ensures RemoveSpaces(FormatCardNumber(s)) == s
    decreases |s|
  {
    if |s| <= 4 {
      RemoveSpacesSpaceFree(s);
    } else {
      RemoveSpacesAppend(s[..4] + " ", FormatCardNumber(s[4..]));
      RemoveSpacesAppend(s[..4], " ");
      RemoveSpacesSpaceFree(s[..4]);
      RemoveSpacesFormatCardNumber(s[4..]);
    }
  }

  /** `CreditCardVisualTransformation.filter`: the first 16 characters,
      grouped. */
  function Transformed(text: string): (r: string)
    ensures Ungrouped(r) == Take(text, 16)
    ensures |Take(text, 16)| > 0 ==> |r| == |Take(text, 16)| + (|Take(text, 16)| - 1) / 4
    ensures |r| <= 19
  {
    var trimmed := Take(text, 16);
    UngroupFormatCardNumber(trimmed);
    FormatCardNumberLength(trimmed);
    FormatCardNumber(trimmed)
  }

  function Min(a: int, b: int): int {
    if a <= b then a else b
  }

  /** `originalToTransformed`: a cursor position in the typed text to one
      in the shown text. */
  function OriginalToTransformed(text: string, offset: int): int {
    var f := |Transformed(text)|;
    if 0 <= offset <= 3 then offset
    else if 4 <= offset <= 7 then Min(offset + 1, f)
    else if 8 <= offset <= 11 then Min(offset + 2, f)
    else if 12 <= offset <= 15 then Min(offset + 3, f)
    else f
  }

  /** `transformedToOriginal`: back from the shown text to the typed one. */
  function TransformedToOriginal(text: string, offset: int): int {
    var n := |Take(text, 16)|;
    if 0 <= offset <= 3 then offset
    else if 4 <= offset <= 8 then Min(offset - 1, n)
    else if 9 <= offset <= 13 then Min(offset - 2, n)
    else if 14 <= offset <= 18 then Min(offset - 3, n)
    else n
  }

  /** Both mappings stay inside their texts. */
  lemma OffsetMappingsInRange(text: string, k: int, j: int)
    ensures 0 <= k <= |Take(text, 16)| ==> 0 <= OriginalToTransformed(text, k) <= |Transformed(text)|
    ensures 0 <= j <= |Transformed(text)| ==> 0 <= TransformedToOriginal(text, j) <= |Take(text, 16)|
  {
    var n := |Take(text, 16)|;
    assert n > 0 ==> |Transformed(text)| == n + (n - 1) / 4;
  }

  /** Mapping a cursor out and back returns it, except at the very end of a
      text of 4, 8 or 12 characters, where it lands one character early. */
  lemma OffsetRoundTrip(text: string, k: int)
    requires 0 <= k <= |Take(text, 16)|
    ensures TransformedToOriginal(text, OriginalToTransformed(text, k))
      == if k == |Take(text, 16)| && k in {4, 8, 12} then k - 1 else k
  {
    var n := |Take(text, 16)|;
    assert n > 0 ==> |Transformed(text)| == n + (n - 1) / 4;
  }

  /** The number of typed characters before shown position `j`: one fewer
      for each separator, at positions 4, 9 and 14, that comes before `j`. */
  lemma {:induction false} CharactersBefore(text: string, j: nat)
    requires AllDigits(text) && j <= |Transformed(text)|
    ensures |RemoveSpaces(Transformed(text)[..j])| == j - j / 5
    decreases j
  {
    if j > 0 {
      var f := Transformed(text);
      CharactersBefore(text, j - 1);
      assert f[..j] == f[..j - 1] + [f[j - 1]];
      RemoveSpacesAppend(f[..j - 1], [f[j - 1]]);
      FormatCardNumberAt(Take(text, 16), j - 1);
      assert Take(text, 16) <= text;
    }
  }

  /** `transformedToOriginal` with its ranges starting one position later,
      after each separator rather than on the digit before it. */
  function CorrectedTransformedToOriginal(text: string, offset: int): int {
    var n := |Take(text, 16)|;
    if 0 <= offset <= 4 then Min(offset, n)
    else if 5 <= offset <= 9 then Min(offset - 1, n)
    else if 10 <= offset <= 14 then Min(offset - 2, n)
    else if 15 <= offset <= 19 then Min(offset - 3, n)
    else n
  }

  /** The corrected mapping sends every shown position to the number of
      typed digits before it, and so undoes `originalToTransformed` at
      every cursor position. */
  lemma CorrectedMappingCountsDigits(text: string, j: int, k: int)
    requires AllDigits(text)
    ensures 0 <= j <= |Transformed(text)| ==>
      CorrectedTransformedToOriginal(text, j) == |RemoveSpaces(Transformed(text)[..j])|
    ensures 0 <= k <= |Take(text, 16)| ==>
      CorrectedTransformedToOriginal(text, OriginalToTransformed(text, k)) == k
  {
    var n := |Take(text, 16)|;
    assert n > 0 ==> |Transformed(text)| == n + (n - 1) / 4;
    if 0 <= j <= |Transformed(text)| {
      CharactersBefore(text, j);
    }
  }
}

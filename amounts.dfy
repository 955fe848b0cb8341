/** Amount text <-> integer cents. `ParseAmount` stands in for Kotlin's
    `toDoubleOrNull()` (and `toDouble()`, which throws where this returns
    None) on plain decimal text; `FormatAmount` stands in for
    `Double.toString()` where the app turns a number back into text. */
module Amounts {
  import opened Data
  import opened Strings

  function DigitValue(c: char): (d: nat)
    requires IsDigit(c)
    ensures d < 10
  {
    c as int - '0' as int
  }

  function DigitChar(d: nat): (c: char)
    requires d < 10
    ensures IsDigit(c) && DigitValue(c) == d
  {
    ('0' as int + d) as char
  }

  /** The number a digit string denotes; the empty string denotes 0. */
  function DigitsValue(s: string): nat
    requires AllDigits(s)
  {
    if s == [] then 0 else DigitsValue(s[..|s| - 1]) * 10 + DigitValue(s[|s| - 1])
  }

  /** Decimal digits of `n` without leading zeros ("0" for zero). */
  function NatDigits(n: nat): (s: string)
    ensures AllDigits(s) && |s| > 0
  {
    if n < 10 then [DigitChar(n)] else NatDigits(n / 10) + [DigitChar(n % 10)]
  }

  lemma {:induction false} NatDigitsValue(n: nat)
    ensures DigitsValue(NatDigits(n)) == n
  {
    if n >= 10 {
      var s := NatDigits(n);
      assert s[..|s| - 1] == NatDigits(n / 10);
      NatDigitsValue(n / 10);
    }
  }

  /** Position of the first '.', or |s| when there is none. */
  function DotIndex(s: string): (i: nat)
    ensures i <= |s|
    ensures forall j :: 0 <= j < i ==> s[j] != '.'
    ensures i < |s| ==> s[i] == '.'
  {
    if s == [] then 0 else if s[0] == '.' then 0 else 1 + DotIndex(s[1..])
  }

  /** Cents denoted by the digits after the point: the first two, the
      rest truncated ("5" is 50, "05" is 5, "129" is 12). */
  function FractionCents(f: string): (c: nat)
    requires AllDigits(f)
    ensures c < 100
  {
    if |f| == 0 then 0
    else if |f| == 1 then DigitValue(f[0]) * 10
    else DigitValue(f[0]) * 10 + DigitValue(f[1])
  }

  /** Unsigned decimal: `digits ['.' digits]` with at least one digit. */
  function ParseUnsigned(s: string): (r: Option<nat>)
    ensures r.Some? ==> s != []
  {
    var i := DotIndex(s);
    var whole := s[..i];
    var fraction := if i < |s| then s[i + 1..] else "";
    if AllDigits(whole) && AllDigits(fraction) && |whole| + |fraction| > 0
    then Some(DigitsValue(whole) * 100 + FractionCents(fraction))
    else None
  }

  /** An optional '+' or '-' sign and an unsigned decimal, in cents.
      Anything else (the empty text, letters, a second point) is None. */
  function ParseAmount(s: string): (r: Option<int>)
    ensures s == "" ==> r == None
  {
    if |s| > 0 && (s[0] == '-' || s[0] == '+') then
      match ParseUnsigned(s[1..])
      case Some(v) => var n: int := v; Some(if s[0] == '-' then -n else n)
      case None => None
    else
      match ParseUnsigned(s)
      case Some(v) => Some(v)
      case None => None
  }

  /** `amount.isEmpty() || amount.toDoubleOrNull() == null`. The emptiness
      test adds nothing: the empty text does not parse either. */
  function AmountInvalid(amount: string): (b: bool)
    ensures b <==> ParseAmount(amount).None?
  {
    amount == "" || ParseAmount(amount).None?
  }

  function TwoDigits(n: nat): (s: string)
    requires n < 100
    ensures |s| == 2 && AllDigits(s)
  {
    [DigitChar(n / 10), DigitChar(n % 10)]
  }

  /** Canonical text of a cents amount, e.g. "-12.05". */
  function FormatAmount(c: int): (s: string)
    ensures s != ""
  {
    var m: nat := if c < 0 then -c else c;
    (if c < 0 then "-" else "") + NatDigits(m / 100) + "." + TwoDigits(m % 100)
  }

  /** The first '.' after a run of digits is the one that ends it. */
  lemma DotAfterDigits(w: string, f: string)
    requires AllDigits(w)
    ensures DotIndex(w + "." + f) == |w|
  {
    var s := w + "." + f;
    assert s[|w|] == '.';
  }

  lemma ParseUnsignedFormat(m: nat)
    ensures ParseUnsigned(NatDigits(m / 100) + "." + TwoDigits(m % 100)) == Some(m)
  {
    var w, f := NatDigits(m / 100), TwoDigits(m % 100);
    var s := w + "." + f;
    DotAfterDigits(w, f);
    assert s[..|w|] == w;
    assert s[|w| + 1..] == f;
    NatDigitsValue(m / 100);
    assert FractionCents(f) == m % 100;
  }

  /** A text starting with a digit parses as its unsigned value. */
  lemma ParseNonNegative(u: string, m: nat)
    requires |u| > 0 && IsDigit(u[0]) && ParseUnsigned(u) == Some(m)
    ensures ParseAmount(u) == Some(m)
  {
  }

  /** With a leading '-' it parses as the negated value. */
  lemma ParseNegative(u: string, m: nat)
    requires ParseUnsigned(u) == Some(m)
    ensures ParseAmount("-" + u) == Some(-(m as int))
  {
    assert ("-" + u)[1..] == u;
  }

  /** FormatAmount writes an optional '-' and then an unsigned text that
      starts with a digit and parses as the magnitude. */
  lemma FormatAmountParts(c: int) returns (u: string, m: nat)
    ensures m == (if c < 0 then -c else c)
    ensures FormatAmount(c) == (if c < 0 then "-" + u else u)
    ensures |u| > 0 && IsDigit(u[0]) && ParseUnsigned(u) == Some(m)
  {
    m := if c < 0 then -c else c;
    u := NatDigits(m / 100) + "." + TwoDigits(m % 100);
    ParseUnsignedFormat(m);
    assert u[0] == NatDigits(m / 100)[0];
  }

  /** Text written by FormatAmount parses back to the same amount, so a
      number survives the app's toString-then-parse hand-offs. */
  lemma ParseFormatRoundTrip(c: int)
    ensures ParseAmount(FormatAmount(c)) == Some(c)
  {
    var u, m := FormatAmountParts(c);
    if c < 0 {
      calc {
        ParseAmount(FormatAmount(c));
        ParseAmount("-" + u);
        { ParseNegative(u, m); }
        Some(c);
      }
    } else {
      calc {
        ParseAmount(FormatAmount(c));
        ParseAmount(u);
        { ParseNonNegative(u, m); }
        Some(c);
      }
    }
  }
}

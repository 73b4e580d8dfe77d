/**
  The JavaScript string operations the pages rely on: `String.prototype.trim`,
  `split(' ')[0]`, and the decimal digits a date formatter writes and a date parser reads.
 */
module Text {

  /** The characters `trim` removes: ECMAScript WhiteSpace and LineTerminator. */
  predicate IsWhitespace(c: char) {
    c == '\t' || c == '\n' || c == '\U{000B}' || c == '\U{000C}' || c == '\r' || c == ' ' ||
    c == '\U{00A0}' || c == '\U{1680}' || ('\U{2000}' <= c <= '\U{200A}') ||
    c == '\U{2028}' || c == '\U{2029}' || c == '\U{202F}' || c == '\U{205F}' ||
    c == '\U{3000}' || c == '\U{FEFF}'
  }

  /** `s` with its leading whitespace removed: a suffix of `s` that starts with a non-space. */
  function TrimStart(s: string): (r: string)
    ensures |r| <= |s| && r == s[|s| - |r|..]
    ensures forall k :: 0 <= k < |s| - |r| ==> IsWhitespace(s[k])
    ensures r != [] ==> !IsWhitespace(r[0])
  {
    if s != [] && IsWhitespace(s[0]) then TrimStart(s[1..]) else s
  }

  /** `s` with its trailing whitespace removed: a prefix of `s` that ends with a non-space. */
  function TrimEnd(s: string): (r: string)
    ensures |r| <= |s| && r == s[..|r|]
    ensures forall k :: |r| <= k < |s| ==> IsWhitespace(s[k])
    ensures r != [] ==> !IsWhitespace(r[|r| - 1])
  {
    if s != [] && IsWhitespace(s[|s| - 1]) then TrimEnd(s[..|s| - 1]) else s
  }

  /** `s.trim()`. */
  function Trim(s: string): string {
    TrimEnd(TrimStart(s))
  }

  /**
    What `trim` returns: the slice `s[i..j]` where `i` skips exactly the leading
    whitespace and `j` drops exactly the trailing whitespace.
   */
  lemma TrimIsSlice(s: string) returns (i: nat, j: nat)
    ensures i <= j <= |s| && Trim(s) == s[i..j]
    ensures forall k :: 0 <= k < i ==> IsWhitespace(s[k])
    ensures forall k :: j <= k < |s| ==> IsWhitespace(s[k])
    ensures i < j ==> !IsWhitespace(s[i]) && !IsWhitespace(s[j - 1])
  {
    var t := TrimStart(s);
    i := |s| - |t|;
    j := TrimEndOfSuffix(s, i);
    if i < j {
      assert s[i] == t[0];
    }
  }

  /** Trimming the end of the suffix `s[i..]` keeps `s[i..j]` and drops only whitespace after `j`. */
  lemma TrimEndOfSuffix(s: string, i: nat) returns (j: nat)
    requires i <= |s|
    ensures i <= j <= |s| && TrimEnd(s[i..]) == s[i..j]
    ensures forall k :: j <= k < |s| ==> IsWhitespace(s[k])
    ensures i < j ==> !IsWhitespace(s[j - 1])
  {
    var t := s[i..];
    var u := TrimEnd(t);
    j := i + |u|;
    forall k | j <= k < |s|
      ensures IsWhitespace(s[k])
    {
      assert s[k] == t[k - i];
    }
    if i < j {
      assert s[j - 1] == u[|u| - 1];
    }
  }

  /** The trimmed input is empty exactly when every character of it is whitespace. */
  lemma TrimEmptyIff(s: string)
    ensures Trim(s) == [] <==> forall k :: 0 <= k < |s| ==> IsWhitespace(s[k])
  {
    var i, j := TrimIsSlice(s);
  }

  /** `s.split(' ')[0]`: the text before the first space, or all of `s` when it has none. */
  function BeforeFirstSpace(s: string): (r: string)
    ensures |r| <= |s| && r == s[..|r|]
    ensures ' ' !in r
    ensures |r| < |s| ==> s[|r|] == ' '
  {
    if s == [] || s[0] == ' ' then [] else [s[0]] + BeforeFirstSpace(s[1..])
  }

  /** A first word followed by a space, or by nothing, is what `split(' ')[0]` returns. */
  lemma {:induction false} BeforeFirstSpaceOfWord(w: string, rest: string)
    requires ' ' !in w && (rest == [] || rest[0] == ' ')
    ensures BeforeFirstSpace(w + rest) == w
  {
    if w != [] {
      assert (w + rest)[1..] == w[1..] + rest;
      BeforeFirstSpaceOfWord(w[1..], rest);
    } else {
      assert w + rest == rest;
    }
  }

  // ---------- Decimal digits ------------------------------------------------

  predicate IsDigit(c: char) {
    '0' <= c <= '9'
  }

  function DigitChar(n: nat): (c: char)
    requires n < 10
    ensures IsDigit(c)
  {
    ('0' as int + n) as char
  }

  function DigitValue(c: char): (n: nat)
    requires IsDigit(c)
    ensures n < 10 && DigitChar(n) == c
  {
    c as int - '0' as int
  }

  predicate AllDigits(s: string) {
    forall k :: 0 <= k < |s| ==> IsDigit(s[k])
  }

  /** The number a run of decimal digits denotes, most significant digit first. */
  function DigitsValue(s: string): nat
    requires AllDigits(s)
  {
    if s == [] then 0 else 10 * DigitsValue(s[..|s| - 1]) + DigitValue(s[|s| - 1])
  }

  function Pow10(w: nat): (p: nat)
    ensures p >= 1
  {
    if w == 0 then 1 else 10 * Pow10(w - 1)
  }

  /**
    The decimal numeral of `n`, left-padded with zeros to at least `width` digits
    (what a formatter writes for a `yyyy`, `MM` or `dd` field).
   */
  function PadDecimal(n: nat, width: nat): (s: string)
    ensures AllDigits(s) && |s| >= 1 && |s| >= width
    decreases n + width
  {
    if n < 10 && width <= 1 then [DigitChar(n)]
    else PadDecimal(n / 10, if width == 0 then 0 else width - 1) + [DigitChar(n % 10)]
  }

  /** Reading back a padded numeral gives the number written. */
  lemma {:induction false} PadDecimalValue(n: nat, width: nat)
    ensures DigitsValue(PadDecimal(n, width)) == n
    decreases n + width
  {
    var s := PadDecimal(n, width);
    if !(n < 10 && width <= 1) {
      var w' := if width == 0 then 0 else width - 1;
      PadDecimalValue(n / 10, w');
      assert s[..|s| - 1] == PadDecimal(n / 10, w');
    }
  }

  /** A number below `10^width` is written with exactly `width` digits. */
  lemma {:induction false} PadDecimalLength(n: nat, width: nat)
    requires width >= 1 && n < Pow10(width)
    ensures |PadDecimal(n, width)| == width
    decreases width
  {
    if !(n < 10 && width <= 1) {
      assert width >= 2;
      PadDecimalLength(n / 10, width - 1);
    }
  }

  /** Writing back the value of a run of digits at its own width reproduces it, leading zeros included. */
  lemma {:induction false} DigitsRoundTrip(s: string)
    requires AllDigits(s) && |s| >= 1
    ensures PadDecimal(DigitsValue(s), |s|) == s
    decreases |s|
  {
    var init := s[..|s| - 1];
    var last := DigitValue(s[|s| - 1]);
    var n := DigitsValue(s);
    if |s| == 1 {
      assert init == [];
      assert [DigitChar(n)] == s;
    } else {
      DigitsRoundTrip(init);
      assert n / 10 == DigitsValue(init) && n % 10 == last;
      assert s == init + [s[|s| - 1]];
    }
  }
}

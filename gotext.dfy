/**
 * The parts of Go's `strings` and `strconv` packages that the agent's
 * configuration code relies on, written over Dafny strings (sequences
 * of code points).
 */
module GoText {
  import opened Common

  /** unicode.IsSpace: the Latin-1 spaces and the other White_Space code points. */
  predicate IsSpace(c: char) {
    || c == ' ' || c == '\t' || c == '\n' || c == '\U{000B}' || c == '\U{000C}' || c == '\r'
    || c == '\U{0085}' || c == '\U{00A0}' || c == '\U{1680}'
    || ('\U{2000}' <= c <= '\U{200A}')
    || c == '\U{2028}' || c == '\U{2029}' || c == '\U{202F}' || c == '\U{205F}' || c == '\U{3000}'
  }

  /** Drops the leading white space of `s`. */
  function TrimLeft(s: string): string {
    if |s| > 0 && IsSpace(s[0]) then TrimLeft(s[1..]) else s
  }

  /** Drops the trailing white space of `s`. */
  function TrimRight(s: string): string {
    if |s| > 0 && IsSpace(s[|s| - 1]) then TrimRight(s[..|s| - 1]) else s
  }

  /** strings.TrimSpace: `s` without its leading and trailing white space. */
  function TrimSpace(s: string): string {
    TrimRight(TrimLeft(s))
  }

  lemma {:induction false} TrimLeftSpec(s: string)
    ensures var r := TrimLeft(s);
      && |r| <= |s| && r == s[|s| - |r|..]
      && (forall k :: 0 <= k < |s| - |r| ==> IsSpace(s[k]))
      && (r == [] || !IsSpace(r[0]))
    decreases |s|
  {
    if |s| > 0 && IsSpace(s[0]) {
      TrimLeftSpec(s[1..]);
    }
  }

  lemma {:induction false} TrimRightSpec(s: string)
    ensures var r := TrimRight(s);
      && |r| <= |s| && r == s[..|r|]
      && (forall k :: |r| <= k < |s| ==> IsSpace(s[k]))
      && (r == [] || !IsSpace(r[|r| - 1]))
    decreases |s|
  {
    if |s| > 0 && IsSpace(s[|s| - 1]) {
      TrimRightSpec(s[..|s| - 1]);
    }
  }

  /**
   * TrimSpace keeps a contiguous part of `s` that neither starts nor ends
   * with white space, and everything it drops is white space.
   */
  lemma TrimSpaceSpec(s: string)
    ensures var r := TrimSpace(s); var i := |s| - |TrimLeft(s)|;
      && |TrimLeft(s)| <= |s| && i + |r| <= |s| && r == s[i..i + |r|]
      && (forall k :: 0 <= k < i ==> IsSpace(s[k]))
      && (forall k :: i + |r| <= k < |s| ==> IsSpace(s[k]))
      && (r == [] || (!IsSpace(r[0]) && !IsSpace(r[|r| - 1])))
  {
    var l := TrimLeft(s);
    TrimLeftSpec(s);
    TrimRightSpec(l);
    var r := TrimRight(l);
    assert forall k :: |s| - |l| + |r| <= k < |s| ==> s[k] == l[k - (|s| - |l|)];
  }

  /**
   * unicode.ToLower on one code point, restricted to the code points whose
   * lower case is ASCII: 'A'..'Z', U+0130 (capital I with dot) and U+212A
   * (Kelvin sign). Every other code point is left as it is, so the model is
   * exact whenever the lowered string is compared with a lower-case ASCII word.
   */
  function LowerRune(c: char): (l: char)
    ensures ('a' <= l <= 'z') <==> ('a' <= c <= 'z' || 'A' <= c <= 'Z' || c == '\U{0130}' || c == '\U{212A}')
    ensures 'a' <= l <= 'z' ==> FoldsTo(c, l)
    ensures !('A' <= c <= 'Z' || c == '\U{0130}' || c == '\U{212A}') ==> l == c
  {
    if 'A' <= c <= 'Z' then (c as int + 32) as char
    else if c == '\U{0130}' then 'i'
    else if c == '\U{212A}' then 'k'
    else c
  }

  /**
   * `c` is one of the code points whose lower case is the ASCII letter `l`:
   * `l` itself, its upper case, or U+0130 for 'i' and U+212A for 'k'.
   */
  predicate FoldsTo(c: char, l: char) {
    || c == l
    || ('a' <= l <= 'z' && c as int == l as int - 32)
    || (l == 'i' && c == '\U{0130}')
    || (l == 'k' && c == '\U{212A}')
  }

  predicate IsLowerAsciiWord(w: string) {
    forall i :: 0 <= i < |w| ==> 'a' <= w[i] <= 'z'
  }

  /** strings.ToLower, code point by code point. */
  function ToLower(s: string): string {
    seq(|s|, i requires 0 <= i < |s| => LowerRune(s[i]))
  }

  /** A code point lowers to a given lower-case ASCII letter exactly when it folds to it. */
  lemma LowerRuneFolds(c: char, l: char)
    requires 'a' <= l <= 'z'
    ensures LowerRune(c) == l <==> FoldsTo(c, l)
  {
  }

  /**
   * Comparing a lowered string with a lower-case ASCII word ignores case:
   * it matches exactly the strings of the same length whose every code
   * point folds to the word's letter at that position.
   */
  lemma ToLowerMatches(s: string, w: string)
    requires IsLowerAsciiWord(w)
    ensures ToLower(s) == w <==> |s| == |w| && forall i :: 0 <= i < |s| ==> FoldsTo(s[i], w[i])
  {
    forall i | 0 <= i < |s| && i < |w| {
      LowerRuneFolds(s[i], w[i]);
    }
    if |s| == |w| && forall i :: 0 <= i < |s| ==> FoldsTo(s[i], w[i]) {
      assert forall i :: 0 <= i < |s| ==> ToLower(s)[i] == w[i];
    }
  }

  /** The pieces of a split, glued back together with the separator. */
  function Join(parts: seq<string>, sep: char): string
    requires |parts| >= 1
  {
    if |parts| == 1 then parts[0] else parts[0] + [sep] + Join(parts[1..], sep)
  }

  /**
   * strings.Split with a one-character separator: the maximal pieces between
   * separators, so "" gives [""] and n separators give n + 1 pieces.
   */
  function Split(s: string, sep: char): (parts: seq<string>)
    ensures |parts| >= 1
    decreases |s|
  {
    if |s| == 0 then [""]
    else
      var rest := Split(s[1..], sep);
      if s[0] == sep then [""] + rest
      else [[s[0]] + rest[0]] + rest[1..]
  }

  /** Split cuts at every separator and only there: joining the pieces gives `s` back. */
  lemma {:induction false} SplitJoin(s: string, sep: char)
    ensures forall i :: 0 <= i < |Split(s, sep)| ==> sep !in Split(s, sep)[i]
    ensures Join(Split(s, sep), sep) == s
    decreases |s|
  {
    if |s| > 0 {
      var rest := Split(s[1..], sep);
      SplitJoin(s[1..], sep);
      assert s == [s[0]] + s[1..];
      if s[0] == sep {
        assert ([""] + rest)[1..] == rest;
      } else {
        var parts := [[s[0]] + rest[0]] + rest[1..];
        assert parts[1..] == rest[1..];
        assert Join(parts, sep) == [s[0]] + Join(rest, sep);
        assert forall i :: 1 <= i < |parts| ==> parts[i] == rest[i];
      }
    }
  }

  /** strconv.ParseBool: the twelve spellings it accepts, anything else is an error. */
  function ParseBoolStrict(s: string): Option<bool> {
    if s in {"1", "t", "T", "TRUE", "true", "True"} then Some(true)
    else if s in {"0", "f", "F", "FALSE", "false", "False"} then Some(false)
    else None
  }

  const MinInt64: int := -0x8000_0000_0000_0000
  const MaxInt64: int := 0x7FFF_FFFF_FFFF_FFFF

  predicate IsDigit(c: char) { '0' <= c <= '9' }

  predicate AllDigits(s: string) {
    forall i :: 0 <= i < |s| ==> IsDigit(s[i])
  }

  /** The number a string of decimal digits denotes. */
  function DigitsValue(ds: string): nat
    requires AllDigits(ds)
  {
    if |ds| == 0 then 0
    else DigitsValue(ds[..|ds| - 1]) * 10 + (ds[|ds| - 1] as int - '0' as int)
  }

  /** `s` without its leading sign, if it has one. */
  function DigitPart(s: string): string
    requires |s| > 0
  {
    if s[0] == '+' || s[0] == '-' then s[1..] else s
  }

  /**
   * strconv.ParseInt(s, 10, 64), which json.Number.Int64 calls: an optional
   * sign, at least one decimal digit and nothing else, in the int64 range.
   */
  function ParseInt64(s: string): (r: Option<int>)
    ensures r.Some? ==> MinInt64 <= r.value <= MaxInt64
    ensures r.Some? ==> |s| > 0 && (IsDigit(s[0]) || s[0] == '+' || s[0] == '-')
    ensures r.Some? ==> |s| > 0 && |DigitPart(s)| > 0 && AllDigits(DigitPart(s))
                        && DigitsValue(DigitPart(s)) == (if r.value < 0 then -r.value else r.value)
                        && (r.value < 0 ==> s[0] == '-') && (s[0] == '-' ==> r.value <= 0)
    ensures (|s| > 0 && |DigitPart(s)| > 0 && AllDigits(DigitPart(s))
             && MinInt64 <= (if s[0] == '-' then 0 - DigitsValue(DigitPart(s)) as int else DigitsValue(DigitPart(s))) <= MaxInt64)
            ==> r.Some?
  {
    if |s| == 0 then None
    else
      var digits := DigitPart(s);
      if |digits| == 0 || !AllDigits(digits) then None
      else
        var v: int := if s[0] == '-' then 0 - DigitsValue(digits) as int else DigitsValue(digits);
        if MinInt64 <= v <= MaxInt64 then Some(v) else None
  }

  /** The decimal digits of `n`, without leading zeros. */
  function FormatNat(n: nat): (ds: string)
    ensures |ds| > 0 && AllDigits(ds)
  {
    var d := [('0' as int + n % 10) as char];
    if n < 10 then d else FormatNat(n / 10) + d
  }

  /** strconv.FormatInt(n, 10): how a JSON number is written. */
  function FormatInt(n: int): string {
    if n < 0 then "-" + FormatNat(-n) else FormatNat(n)
  }

  lemma {:induction false} DigitsOfFormatNat(n: nat)
    ensures DigitsValue(FormatNat(n)) == n
  {
    var ds := FormatNat(n);
    if n >= 10 {
      DigitsOfFormatNat(n / 10);
      assert ds[..|ds| - 1] == FormatNat(n / 10);
    }
  }

  /** Every int64 written in decimal reads back as itself. */
  lemma ParseFormatInt(n: int)
    requires MinInt64 <= n <= MaxInt64
    ensures ParseInt64(FormatInt(n)) == Some(n)
  {
    if n < 0 {
      DigitsOfFormatNat(-n);
      assert FormatInt(n)[1..] == FormatNat(-n);
    } else {
      DigitsOfFormatNat(n);
    }
  }
}

/**
 * The string primitives the storefront relies on: JavaScript's `trim()`,
 * the regular-expression classes `\s`, `\d` and `\w`, the `replace(/\D/g, '')`
 * and `replace(/\s/g, '')` clean-ups, and `toUpperCase()` (on ASCII letters).
 */
module Text {
  import opened Seqs

  /** The characters matched by `\s` and removed by `trim()`. */
  predicate IsWhitespace(c: char)
  {
    || c == ' ' || c == '\t' || c == '\n' || c == '\r'
    || c == '\U{000B}' || c == '\U{000C}' || c == '\U{00A0}' || c == '\U{1680}'
    || ('\U{2000}' <= c <= '\U{200A}')
    || c == '\U{2028}' || c == '\U{2029}' || c == '\U{202F}' || c == '\U{205F}'
    || c == '\U{3000}' || c == '\U{FEFF}'
  }

  /** `\d`: an ASCII decimal digit. */
  predicate IsDigit(c: char)
  {
    '0' <= c <= '9'
  }

  /** `\w`: an ASCII letter, digit or underscore. */
  predicate IsWordChar(c: char)
  {
    ('a' <= c <= 'z') || ('A' <= c <= 'Z') || IsDigit(c) || c == '_'
  }

  predicate NotWhitespace(c: char)
  {
    !IsWhitespace(c)
  }

  predicate AllDigits(s: string)
  {
    forall i :: 0 <= i < |s| ==> IsDigit(s[i])
  }

  /** `s.replace(/\D/g, '')`: the digits of `s`, in order. */
  function Digits(s: string): (r: string)
    ensures AllDigits(r)
    ensures |r| <= |s|
  {
    Filter(s, IsDigit)
  }

  /** `s.replace(/\s/g, '')`: `s` with every whitespace character deleted. */
  function RemoveWhitespace(s: string): (r: string)
    ensures forall i :: 0 <= i < |r| ==> !IsWhitespace(r[i])
  {
    Filter(s, NotWhitespace)
  }

  /** The index of the first character at or after `i` that is not whitespace, or `|s|`. */
  function SkipSpaceForward(s: string, i: nat): (n: nat)
    requires i <= |s|
    ensures i <= n <= |s|
    ensures n == |s| || !IsWhitespace(s[n])
    decreases |s| - i
  {
    if i < |s| && IsWhitespace(s[i]) then SkipSpaceForward(s, i + 1) else i
  }

  /** Everything `SkipSpaceForward` skips is whitespace. */
  lemma {:induction false} SkippedForwardIsWhitespace(s: string, i: nat)
    requires i <= |s|
    ensures forall k :: i <= k < SkipSpaceForward(s, i) ==> IsWhitespace(s[k])
    decreases |s| - i
  {
    if i < |s| && IsWhitespace(s[i]) {
      SkippedForwardIsWhitespace(s, i + 1);
    }
  }

  /** The end of `s[lo..j]` once its trailing whitespace is cut off. */
  function SkipSpaceBackward(s: string, lo: nat, j: nat): (n: nat)
    requires lo <= j <= |s|
    ensures lo <= n <= j
    ensures n == lo || !IsWhitespace(s[n - 1])
    decreases j
  {
    if lo < j && IsWhitespace(s[j - 1]) then SkipSpaceBackward(s, lo, j - 1) else j
  }

  /** Everything `SkipSpaceBackward` cuts off is whitespace. */
  lemma {:induction false} SkippedBackwardIsWhitespace(s: string, lo: nat, j: nat)
    requires lo <= j <= |s|
    ensures forall k :: SkipSpaceBackward(s, lo, j) <= k < j ==> IsWhitespace(s[k])
    decreases j
  {
    if lo < j && IsWhitespace(s[j - 1]) {
      SkippedBackwardIsWhitespace(s, lo, j - 1);
    }
  }

  /** `s.trim()`: the slice of `s` between its leading and its trailing whitespace. */
  function Trim(s: string): string
  {
    var i := SkipSpaceForward(s, 0);
    s[i..SkipSpaceBackward(s, i, |s|)]
  }

  /**
   * `trim()` cuts a run of whitespace from each end and nothing else: the
   * result is a slice of `s`, everything cut is whitespace, and the result
   * neither starts nor ends with whitespace.
   */
  lemma TrimIsSlice(s: string)
    ensures var t, i := Trim(s), SkipSpaceForward(s, 0);
      && i + |t| <= |s| && t == s[i..i + |t|]
      && (forall k :: 0 <= k < i ==> IsWhitespace(s[k]))
      && (forall k :: i + |t| <= k < |s| ==> IsWhitespace(s[k]))
      && (t == [] || (!IsWhitespace(t[0]) && !IsWhitespace(t[|t| - 1])))
  {
    var i := SkipSpaceForward(s, 0);
    var j := SkipSpaceBackward(s, i, |s|);
    SkippedForwardIsWhitespace(s, 0);
    SkippedBackwardIsWhitespace(s, i, |s|);
    assert Trim(s) == s[i..j];
    if i < j {
      assert Trim(s)[0] == s[i];
      assert Trim(s)[j - i - 1] == s[j - 1];
    }
  }

  /** A string that neither starts nor ends with whitespace is its own trim. */
  lemma TrimUnchanged(s: string)
    requires s == [] || (!IsWhitespace(s[0]) && !IsWhitespace(s[|s| - 1]))
    ensures Trim(s) == s
  {
    if s != [] {
      assert SkipSpaceForward(s, 0) == 0;
    }
  }

  /** Trimming twice is trimming once. */
  lemma TrimIdempotent(s: string)
    ensures Trim(Trim(s)) == Trim(s)
  {
    TrimIsSlice(s);
    TrimUnchanged(Trim(s));
  }

  /** A string of digits has no whitespace to trim. */
  lemma TrimDigits(s: string)
    requires AllDigits(s)
    ensures Trim(s) == s
  {
    if s != [] {
      assert IsDigit(s[0]) && IsDigit(s[|s| - 1]);
    }
    TrimUnchanged(s);
  }

  /** Removing whitespace from a string of digits leaves it unchanged. */
  lemma RemoveWhitespaceDigits(s: string)
    requires AllDigits(s)
    ensures RemoveWhitespace(s) == s
  {
    FilterAll(s, NotWhitespace);
  }

  /** Taking the digits of a string of digits leaves it unchanged. */
  lemma DigitsOfDigits(s: string)
    requires AllDigits(s)
    ensures Digits(s) == s
  {
    FilterAll(s, IsDigit);
  }

  /** `toUpperCase()` on one character, for the ASCII letters. */
  function UpperChar(c: char): char
  {
    if 'a' <= c <= 'z' then (c as int - 'a' as int + 'A' as int) as char else c
  }

  /** `s.toUpperCase()`, with ASCII case mapping. */
  function ToUpper(s: string): (r: string)
    ensures |r| == |s|
    ensures forall i :: 0 <= i < |s| ==> r[i] == UpperChar(s[i])
  {
    if |s| == 0 then [] else [UpperChar(s[0])] + ToUpper(s[1..])
  }

  /** Upper-casing an upper-cased string changes nothing. */
  lemma ToUpperIdempotent(s: string)
    ensures ToUpper(ToUpper(s)) == ToUpper(s)
  {
  }

  /** No lower-case ASCII letter survives upper-casing. */
  lemma ToUpperHasNoLowerCase(s: string)
    ensures forall i :: 0 <= i < |ToUpper(s)| ==> !('a' <= ToUpper(s)[i] <= 'z')
  {
  }
}

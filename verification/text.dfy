/** The two string utilities the forms rely on: JavaScript's
    `String.prototype.trim` and the `/\D/g` digit filter. */
module Text {
  import Seqs

  /** The characters `trim` strips: ECMAScript's WhiteSpace (tab, vertical tab,
      form feed, space, no-break space, byte-order mark and every other space
      separator) and LineTerminator (LF, CR, line and paragraph separators). */
  predicate IsWhitespace(c: char) {
    || c == '\t' || c == '\U{000B}' || c == '\U{000C}' || c == ' '
    || c == '\U{00A0}' || c == '\U{FEFF}'
    || c == '\U{1680}' || ('\U{2000}' <= c <= '\U{200A}')
    || c == '\U{202F}' || c == '\U{205F}' || c == '\U{3000}'
    || c == '\n' || c == '\r' || c == '\U{2028}' || c == '\U{2029}'
  }

  predicate AllWhitespace(s: string) {
    forall i :: 0 <= i < |s| ==> IsWhitespace(s[i])
  }

  /** `r` is `s` with some whitespace removed from its start (the first `k`
      characters) and from its end, and nothing else. */
  ghost predicate StrippedAt(s: string, r: string, k: nat) {
    && k + |r| <= |s| && r == s[k..k + |r|]
    && (forall j :: 0 <= j < k ==> IsWhitespace(s[j]))
    && (forall j :: k + |r| <= j < |s| ==> IsWhitespace(s[j]))
  }

  ghost predicate Stripped(s: string, r: string) {
    exists k: nat :: StrippedAt(s, r, k)
  }

  /** Index of the first non-whitespace character at or after `i`. */
  function FirstNonBlank(s: string, i: nat): (k: nat)
    requires i <= |s|
    ensures i <= k <= |s|
    ensures forall j :: i <= j < k ==> IsWhitespace(s[j])
    ensures k < |s| ==> !IsWhitespace(s[k])
    decreases |s| - i
  {
    if i < |s| && IsWhitespace(s[i]) then FirstNonBlank(s, i + 1) else i
  }

  /** End of the text in `s[lo..e]` once trailing whitespace is dropped. */
  function EndOfNonBlank(s: string, lo: nat, e: nat): (k: nat)
    requires lo <= e <= |s|
    ensures lo <= k <= e
    ensures forall j :: k <= j < e ==> IsWhitespace(s[j])
    ensures k > lo ==> !IsWhitespace(s[k - 1])
    decreases e
  {
    if e > lo && IsWhitespace(s[e - 1]) then EndOfNonBlank(s, lo, e - 1) else e
  }

  /** `s.trim()`: `s` with whitespace removed from both ends only; the result
      neither starts nor ends with whitespace. */
  function Trim(s: string): (r: string)
    ensures |r| <= |s|
    ensures Stripped(s, r)
    ensures r == [] || (!IsWhitespace(r[0]) && !IsWhitespace(r[|r| - 1]))
  {
    var k := FirstNonBlank(s, 0);
    var e := EndOfNonBlank(s, k, |s|);
    assert StrippedAt(s, s[k..e], k);
    s[k..e]
  }

  /** A trimmed string is empty exactly when the input is all whitespace: the
      `!x.trim()` blank test of the forms. */
  lemma TrimEmptyIffBlank(s: string)
    ensures Trim(s) == [] <==> AllWhitespace(s)
  {
    var r := Trim(s);
    var k: nat :| StrippedAt(s, r, k);
    if r != [] {
      assert s[k] == r[0];
    }
  }

  predicate IsDigit(c: char) {
    '0' <= c <= '9'
  }

  /** `s.replace(/\D/g, "")`: keeps the ASCII digits of `s`, in order. */
  function DigitsOnly(s: string): (r: string)
    ensures |r| <= |s|
    ensures forall i :: 0 <= i < |r| ==> IsDigit(r[i])
    ensures forall c :: IsDigit(c) ==> multiset(r)[c] == multiset(s)[c]
    ensures Seqs.IsSubseq(r, s)
    decreases |s|
  {
    if |s| == 0 then ""
    else
      var rest := DigitsOnly(s[1..]);
      assert s == [s[0]] + s[1..];
      if IsDigit(s[0]) then
        assert ([s[0]] + rest)[1..] == rest;
        [s[0]] + rest
      else rest
  }

  /** A string of digits is left unchanged by the digit filter. */
  lemma {:induction false} DigitsOnlyKeepsDigits(s: string)
    requires forall i :: 0 <= i < |s| ==> IsDigit(s[i])
    ensures DigitsOnly(s) == s
    decreases |s|
  {
    if |s| > 0 {
      DigitsOnlyKeepsDigits(s[1..]);
    }
  }
}

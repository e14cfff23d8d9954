/**
 * The part of ECMAScript string handling the catalog relies on:
 * `String.prototype.trim` and the falsiness test `!s`.
 */
module JsText {
  import opened Wrappers

  /** WhiteSpace and LineTerminator code points, the characters `trim` removes. */
  predicate IsWhiteSpace(c: char) {
    || '\t' <= c <= '\r'
    || c == ' ' || c == '\U{00A0}' || c == '\U{1680}'
    || '\U{2000}' <= c <= '\U{200A}'
    || c == '\U{2028}' || c == '\U{2029}' || c == '\U{202F}' || c == '\U{205F}'
    || c == '\U{3000}' || c == '\U{FEFF}'
  }

  /** Every character of `s` is white space (vacuously so for ""). */
  predicate Blank(s: string) {
    forall i :: 0 <= i < |s| ==> IsWhiteSpace(s[i])
  }

  /** A string `trim` leaves as it is: it neither starts nor ends with white space. */
  predicate IsTrimmed(s: string) {
    s == [] || (!IsWhiteSpace(s[0]) && !IsWhiteSpace(s[|s| - 1]))
  }

  /** The number of white-space characters `s` starts with. */
  function LeadingBlanks(s: string): (n: nat)
    ensures n <= |s|
    ensures forall i :: 0 <= i < n ==> IsWhiteSpace(s[i])
    ensures n < |s| ==> !IsWhiteSpace(s[n])
  {
    if s == [] || !IsWhiteSpace(s[0]) then 0
    else
      var n := LeadingBlanks(s[1..]);
      assert forall i :: 1 <= i <= n && i < |s| ==> s[i] == s[1..][i - 1];
      n + 1
  }

  /** Where the trailing white space of `s` begins. */
  function ContentEnd(s: string): (n: nat)
    ensures n <= |s|
    ensures forall i :: n <= i < |s| ==> IsWhiteSpace(s[i])
    ensures n > 0 ==> !IsWhiteSpace(s[n - 1])
  {
    if s == [] || !IsWhiteSpace(s[|s| - 1]) then |s|
    else ContentEnd(s[..|s| - 1])
  }

  /** `s.trim()`: `s` without its leading and then its trailing white space. */
  function Trim(s: string): (r: string)
    ensures IsTrimmed(r)
  {
    var t := s[LeadingBlanks(s)..];
    var r := t[..ContentEnd(t)];
    assert r != [] ==> r[0] == t[0] && r[|r| - 1] == t[ContentEnd(t) - 1];
    r
  }

  /** `trim` removes only white space, and only at the two ends: its result is an infix of `s`. */
  lemma TrimIsInfix(s: string)
    ensures exists i, j :: 0 <= i <= j <= |s| && Trim(s) == s[i..j] && Blank(s[..i]) && Blank(s[j..])
  {
    var i := LeadingBlanks(s);
    var t := s[i..];
    var j := i + ContentEnd(t);
    assert Trim(s) == s[i..j];
    assert forall k :: 0 <= k < |s| - j ==> s[j..][k] == t[ContentEnd(t) + k];
  }

  /** JavaScript falsiness of an optional string: `!x` holds of `undefined` and of `""`. */
  predicate Truthy(x: Option<string>) {
    x.Some? && x.value != ""
  }

  /** A trimmed string is left unchanged by `trim`. */
  lemma TrimOfTrimmed(s: string)
    requires IsTrimmed(s)
    ensures Trim(s) == s
  {
    assert LeadingBlanks(s) == 0;
    assert s[0..] == s;
    assert ContentEnd(s) == |s|;
  }

  /** `trim` is idempotent: trimming a stored, already-trimmed name changes nothing. */
  lemma TrimIdempotent(s: string)
    ensures Trim(Trim(s)) == Trim(s)
  {
    TrimOfTrimmed(Trim(s));
  }

  /** `trim` yields "" exactly for blank strings, so "   " is truthy yet trims to "". */
  lemma TrimEmptyIffBlank(s: string)
    ensures Trim(s) == [] <==> Blank(s)
  {
    var n := LeadingBlanks(s);
    var t := s[n..];
    if Blank(s) {
      assert n == |s|;
    } else {
      assert n < |s|;
      assert t[0] == s[n];
      assert ContentEnd(t) > 0;
    }
  }
}

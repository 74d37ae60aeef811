/** Strings as JavaScript's `trim` sees them. */
module Text {

  /** The code points matched by JavaScript's `\s` class: white space and line terminators. */
  predicate IsSpace(c: char)
  {
    || c == ' ' || c == '\t' || c == '\n' || c == '\r' || c == '\U{000B}' || c == '\U{000C}'
    || c == '\U{00A0}' || c == '\U{1680}' || ('\U{2000}' <= c <= '\U{200A}')
    || c == '\U{2028}' || c == '\U{2029}' || c == '\U{202F}' || c == '\U{205F}'
    || c == '\U{3000}' || c == '\U{FEFF}'
  }

  /** The end of the run of white space in `s` that starts at position `i`. */
  function SpaceRunFrom(s: string, i: nat): (n: nat)
    requires i <= |s|
    ensures i <= n <= |s|
    ensures forall k :: i <= k < n ==> IsSpace(s[k])
    ensures n == |s| || !IsSpace(s[n])
    decreases |s| - i
  {
    if i < |s| && IsSpace(s[i]) then SpaceRunFrom(s, i + 1) else i
  }

  /** The start of the run of white space in `s[lo..j]` that ends at position `j`. */
  function SpaceRunBefore(s: string, lo: nat, j: nat): (n: nat)
    requires lo <= j <= |s|
    ensures lo <= n <= j
    ensures forall k :: n <= k < j ==> IsSpace(s[k])
    ensures n == lo || !IsSpace(s[n - 1])
    decreases j
  {
    if lo < j && IsSpace(s[j - 1]) then SpaceRunBefore(s, lo, j - 1) else j
  }

  /**
   * `String.prototype.trim`: the infix of `s` that neither starts nor ends with white
   * space, obtained by removing only white space.
   */
  function Trim(s: string): (r: string)
    ensures |r| <= |s|
    ensures r == [] || (!IsSpace(r[0]) && !IsSpace(r[|r| - 1]))
    ensures var i := SpaceRunFrom(s, 0);
      && i + |r| <= |s| && r == s[i..i + |r|]
      && (forall k :: 0 <= k < i ==> IsSpace(s[k]))
      && (forall k :: i + |r| <= k < |s| ==> IsSpace(s[k]))
  {
    var i := SpaceRunFrom(s, 0);
    var j := SpaceRunBefore(s, i, |s|);
    s[i..j]
  }

  /** Trimming a trimmed string changes nothing, so a sanitizer and a schema setter may both trim. */
  lemma TrimIdempotent(s: string)
    ensures Trim(Trim(s)) == Trim(s)
  {
    var t := Trim(s);
    if t != [] {
      assert SpaceRunFrom(t, 0) == 0;
      assert SpaceRunBefore(t, 0, |t|) == |t|;
    }
  }

  /** `Trim` applied to every element, as a sanitizer on `tags.*` or a schema setter on `[String]` does. */
  function TrimAll(ss: seq<string>): (r: seq<string>)
    ensures |r| == |ss|
    ensures forall k :: 0 <= k < |ss| ==> r[k] == Trim(ss[k])
  {
    if ss == [] then [] else [Trim(ss[0])] + TrimAll(ss[1..])
  }
}

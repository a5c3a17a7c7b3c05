/** String trimming as done by JavaScript's String.prototype.trim, on `string` = seq<char>. */
module Text {

  /** The characters `trim` removes: ECMAScript's WhiteSpace and LineTerminator code points. */
  predicate IsSpace(c: char) {
    || c == ' ' || c == '\t' || c == '\n' || c == '\r'
    || c == '\U{B}' || c == '\U{C}' || c == '\U{A0}' || c == '\U{1680}'
    || ('\U{2000}' <= c <= '\U{200A}')
    || c == '\U{2028}' || c == '\U{2029}' || c == '\U{202F}' || c == '\U{205F}'
    || c == '\U{3000}' || c == '\U{FEFF}'
  }

  /** Every character of `s` is white space (the empty string included). */
  predicate AllSpace(s: string) {
    forall k :: 0 <= k < |s| ==> IsSpace(s[k])
  }

  /** The characters of `s` from index `lo` up to (not including) `hi` are white space. */
  predicate SpaceIn(s: string, lo: int, hi: int) {
    forall k :: lo <= k < hi && 0 <= k < |s| ==> IsSpace(s[k])
  }

  /** Neither end of `s` is white space. */
  predicate Trimmed(s: string) {
    s == [] || (!IsSpace(s[0]) && !IsSpace(s[|s| - 1]))
  }

  /** The index of the first character of `s` at or after `k` that is not white space
      (|s| when there is none). */
  function SkipSpace(s: string, k: nat): (i: nat)
    requires k <= |s|
    ensures k <= i <= |s| && SpaceIn(s, k, i)
    ensures i == |s| || !IsSpace(s[i])
    decreases |s| - k
  {
    if k < |s| && IsSpace(s[k]) then SkipSpace(s, k + 1) else k
  }

  /** The index just past the last character of `s` before `k` and at or after `lo` that is
      not white space (`lo` when there is none). */
  function SkipSpaceBack(s: string, lo: nat, k: nat): (j: nat)
    requires lo <= k <= |s|
    ensures lo <= j <= k && SpaceIn(s, j, k)
    ensures j == lo || !IsSpace(s[j - 1])
    decreases k
  {
    if lo < k && IsSpace(s[k - 1]) then SkipSpaceBack(s, lo, k - 1) else k
  }

  /** The number of white-space characters at the front of `s`. */
  function Lead(s: string): (i: nat)
    ensures i <= |s|
  {
    SkipSpace(s, 0)
  }

  /** `s` without white space at either end: the piece of `s` that starts after its leading
      white space, whose two ends are not white space, and after which only white space
      follows. */
  function Trim(s: string): (r: string)
    ensures Trimmed(r)
    ensures Lead(s) + |r| <= |s| && r == s[Lead(s)..Lead(s) + |r|]
    ensures SpaceIn(s, 0, Lead(s)) && SpaceIn(s, Lead(s) + |r|, |s|)
  {
    var i := Lead(s);
    s[i..SkipSpaceBack(s, i, |s|)]
  }

  /** The source's blank test `s.trim() === ''`. */
  predicate IsBlank(s: string) {
    Trim(s) == ""
  }

  /** Any piece of `s` that is `Trimmed` and is cut out of `s` by removing only white space
      at its two ends is the result of `Trim`. */
  lemma TrimUnique(s: string, i: nat, r: string)
    requires i + |r| <= |s| && r == s[i..i + |r|]
    requires SpaceIn(s, 0, i) && SpaceIn(s, i + |r|, |s|) && Trimmed(r)
    ensures Trim(s) == r
  {
  }

  /** Trimming leaves an already trimmed string alone; in particular `Trim` is idempotent. */
  lemma TrimOfTrimmed(s: string)
    requires Trimmed(s)
    ensures Trim(s) == s
  {
  }

  lemma TrimIdempotent(s: string)
    ensures Trim(Trim(s)) == Trim(s)
  {
    TrimOfTrimmed(Trim(s));
  }

  /** A string is blank exactly when all of its characters are white space. */
  lemma BlankIffAllSpace(s: string)
    ensures IsBlank(s) <==> AllSpace(s)
  {
  }

  /** White space added around a string does not change what `Trim` returns, so
      "orders" and "  orders\n" name the same channel. */
  lemma TrimIgnoresPadding(before: string, s: string, after: string)
    requires AllSpace(before) && AllSpace(after)
    ensures Trim(before + s + after) == Trim(s)
  {
    var t := Trim(s);
    var j := Lead(s);
    var w := before + s + after;
    var i := |before| + j;
    assert w[i..i + |t|] == s[j..j + |t|];
    TrimUnique(w, i, t);
  }
}

/** The parts of Go's `strings` package that the driver post-processing relies
    on: `TrimSpace`, `Trim` with a cutset, `TrimPrefix` and `TrimSuffix`, over
    strings seen as sequences of Unicode scalar values. */
module Text {

  /** The characters a trim removes: white space in the sense of Go's
      `unicode.IsSpace` (what `strings.TrimSpace` removes), or the characters
      of a cutset string (what `strings.Trim` removes). */
  datatype CharSet = WhiteSpace | Cutset(chars: string)

  predicate In(c: char, p: CharSet) {
    match p
    case WhiteSpace => IsSpace(c)
    case Cutset(cs) => c in cs
  }

  /** Every character of `s` from `lo` up to `hi` is in `p`. */
  ghost predicate AllIn(s: string, p: CharSet, lo: int, hi: int) {
    forall k :: lo <= k < hi && 0 <= k < |s| ==> In(s[k], p)
  }

  /** `r` is `s` with some characters in `p` cut from each end. */
  ghost predicate CutFromEnds(s: string, r: string, p: CharSet) {
    exists i, j :: 0 <= i <= j <= |s| && r == s[i..j] && AllIn(s, p, 0, i) && AllIn(s, p, j, |s|)
  }

  /** Neither the first nor the last character of `r` is in `p`. */
  ghost predicate BareEnds(r: string, p: CharSet) {
    r == [] || (!In(r[0], p) && !In(r[|r| - 1], p))
  }

  /** Where the run of characters in `p` that starts at `i` ends. */
  function SkipFrom(s: string, p: CharSet, i: nat): (k: nat)
    requires i <= |s|
    ensures i <= k <= |s|
    decreases |s| - i
  {
    if i == |s| || !In(s[i], p) then i else SkipFrom(s, p, i + 1)
  }

  /** `SkipFrom` stops exactly at the end of the run: everything it passes
      is in `p` and the character it stops at is not. */
  lemma {:induction false} SkipFromRun(s: string, p: CharSet, i: nat)
    requires i <= |s|
    ensures var k := SkipFrom(s, p, i); AllIn(s, p, i, k) && (k < |s| ==> !In(s[k], p))
    decreases |s| - i
  {
    if i < |s| && In(s[i], p) {
      SkipFromRun(s, p, i + 1);
    }
  }

  /** Where the run of characters in `p` that ends at `j` starts, not going
      below `lo`. */
  function SkipBack(s: string, p: CharSet, lo: nat, j: nat): (k: nat)
    requires lo <= j <= |s|
    ensures lo <= k <= j
  {
    if j == lo || !In(s[j - 1], p) then j else SkipBack(s, p, lo, j - 1)
  }

  /** `SkipBack` stops exactly at the start of the run. */
  lemma {:induction false} SkipBackRun(s: string, p: CharSet, lo: nat, j: nat)
    requires lo <= j <= |s|
    ensures var k := SkipBack(s, p, lo, j); AllIn(s, p, k, j) && (k > lo ==> !In(s[k - 1], p))
  {
    if j > lo && In(s[j - 1], p) {
      SkipBackRun(s, p, lo, j - 1);
    }
  }

  /** Go's `strings.Trim` and `strings.TrimFunc`: drop the leading, then
      the trailing, run of characters in `p`. */
  function Trim(s: string, p: CharSet): (r: string)
    ensures |r| <= |s|
  {
    var i := SkipFrom(s, p, 0);
    s[i..SkipBack(s, p, i, |s|)]
  }

  /** What `Trim` removes is in `p`, and what it keeps does not begin or
      end with such a character. */
  lemma TrimSpec(s: string, p: CharSet)
    ensures CutFromEnds(s, Trim(s, p), p)
    ensures BareEnds(Trim(s, p), p)
  {
    var i := SkipFrom(s, p, 0);
    var j := SkipBack(s, p, i, |s|);
    SkipFromRun(s, p, 0);
    SkipBackRun(s, p, i, |s|);
    assert Trim(s, p) == s[i..j];
  }

  /** Any slice of `s` obtained by cutting characters in `p` from the ends,
      and whose own ends are not in `p`, is `Trim(s, p)`. */
  lemma CutIsTrim(s: string, r: string, p: CharSet, i: nat, j: nat)
    requires i <= j <= |s| && r == s[i..j] && AllIn(s, p, 0, i) && AllIn(s, p, j, |s|)
    requires BareEnds(r, p)
    ensures r == Trim(s, p)
  {
    var k := SkipFrom(s, p, 0);
    SkipFromRun(s, p, 0);
    if i < j {
      assert s[i] == r[0] && s[j - 1] == r[|r| - 1];
      assert k == i;
      var k' := SkipBack(s, p, i, |s|);
      SkipBackRun(s, p, i, |s|);
      assert k' == j;
    } else {
      assert k == |s|;
    }
  }

  /** `CutFromEnds` and `BareEnds` together pin the result down: any `r`
      with both properties is `Trim(s, p)`. */
  lemma TrimUnique(s: string, r: string, p: CharSet)
    requires CutFromEnds(s, r, p) && BareEnds(r, p)
    ensures r == Trim(s, p)
  {
    var i, j :| 0 <= i <= j <= |s| && r == s[i..j] && AllIn(s, p, 0, i) && AllIn(s, p, j, |s|);
    CutIsTrim(s, r, p, i, j);
  }

  /** Trimming an already trimmed string changes nothing. */
  lemma TrimIdempotent(s: string, p: CharSet)
    ensures Trim(Trim(s, p), p) == Trim(s, p)
  {
    var r := Trim(s, p);
    TrimSpec(s, p);
    assert r[0..|r|] == r;
    CutIsTrim(r, r, p, 0, |r|);
  }

  /** Two successive cuts leave a contiguous slice of the original. */
  lemma SliceOfSlice(s: string, t: string, r: string, i: nat, j: nat, i': nat, j': nat)
    requires i <= j <= |s| && t == s[i..j] && i' <= j' <= |t| && r == t[i'..j']
    ensures r == s[i + i'..i + j']
  {
    assert forall k :: 0 <= k < |r| ==> r[k] == s[i + i' + k];
  }

  /** Whatever two trims cut away, the rest is a contiguous part of `s`. */
  lemma CutFromEndsCompose(s: string, t: string, r: string, p: CharSet, q: CharSet)
    requires CutFromEnds(s, t, p) && CutFromEnds(t, r, q)
    ensures exists i, j :: 0 <= i <= j <= |s| && r == s[i..j]
  {
    var i, j :| 0 <= i <= j <= |s| && t == s[i..j] && AllIn(s, p, 0, i) && AllIn(s, p, j, |s|);
    var i', j' :| 0 <= i' <= j' <= |t| && r == t[i'..j'] && AllIn(t, q, 0, i') && AllIn(t, q, j', |t|);
    SliceOfSlice(s, t, r, i, j, i', j');
  }

  /** Go's `unicode.IsSpace`: the Latin-1 spaces and the other Unicode
      White_Space characters. */
  predicate IsSpace(c: char) {
    c == '\t' || c == '\n' || c == '\U{B}' || c == '\U{C}' || c == '\r' || c == ' '
    || c == '\U{85}' || c == '\U{A0}' || c == '\U{1680}'
    || ('\U{2000}' <= c <= '\U{200A}')
    || c == '\U{2028}' || c == '\U{2029}' || c == '\U{202F}' || c == '\U{205F}' || c == '\U{3000}'
  }

  /** Go's `strings.TrimSpace`. */
  function TrimSpace(s: string): string {
    Trim(s, WhiteSpace)
  }

  /** Go's `strings.HasPrefix`: Dafny's sequence-prefix relation. */
  predicate HasPrefix(s: string, prefix: string) {
    prefix <= s
  }

  /** Go's `strings.HasSuffix`. */
  predicate HasSuffix(s: string, suffix: string) {
    |suffix| <= |s| && s[|s| - |suffix|..] == suffix
  }

  /** Go's `strings.TrimPrefix`: remove one leading `prefix`, if present. */
  function TrimPrefix(s: string, prefix: string): string {
    if HasPrefix(s, prefix) then s[|prefix|..] else s
  }

  /** `TrimPrefix` splits off `prefix` when `s` starts with it and returns
      `s` unchanged otherwise. */
  lemma TrimPrefixSplit(s: string, prefix: string)
    ensures HasPrefix(s, prefix) ==> s == prefix + TrimPrefix(s, prefix)
    ensures !HasPrefix(s, prefix) ==> TrimPrefix(s, prefix) == s
  {
  }

  /** Go's `strings.TrimSuffix`: remove one trailing `suffix`, if present. */
  function TrimSuffix(s: string, suffix: string): string {
    if HasSuffix(s, suffix) then s[..|s| - |suffix|] else s
  }

  /** `TrimSuffix` splits off `suffix` when `s` ends with it and returns `s`
      unchanged otherwise. */
  lemma TrimSuffixSplit(s: string, suffix: string)
    ensures HasSuffix(s, suffix) ==> s == TrimSuffix(s, suffix) + suffix
    ensures !HasSuffix(s, suffix) ==> TrimSuffix(s, suffix) == s
  {
  }
}

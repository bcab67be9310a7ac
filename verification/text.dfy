/** The JavaScript string operations the templates rely on, over `string` (`seq<char>`):
    `indexOf`, `replace` with a string pattern (first occurrence only), `join`
    and `split` with a one-character separator. */
module Text {

  /** `sub` occurs in `s` starting at index `i`. */
  predicate OccursAt(s: string, sub: string, i: int) {
    0 <= i && i + |sub| <= |s| && s[i..i + |sub|] == sub
  }

  /** `sub` occurs somewhere in `s`. */
  predicate Contains(s: string, sub: string) {
    exists i | 0 <= i <= |s| :: OccursAt(s, sub, i)
  }

  /** `s.indexOf(sub, from)`: the first occurrence of `sub` at or after `from`, or -1. */
  function IndexFrom(s: string, sub: string, from: nat): (r: int)
    ensures r == -1 || (from <= r && OccursAt(s, sub, r))
    ensures forall j :: from <= j && (r == -1 || j < r) ==> !OccursAt(s, sub, j)
    decreases |s| - from
  {
    if from + |sub| > |s| then -1
    else if s[from..from + |sub|] == sub then from
    else IndexFrom(s, sub, from + 1)
  }

  /** `s.indexOf(sub)`, which is -1 exactly when `sub` does not occur in `s`. */
  function IndexOf(s: string, sub: string): (r: int)
    ensures r != -1 <==> Contains(s, sub)
    ensures r != -1 ==> OccursAt(s, sub, r) && forall j :: 0 <= j < r ==> !OccursAt(s, sub, j)
  {
    IndexFrom(s, sub, 0)
  }

  /** The position of the first `c` in `s`. */
  function FirstPos(s: string, c: char): (r: nat)
    requires c in s
    ensures r < |s| && s[r] == c && c !in s[..r]
  {
    if s[0] == c then 0
    else
      assert c in s[1..] by { assert s == [s[0]] + s[1..]; }
      var r := 1 + FirstPos(s[1..], c);
      assert s[..r] == [s[0]] + s[1..][..r - 1];
      r
  }

  /** The first `c` of `a + [c] + b` is the one after `a` when `a` holds no `c`. */
  lemma FirstPosAfterPrefix(a: string, c: char, b: string)
    requires c !in a
    ensures c in a + [c] + b && FirstPos(a + [c] + b, c) == |a|
  {
    var s := a + [c] + b;
    assert s[|a|] == c;
    var r := FirstPos(s, c);
    assert forall j :: 0 <= j < |a| ==> s[j] == a[j];
    assert forall j :: 0 <= j < r ==> s[..r][j] == s[j];
  }

  /** `s.replace(c, '')` with a one-character string pattern: JavaScript replaces the
      first occurrence only. */
  function RemoveFirst(s: string, c: char): (r: string)
    ensures c !in s ==> r == s
    ensures c in s ==> |r| == |s| - 1 && r == s[..FirstPos(s, c)] + s[FirstPos(s, c) + 1..]
  {
    if c in s then
      var i := FirstPos(s, c);
      s[..i] + s[i + 1..]
    else s
  }

  /** Removing the first `c` takes exactly one `c` out of the characters of `s`, if
      there is one, and leaves every other character count unchanged. */
  lemma RemoveFirstMultiset(s: string, c: char)
    ensures multiset(RemoveFirst(s, c)) == multiset(s) - multiset{c}
  {
    if c in s {
      var i := FirstPos(s, c);
      assert s == s[..i] + [s[i]] + s[i + 1..];
      assert multiset(s) == multiset(s[..i]) + multiset{c} + multiset(s[i + 1..]);
    } else {
      assert multiset(s)[c] == 0;
    }
  }

  /** `segs.join(sep)`. */
  function Join(segs: seq<string>, sep: char): string
  {
    if |segs| == 0 then ""
    else if |segs| == 1 then segs[0]
    else segs[0] + [sep] + Join(segs[1..], sep)
  }

  /** `s.split(sep)`: the pieces between separators, at least one piece. */
  function Split(s: string, sep: char): (r: seq<string>)
    ensures |r| >= 1
    decreases |s|
  {
    if sep in s then
      var i := FirstPos(s, sep);
      [s[..i]] + Split(s[i + 1..], sep)
    else [s]
  }

  /** Splitting a join gives back the pieces, when no piece holds the separator. */
  lemma {:induction false} SplitJoin(segs: seq<string>, sep: char)
    requires |segs| >= 1
    requires forall i :: 0 <= i < |segs| ==> sep !in segs[i]
    ensures Split(Join(segs, sep), sep) == segs
    decreases |segs|
  {
    if |segs| > 1 {
      var rest := Join(segs[1..], sep);
      var s := segs[0] + [sep] + rest;
      FirstPosAfterPrefix(segs[0], sep, rest);
      assert s[..|segs[0]|] == segs[0];
      assert s[|segs[0]| + 1..] == rest;
      SplitJoin(segs[1..], sep);
      assert segs == [segs[0]] + segs[1..];
    }
  }
}

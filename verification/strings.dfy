/**
 * The parts of Go's `strings` package the request handlers use to take a
 * URL path apart: trimming a cut character from both ends, splitting on a
 * separator, and prefix and suffix tests.
 */
module Strings {

  /** `strings.HasPrefix`. */
  predicate HasPrefix(s: string, prefix: string) {
    prefix <= s
  }

  /** `strings.HasSuffix`. */
  predicate HasSuffix(s: string, suffix: string) {
    |suffix| <= |s| && s[|s| - |suffix|..] == suffix
  }

  /** `strings.TrimSuffix`: drop the suffix once when it is there. */
  function TrimSuffix(s: string, suffix: string): (r: string)
    ensures HasSuffix(s, suffix) ==> r + suffix == s
    ensures !HasSuffix(s, suffix) ==> r == s
  {
    if HasSuffix(s, suffix) then s[..|s| - |suffix|] else s
  }

  /** A string ends with what was appended to it, and TrimSuffix takes it off again. */
  lemma SuffixOfConcat(a: string, b: string)
    ensures HasSuffix(a + b, b) && TrimSuffix(a + b, b) == a
  {
    assert (a + b)[|a|..] == b;
  }

  /** A character in neither part is not in their concatenation. */
  lemma NotInConcat(a: string, b: string, c: char)
    requires c !in a && c !in b
    ensures c !in a + b
  {
    var s := a + b;
    assert forall i :: 0 <= i < |s| ==> s[i] == if i < |a| then a[i] else b[i - |a|];
  }

  /** Every character of `s` is `c`. */
  predicate AllAre(s: string, c: char) {
    forall i :: 0 <= i < |s| ==> s[i] == c
  }

  /** Every character of `s` from position `lo` up to `hi` is `c`. */
  predicate AllAreBetween(s: string, lo: int, hi: int, c: char) {
    forall i :: lo <= i < hi && 0 <= i < |s| ==> s[i] == c
  }

  /** Neither end of `s` is `c`. */
  predicate Unpadded(s: string, c: char) {
    s == [] || (s[0] != c && s[|s| - 1] != c)
  }

  /** `strings.TrimLeft(s, string(c))`. */
  function TrimLeft(s: string, c: char): (r: string)
    ensures |r| <= |s| && r == s[|s| - |r|..]
    ensures r == [] || r[0] != c
    decreases |s|
  {
    if s != [] && s[0] == c then TrimLeft(s[1..], c) else s
  }

  /** `strings.TrimRight(s, string(c))`. */
  function TrimRight(s: string, c: char): (r: string)
    ensures |r| <= |s| && r == s[..|r|]
    ensures r == [] || r[|r| - 1] != c
    decreases |s|
  {
    if s != [] && s[|s| - 1] == c then TrimRight(s[..|s| - 1], c) else s
  }

  /** What TrimLeft drops is a run of `c`. */
  lemma {:induction false} TrimLeftRun(s: string, c: char)
    ensures AllAreBetween(s, 0, |s| - |TrimLeft(s, c)|, c)
    decreases |s|
  {
    if s != [] && s[0] == c {
      TrimLeftRun(s[1..], c);
      forall i | 1 <= i < |s| - |TrimLeft(s, c)|
        ensures s[i] == c
      {
        assert s[i] == s[1..][i - 1];
      }
    }
  }

  /** What TrimRight drops is a run of `c`. */
  lemma {:induction false} TrimRightRun(s: string, c: char)
    ensures AllAreBetween(s, |TrimRight(s, c)|, |s|, c)
    decreases |s|
  {
    if s != [] && s[|s| - 1] == c {
      TrimRightRun(s[..|s| - 1], c);
      forall i | |TrimRight(s, c)| <= i < |s| - 1
        ensures s[i] == c
      {
        assert s[i] == s[..|s| - 1][i];
      }
    }
  }

  /**
   * `strings.Trim(s, string(c))`: `s` is the trimmed string with runs of
   * `c` around it, and the trimmed string starts and ends with something
   * else.
   */
  function Trim(s: string, c: char): (r: string)
    ensures Unpadded(r, c)
    ensures PaddedBy(s, r, c)
  {
    var l := TrimLeft(s, c);
    var r := TrimRight(l, c);
    TrimBoth(s, c);
    assert PaddedAt(s, r, c, |s| - |l|);
    r
  }

  /** `s` is `r` with runs of `c` on both sides, the left run `k` long. */
  predicate PaddedAt(s: string, r: string, c: char, k: int) {
    && 0 <= k <= |s| - |r| && s[k..k + |r|] == r
    && AllAreBetween(s, 0, k, c) && AllAreBetween(s, k + |r|, |s|, c)
  }

  /** `s` is `r` with runs of `c` on both sides. */
  predicate PaddedBy(s: string, r: string, c: char) {
    exists k :: 0 <= k <= |s| && PaddedAt(s, r, c, k)
  }

  /** Where the string trimmed on both sides sits inside the original. */
  lemma TrimBoth(s: string, c: char)
    ensures var l := TrimLeft(s, c);
            PaddedAt(s, TrimRight(l, c), c, |s| - |l|)
  {
    TrimLeftRun(s, c);
    TrimInfix(s, c);
    TrimTrailingRun(s, c);
  }

  /** The string trimmed on both sides is the infix after the left run. */
  lemma TrimInfix(s: string, c: char)
    ensures var l := TrimLeft(s, c);
            var r := TrimRight(l, c);
            var k := |s| - |l|;
            0 <= k <= |s| - |r| && s[k..k + |r|] == r
  {
    var l := TrimLeft(s, c);
    InfixOf(s, l, TrimRight(l, c));
  }

  /** Behind that infix there is only the cut character. */
  lemma TrimTrailingRun(s: string, c: char)
    ensures var l := TrimLeft(s, c);
            AllAreBetween(s, |s| - |l| + |TrimRight(l, c)|, |s|, c)
  {
    var l := TrimLeft(s, c);
    var r := TrimRight(l, c);
    var k := |s| - |l|;
    TrimRightRun(l, c);
    forall i | k + |r| <= i < |s|
      ensures s[i] == c
    {
      assert s[i] == l[i - k];
    }
  }

  /** A prefix of a suffix of `s` sits inside `s`. */
  lemma InfixOf(s: string, l: string, r: string)
    requires |l| <= |s| && l == s[|s| - |l|..]
    requires |r| <= |l| && r == l[..|r|]
    ensures s[|s| - |l|..|s| - |l| + |r|] == r
  {
  }

  /** Trimming recovers an unpadded string from any padding of it. */
  lemma {:induction false} TrimPadded(pre: string, x: string, post: string, c: char)
    requires AllAre(pre, c) && AllAre(post, c) && Unpadded(x, c)
    ensures Trim(pre + x + post, c) == x
  {
    var s := pre + x + post;
    if x == [] {
      assert s == pre + post;
      var l := TrimLeft(s, c);
      assert l == [];
    } else {
      TrimLeftPadded(pre, x + post, c);
      assert s == pre + (x + post);
      TrimRightPadded(x, post, c);
    }
  }

  /** TrimLeft removes exactly a leading run of `c`. */
  lemma {:induction false} TrimLeftPadded(pre: string, rest: string, c: char)
    requires AllAre(pre, c) && (rest == [] || rest[0] != c)
    ensures TrimLeft(pre + rest, c) == rest
    decreases |pre|
  {
    if pre != [] {
      assert (pre + rest)[1..] == pre[1..] + rest;
      TrimLeftPadded(pre[1..], rest, c);
    } else {
      assert pre + rest == rest;
    }
  }

  /** TrimRight removes exactly a trailing run of `c`. */
  lemma {:induction false} TrimRightPadded(x: string, post: string, c: char)
    requires AllAre(post, c) && (x == [] || x[|x| - 1] != c)
    ensures TrimRight(x + post, c) == x
    decreases |post|
  {
    if post != [] {
      assert (x + post)[..|x + post| - 1] == x + post[..|post| - 1];
      TrimRightPadded(x, post[..|post| - 1], c);
    } else {
      assert x + post == x;
    }
  }

  /** The position of the first `sep` in `s`. */
  function FirstIndex(s: string, sep: char): (i: nat)
    requires sep in s
    ensures i < |s| && s[i] == sep && sep !in s[..i]
  {
    if s[0] == sep then 0 else 1 + FirstIndex(s[1..], sep)
  }

  /**
   * `strings.Split(s, string(sep))`: the pieces between separators, at least
   * one, none containing the separator; `Split("", sep)` is `[""]`.
   */
  function Split(s: string, sep: char): (parts: seq<string>)
    ensures |parts| >= 1
    ensures forall i :: 0 <= i < |parts| ==> sep !in parts[i]
    ensures Join(parts, sep) == s
    decreases |s|
  {
    if sep !in s then [s]
    else
      var i := FirstIndex(s, sep);
      var parts := [s[..i]] + Split(s[i + 1..], sep);
      assert parts[1..] == Split(s[i + 1..], sep);
      assert s == s[..i] + [sep] + s[i + 1..];
      parts
  }

  /** `strings.Join(parts, string(sep))`. */
  function Join(parts: seq<string>, sep: char): string
    requires |parts| >= 1
    decreases |parts|
  {
    if |parts| == 1 then parts[0] else parts[0] + [sep] + Join(parts[1..], sep)
  }

  /** Splitting a join of separator-free pieces gives the pieces back. */
  lemma {:induction false} SplitJoin(parts: seq<string>, sep: char)
    requires |parts| >= 1
    requires forall i :: 0 <= i < |parts| ==> sep !in parts[i]
    ensures Split(Join(parts, sep), sep) == parts
    decreases |parts|
  {
    var s := Join(parts, sep);
    if |parts| > 1 {
      var tail := Join(parts[1..], sep);
      assert s == parts[0] + [sep] + tail;
      assert sep in s by {
        assert s[|parts[0]|] == sep;
      }
      var i := FirstIndex(s, sep);
      assert i == |parts[0]|;
      assert s[..i] == parts[0];
      assert s[i + 1..] == tail;
      SplitJoin(parts[1..], sep);
      assert [parts[0]] + parts[1..] == parts;
    }
  }
}

/** String and list primitives the session bodies of noxfile.py rely on:
    `str.startswith`, the last field of `str.split(sep)`, and insertion of a
    fragment into a list at a fixed index (`list.insert(1, x)` and the slice
    assignment `list[1:1] = fragment`). */
module Tokens {

  /** Python's `s.startswith(prefix)`: `s` is `prefix` followed by a rest. */
  predicate StartsWith(s: string, prefix: string)
    ensures StartsWith(s, prefix) <==> |prefix| <= |s| && s == prefix + s[|prefix|..]
  {
    |prefix| <= |s| && s[..|prefix|] == prefix
  }

  /** A string that starts with `p + q` also starts with `p`. */
  lemma StartsWithShorter(s: string, p: string, q: string)
    requires StartsWith(s, p + q)
    ensures StartsWith(s, p)
  {
    assert s[..|p|] == (s[..|p + q|])[..|p|];
    assert (p + q)[..|p|] == p;
  }

  /** `s.split(sep)[-1]`: the text after the last `sep` in `s`, or the whole
      of `s` when it holds no `sep`. The contract characterises it: it is a
      suffix of `s` free of `sep`, and it reaches back either to the start of
      `s` or to a `sep`. */
  function LastField(s: string, sep: char): (r: string)
    ensures |r| <= |s| && r == s[|s| - |r|..]
    ensures sep !in r
    ensures |r| < |s| ==> s[|s| - |r| - 1] == sep
    decreases |s|
  {
    if |s| == 0 then ""
    else if s[|s| - 1] == sep then ""
    else
      var front, c := s[..|s| - 1], s[|s| - 1];
      var field := LastField(front, sep);
      assert s == front + [c];
      field + [c]
  }

  /** The field after a separator is recovered exactly when it holds no
      separator itself: `(a + "=" + b).split("=")[-1] == b`. */
  lemma LastFieldAfterSep(a: string, sep: char, b: string)
    requires sep !in b
    ensures LastField(a + [sep] + b, sep) == b
  {
    var s := a + [sep] + b;
    assert s[|a|] == sep;
    assert LastField(s, sep) == s[|a| + 1..];
  }

  /** `s[i:i] = frag` on a Python list (and `s.insert(i, x)` with
      `frag == [x]`): the elements before `i`, then `frag`, then the rest of
      `s` in its old order. */
  function Insert<T>(s: seq<T>, i: nat, frag: seq<T>): (r: seq<T>)
    requires i <= |s|
    ensures |r| == |s| + |frag|
    ensures r[..i] == s[..i]
    ensures r[i..i + |frag|] == frag
    ensures r[i + |frag|..] == s[i..]
  {
    s[..i] + frag + s[i..]
  }

  /** Two insertions at the same index: the later fragment ends up first. */
  lemma InsertTwice<T>(s: seq<T>, i: nat, first: seq<T>, second: seq<T>)
    requires i <= |s|
    ensures Insert(Insert(s, i, first), i, second) == Insert(s, i, second + first)
  {
    var t := Insert(s, i, first);
    assert t[..i] == s[..i];
    assert t[i..] == first + s[i..];
  }
}

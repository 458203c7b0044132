/** Sequence and string helpers with JavaScript's meaning: `Array.prototype.join`,
    the substring test a regular expression without metacharacters performs, and
    "ordered subsequence" for the filters the generator applies to fixed lists. */
module Strings {

  /** `parts.join(sep)`: the parts with one separator between neighbours. */
  function Join(parts: seq<string>, sep: string): string
  {
    if |parts| == 0 then ""
    else if |parts| == 1 then parts[0]
    else parts[0] + sep + Join(parts[1..], sep)
  }

  /** Joining a concatenation is joining the halves with one more separator. */
  lemma {:induction false} JoinAppend(a: seq<string>, b: seq<string>, sep: string)
    requires |a| > 0 && |b| > 0
    ensures Join(a + b, sep) == Join(a, sep) + sep + Join(b, sep)
  {
    if |a| == 1 {
      assert (a + b)[1..] == b;
    } else {
      assert (a + b)[1..] == a[1..] + b;
      JoinAppend(a[1..], b, sep);
    }
  }

  /** Prepending one part puts it and a separator in front, unless nothing follows. */
  lemma JoinCons(x: string, rest: seq<string>, sep: string)
    ensures Join([x] + rest, sep) == if rest == [] then x else x + sep + Join(rest, sep)
  {
    if rest != [] {
      assert ([x] + rest)[1..] == rest;
    }
  }

  /** `/pattern/.test(s)` for a pattern without metacharacters: `pattern` occurs in `s`. */
  predicate Contains(s: string, pattern: string)
    decreases |s|
  {
    |pattern| <= |s| && (s[..|pattern|] == pattern || Contains(s[1..], pattern))
  }

  /** A string that starts with the pattern contains it. */
  lemma ContainsPrefix(pattern: string, tail: string)
    ensures Contains(pattern + tail, pattern)
  {
    assert (pattern + tail)[..|pattern|] == pattern;
  }

  /** `sub` is `s` with some elements removed, the rest kept in their order. */
  predicate IsSubsequence<T(==)>(sub: seq<T>, s: seq<T>)
    decreases |s|
  {
    if sub == [] then true
    else if s == [] then false
    else if sub[0] == s[0] then IsSubsequence(sub[1..], s[1..])
    else IsSubsequence(sub, s[1..])
  }
}

/** Suffixes of a sequence: what a reader or a queue still holds after consuming a prefix. */
module Suffix {

  predicate IsSuffix<T(==)>(r: seq<T>, s: seq<T>) {
    |r| <= |s| && r == s[|s| - |r|..]
  }

  lemma SuffixTransitive<T>(a: seq<T>, b: seq<T>, c: seq<T>)
    requires IsSuffix(a, b) && IsSuffix(b, c)
    ensures IsSuffix(a, c)
  {
    assert c[|c| - |b|..][|b| - |a|..] == c[|c| - |a|..];
  }

  lemma ConcatSuffix<T>(w: seq<T>, r: seq<T>)
    ensures IsSuffix(r, w + r)
  {
    assert (w + r)[|w|..] == r;
  }
}

/** Facts about sequences that the deck, the request trace, the message queue
    and the endpoint strings share. */
module Sequences {

  /** `p` is a prefix of `s`. */
  predicate IsPrefix<T(==)>(p: seq<T>, s: seq<T>)
  {
    |p| <= |s| && s[..|p|] == p
  }

  /** `rest` is what is left of `s` after dropping some of its first elements. */
  predicate IsSuffix<T(==)>(rest: seq<T>, s: seq<T>)
  {
    |rest| <= |s| && rest == s[|s| - |rest|..]
  }

  lemma PrefixTransitive<T>(a: seq<T>, b: seq<T>, c: seq<T>)
    requires IsPrefix(a, b) && IsPrefix(b, c)
    ensures IsPrefix(a, c)
  {
    assert c[..|a|] == c[..|b|][..|a|];
  }

  /** Three stretches joined one after the other form one sequence however
      they are grouped. */
  lemma AppendGrouping<T>(a: seq<T>, b: seq<T>, c: seq<T>)
    ensures a + b + c == a + (b + c)
  {
  }

}

/** Facts about updating and slicing sequences. */
module Sequences {

  /** Updating an element of the front leaves the last element where it was. */
  lemma UpdateFront<T>(init: seq<T>, last: T, v: nat, x: T)
    requires v < |init|
    ensures (init + [last])[v := x] == init[v := x] + [last]
  {
  }

  /** Updating the last element replaces it. */
  lemma UpdateLast<T>(init: seq<T>, last: T, x: T)
    ensures (init + [last])[|init| := x] == init + [x]
  {
  }

  /** Adjacent slices join. */
  lemma SliceAppend<T>(s: seq<T>, a: nat, b: nat, c: nat)
    requires a <= b <= c <= |s|
    ensures s[a..b] + s[b..c] == s[a..c]
  {
  }

  /** A sequence is its prefix followed by the rest. */
  lemma SplitAt<T>(s: seq<T>, n: nat)
    requires n <= |s|
    ensures s[..n] + s[n..] == s
  {
  }

  /** Membership in a concatenation. */
  lemma InConcat<T>(a: seq<T>, b: seq<T>, x: T)
    ensures x in a + b <==> x in a || x in b
  {
  }

  /** The multiset of a non-empty sequence is that of its front plus its last element. */
  lemma MultisetSnoc<T>(s: seq<T>)
    requires s != []
    ensures multiset(s) == multiset(s[..|s| - 1]) + multiset{s[|s| - 1]}
  {
    assert s == s[..|s| - 1] + [s[|s| - 1]];
  }
}

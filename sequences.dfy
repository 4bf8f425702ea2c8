/** Order relations between sequences used to describe what eviction keeps. */
module Sequences {

  /** `a` is what remains of `b` after dropping some elements from its front. */
  ghost predicate IsSuffix<T>(a: seq<T>, b: seq<T>)
  {
    |a| <= |b| && a == b[|b| - |a|..]
  }

  /** `a` is obtained from `b` by deleting elements, the rest keeping their order. */
  ghost predicate IsSubsequence<T>(a: seq<T>, b: seq<T>)
    decreases |b|
  {
    if a == [] then true
    else if b == [] then false
    else if a[0] == b[0] then IsSubsequence(a[1..], b[1..])
    else IsSubsequence(a, b[1..])
  }

  /** The elements of `s` in the opposite order. */
  function Reversed<T>(s: seq<T>): (r: seq<T>)
    ensures |r| == |s|
    ensures forall i :: 0 <= i < |s| ==> r[i] == s[|s| - 1 - i]
    ensures multiset(r) == multiset(s)
  {
    if s == [] then [] else assert s == [s[0]] + s[1..]; Reversed(s[1..]) + [s[0]]
  }

  lemma SuffixTransitive<T>(a: seq<T>, b: seq<T>, c: seq<T>)
    requires IsSuffix(a, b) && IsSuffix(b, c)
    ensures IsSuffix(a, c)
  {
    assert c[|c| - |b|..][|b| - |a|..] == c[|c| - |a|..];
  }

  /** A suffix of `s + tail` either ends with all of `tail` or is a suffix of `tail`. */
  lemma SuffixOfAppend<T>(r: seq<T>, s: seq<T>, tail: seq<T>)
    requires IsSuffix(r, s + tail)
    ensures |r| >= |tail| ==> r[|r| - |tail|..] == tail
    ensures |r| < |tail| ==> r == tail[|tail| - |r|..]
  {
    var whole := s + tail;
    if |r| >= |tail| {
      assert r[|r| - |tail|..] == whole[|whole| - |tail|..];
    } else {
      assert r == whole[|whole| - |r|..];
    }
  }

  /** Appending after a sequence that ends with `u`. */
  lemma AppendAfterLast<T>(first: seq<T>, u: T, a: T)
    requires first != [] && first[|first| - 1] == u
    ensures first + [a] == first[..|first| - 1] + [u, a]
  {
    assert first == first[..|first| - 1] + [u];
  }

  /** A suffix of `s + [u, a]` is empty, is `[a]`, or ends with `u, a`. */
  lemma SuffixEndsWithPair<T>(r: seq<T>, s: seq<T>, u: T, a: T)
    requires IsSuffix(r, s + [u, a])
    ensures r == [] || r[|r| - 1] == a
    ensures |r| >= 2 ==> r[|r| - 2..] == [u, a]
  {
    SuffixOfAppend(r, s, [u, a]);
    if |r| >= 2 {
      assert r[|r| - 1] == r[|r| - 2..][1];
    }
  }

  lemma {:induction false} SubsequenceReflexive<T>(s: seq<T>)
    ensures IsSubsequence(s, s)
  {
    if s != [] {
      SubsequenceReflexive(s[1..]);
    }
  }

  /** A subsequence stays one when its first element is dropped. */
  lemma {:induction false} SubsequenceDropFirst<T>(a: seq<T>, b: seq<T>)
    requires a != [] && IsSubsequence(a, b)
    ensures IsSubsequence(a[1..], b)
    decreases |b|, 1
  {
    assert b != [];
    if a[0] == b[0] {
      SubsequenceOfTail(a[1..], b);
    } else {
      SubsequenceDropFirst(a, b[1..]);
      SubsequenceOfTail(a[1..], b);
    }
  }

  /** Being a subsequence of the tail of `b` makes `a` a subsequence of `b`. */
  lemma {:induction false} SubsequenceOfTail<T>(a: seq<T>, b: seq<T>)
    requires b != [] && IsSubsequence(a, b[1..])
    ensures IsSubsequence(a, b)
    decreases |b|, 0
  {
    if a != [] && a[0] == b[0] {
      SubsequenceDropFirst(a, b[1..]);
    }
  }

  /** A suffix of a subsequence of `c` is a subsequence of `c`. */
  lemma {:induction false} SuffixOfSubsequence<T>(a: seq<T>, b: seq<T>, c: seq<T>)
    requires IsSuffix(a, b) && IsSubsequence(b, c)
    ensures IsSubsequence(a, c)
    decreases |b|
  {
    if |a| < |b| {
      SubsequenceDropFirst(b, c);
      assert b[1..][|b[1..]| - |a|..] == b[|b| - |a|..];
      SuffixOfSubsequence(a, b[1..], c);
    }
  }

  /** Reversal turns concatenation around. */
  lemma {:induction false} ReversedAppend<T>(a: seq<T>, b: seq<T>)
    ensures Reversed(a + b) == Reversed(b) + Reversed(a)
  {
    var l, r := Reversed(a + b), Reversed(b) + Reversed(a);
    assert |l| == |r|;
    forall i | 0 <= i < |l| ensures l[i] == r[i] {
      if i < |b| {
        assert l[i] == (a + b)[|a| + |b| - 1 - i] == b[|b| - 1 - i];
      } else {
        assert l[i] == (a + b)[|a| + |b| - 1 - i] == a[|a| - 1 - (i - |b|)];
      }
    }
  }
}

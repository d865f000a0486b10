/** Concatenating the images of a sequence. */
module Sequences {

  /** The concatenation of f over a sequence. */
  function FlatMap<A, B>(f: A -> seq<B>, s: seq<A>): seq<B> {
    if s == [] then [] else FlatMap(f, s[..|s| - 1]) + f(s[|s| - 1])
  }

  lemma {:induction false} FlatMapConcat<A, B>(f: A -> seq<B>, a: seq<A>, b: seq<A>)
    ensures FlatMap(f, a + b) == FlatMap(f, a) + FlatMap(f, b)
  {
    if b == [] {
      assert a + b == a;
    } else {
      assert (a + b)[..|a + b| - 1] == a + b[..|b| - 1];
      FlatMapConcat(f, a, b[..|b| - 1]);
    }
  }

  lemma {:induction false} FlatMapEmpty<A, B>(f: A -> seq<B>, s: seq<A>)
    requires forall i :: 0 <= i < |s| ==> f(s[i]) == []
    ensures FlatMap(f, s) == []
  {
    if s != [] {
      FlatMapEmpty(f, s[..|s| - 1]);
    }
  }

  lemma {:induction false} FlatMapAll<A, B>(f: A -> seq<B>, s: seq<A>, p: B -> bool)
    requires forall i, k :: 0 <= i < |s| && 0 <= k < |f(s[i])| ==> p(f(s[i])[k])
    ensures forall k :: 0 <= k < |FlatMap(f, s)| ==> p(FlatMap(f, s)[k])
  {
    if s != [] {
      FlatMapAll(f, s[..|s| - 1], p);
    }
  }
}

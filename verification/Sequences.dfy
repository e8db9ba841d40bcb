/** Concatenating the images of the elements of a sequence. */
module Sequences {

  function FlatMap<A, B>(f: A -> seq<B>, s: seq<A>): seq<B> {
    if s == [] then [] else FlatMap(f, s[..|s| - 1]) + f(s[|s| - 1])
  }

  lemma {:induction false} FlatMapConcat<A, B>(f: A -> seq<B>, a: seq<A>, b: seq<A>)
    ensures FlatMap(f, a + b) == FlatMap(f, a) + FlatMap(f, b)
  {
    if b == [] {
      assert a + b == a;
    } else {
      var front, last := b[..|b| - 1], b[|b| - 1];
      assert (a + b)[..|a + b| - 1] == a + front;
      FlatMapConcat(f, a, front);
      assert FlatMap(f, a + b) == (FlatMap(f, a) + FlatMap(f, front)) + f(last);
    }
  }

  lemma FlatMapOne<A, B>(f: A -> seq<B>, x: A)
    ensures FlatMap(f, [x]) == f(x)
  {
    assert [x][..0] == [];
    assert FlatMap(f, [x][..0]) == [];
  }

  lemma FlatMapMore<A, B>(f: A -> seq<B>, a: seq<A>, x: A)
    ensures FlatMap(f, a + [x]) == FlatMap(f, a) + f(x)
  {
    assert (a + [x])[..|a + [x]| - 1] == a;
  }

  lemma {:induction false} FlatMapNone<A, B>(f: A -> seq<B>, s: seq<A>)
    requires forall x | x in s :: f(x) == []
    ensures FlatMap(f, s) == []
  {
    if s != [] { FlatMapNone(f, s[..|s| - 1]); }
  }

  /** What holds of the images of all elements holds of the whole. */
  lemma {:induction false} FlatMapAll<A, B(!new)>(f: A -> seq<B>, s: seq<A>, p: B -> bool)
    requires forall x, y | x in s && y in f(x) :: p(y)
    ensures forall y | y in FlatMap(f, s) :: p(y)
  {
    if s != [] { FlatMapAll(f, s[..|s| - 1], p); }
  }
}

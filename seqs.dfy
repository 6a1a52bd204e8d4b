/** Sequence helpers shared by the emitter and its parser. */
module Seqs {

  lemma AppendAssoc<T>(a: seq<T>, b: seq<T>, c: seq<T>)
    ensures a + b + c == a + (b + c)
  {
  }

  lemma AppendAssoc4<T>(a: seq<T>, b: seq<T>, c: seq<T>, d: seq<T>, e: seq<T>)
    ensures a + b + c + d + e == a + (b + c + d + e)
  {
  }

  /** Concatenation of `f(x)` over `xs`, in order. */
  function FlatMap<A, B>(f: A -> seq<B>, xs: seq<A>): seq<B>
  {
    if xs == [] then [] else f(xs[0]) + FlatMap(f, xs[1..])
  }

  /** The image of a list with a first element: that element's image first. */
  lemma FlatMapCons<A, B>(f: A -> seq<B>, x: A, xs: seq<A>)
    ensures FlatMap(f, [x] + xs) == f(x) + FlatMap(f, xs)
  {
    assert ([x] + xs)[1..] == xs;
  }

  /** Appending one element at the end appends its image at the end. */
  lemma {:induction false} FlatMapSnoc<A, B>(f: A -> seq<B>, xs: seq<A>, x: A)
    ensures FlatMap(f, xs + [x]) == FlatMap(f, xs) + f(x)
  {
    if xs == [] {
      assert [x][1..] == [];
    } else {
      assert (xs + [x])[1..] == xs[1..] + [x];
      FlatMapSnoc(f, xs[1..], x);
    }
  }

  /** Mapping a concatenation is the concatenation of the maps. */
  lemma {:induction false} FlatMapAppend<A, B>(f: A -> seq<B>, xs: seq<A>, ys: seq<A>)
    ensures FlatMap(f, xs + ys) == FlatMap(f, xs) + FlatMap(f, ys)
  {
    if xs == [] {
      assert xs + ys == ys;
    } else {
      assert (xs + ys)[1..] == xs[1..] + ys;
      FlatMapAppend(f, xs[1..], ys);
    }
  }

  /** Concatenation of `f(0)`, ..., `f(n - 1)`, in order. */
  function Concat<T>(f: nat -> seq<T>, n: nat): seq<T>
  {
    if n == 0 then [] else Concat(f, n - 1) + f(n - 1)
  }

  /** An element is in the concatenation exactly when it is in one of the parts. */
  lemma {:induction false} ConcatMember<T>(f: nat -> seq<T>, n: nat, x: T)
    ensures x in Concat(f, n) <==> exists k: nat :: k < n && x in f(k)
  {
    if n > 0 {
      ConcatMember(f, n - 1, x);
      if x in f(n - 1) {
        assert n - 1 < n;
      }
      forall k: nat | k < n && x in f(k) ensures x in Concat(f, n) {
        if k < n - 1 {
          assert x in Concat(f, n - 1);
        }
      }
    }
  }

  /** The sequence `f(0)`, ..., `f(n - 1)`. */
  function Tabulate<T>(f: nat -> T, n: nat): (s: seq<T>)
    ensures |s| == n
  {
    if n == 0 then [] else Tabulate(f, n - 1) + [f(n - 1)]
  }

  lemma {:induction false} TabulateAt<T>(f: nat -> T, n: nat, k: nat)
    requires k < n
    ensures Tabulate(f, n)[k] == f(k)
  {
    if k < n - 1 {
      TabulateAt(f, n - 1, k);
    }
  }
}

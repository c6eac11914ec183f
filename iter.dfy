/** The iterator combinators the validator is built from, over finite sequences,
    each proved to yield what "the first element that ..." yields. */
module Iter {
  import opened Wrappers

  /** `i` is the position of the first element of `xs` that satisfies `p`. */
  ghost predicate IsFirst<T>(xs: seq<T>, i: int, p: T -> bool) {
    0 <= i < |xs| && p(xs[i]) && forall j :: 0 <= j < i ==> !p(xs[j])
  }

  /** No element of `xs` satisfies `p`. */
  ghost predicate NoneSatisfy<T>(xs: seq<T>, p: T -> bool) {
    forall j :: 0 <= j < |xs| ==> !p(xs[j])
  }

  /** `iter().position(p)`, the position of what `iter().find(p)` returns. */
  function Find<T>(xs: seq<T>, p: T -> bool): (r: Option<nat>)
    ensures r.Some? ==> IsFirst(xs, r.value, p)
    ensures r.None? <==> NoneSatisfy(xs, p)
  {
    if xs == [] then None
    else if p(xs[0]) then Some(0)
    else match Find(xs[1..], p)
      case None => None
      case Some(i) => Some(i + 1)
  }

  /** `iter().any(p)`. */
  function Any<T>(xs: seq<T>, p: T -> bool): (b: bool)
    ensures b <==> !NoneSatisfy(xs, p)
  {
    if xs == [] then false
    else p(xs[0]) || Any(xs[1..], p)
  }

  /** `iter().find_map(f)`: the first `Some` that `f` produces. */
  function FindMap<T, U>(xs: seq<T>, f: T -> Option<U>): (r: Option<U>)
    ensures r.None? <==> forall j :: 0 <= j < |xs| ==> f(xs[j]).None?
    ensures r.Some? ==>
      exists i :: 0 <= i < |xs| && r == f(xs[i]) && forall j :: 0 <= j < i ==> f(xs[j]).None?
  {
    if xs == [] then None
    else if f(xs[0]).Some? then f(xs[0])
    else FindMap(xs[1..], f)
  }

  /** `iter().flat_map(f)`, collected: the concatenation of `f` over `xs`. */
  function FlatMap<T, U>(xs: seq<T>, f: T -> seq<U>): (r: seq<U>)
    ensures r == [] <==> forall j :: 0 <= j < |xs| ==> f(xs[j]) == []
  {
    if xs == [] then [] else f(xs[0]) + FlatMap(xs[1..], f)
  }

  /** The first element of a flat map, what `.next()` yields, is the first element
      produced by the first element of `xs` that produces anything. */
  lemma {:induction false} FlatMapHead<T, U>(xs: seq<T>, f: T -> seq<U>, i: nat)
    requires i < |xs| && f(xs[i]) != []
    requires forall j :: 0 <= j < i ==> f(xs[j]) == []
    ensures FlatMap(xs, f) != [] && FlatMap(xs, f)[0] == f(xs[i])[0]
  {
    if i > 0 {
      assert xs[1..][i - 1] == xs[i];
      forall j | 0 <= j < i - 1
        ensures f(xs[1..][j]) == []
      {
        assert xs[1..][j] == xs[j + 1];
      }
      FlatMapHead(xs[1..], f, i - 1);
    }
  }

  /** `iter().try_for_each(f)` with a unit-valued `f`: the first failure, or success. */
  function TryForEach<T, E>(xs: seq<T>, f: T -> Outcome<E>): (r: Outcome<E>)
    ensures r.Ok? <==> forall j :: 0 <= j < |xs| ==> f(xs[j]).Ok?
    ensures r.Err? ==>
      exists i :: 0 <= i < |xs| && r == f(xs[i]) && forall j :: 0 <= j < i ==> f(xs[j]).Ok?
  {
    if xs == [] then Ok
    else
      :- f(xs[0]);
      TryForEach(xs[1..], f)
  }
}

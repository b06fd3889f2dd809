/**
 * Generic sequence folds: keeping the elements that pass a test, and
 * writing one piece of text per element.
 */
module Seqs {

  /** The elements of `xs` that pass `keep`, in order. */
  function Keep<T(!new)>(xs: seq<T>, keep: T -> bool): (r: seq<T>)
    ensures |r| <= |xs|
    ensures forall i :: 0 <= i < |r| ==> keep(r[i])
    ensures forall x :: x in r <==> x in xs && keep(x)
  {
    if xs == [] then [] else (if keep(xs[0]) then [xs[0]] else []) + Keep(xs[1..], keep)
  }

  /** The pieces `f` writes for the elements of `xs`, one after the other. */
  function ConcatMap<T>(xs: seq<T>, f: T -> string): string {
    if xs == [] then "" else f(xs[0]) + ConcatMap(xs[1..], f)
  }

  /** A builder that visits `xs` in order and appends `f(x)` for each `x` passing `keep`. */
  function AppendEach<T>(b: string, xs: seq<T>, keep: T -> bool, f: T -> string): string
    decreases |xs|
  {
    if xs == [] then b else AppendEach(if keep(xs[0]) then b + f(xs[0]) else b, xs[1..], keep, f)
  }

  /** Appending while visiting is appending the pieces of the kept elements. */
  lemma {:induction false} AppendEachIsConcatOfKept<T(!new)>(b: string, xs: seq<T>, keep: T -> bool, f: T -> string)
    ensures AppendEach(b, xs, keep, f) == b + ConcatMap(Keep(xs, keep), f)
    decreases |xs|
  {
    if xs != [] {
      var x := xs[0];
      var rest := Keep(xs[1..], keep);
      AppendEachIsConcatOfKept(if keep(x) then b + f(x) else b, xs[1..], keep, f);
      if keep(x) {
        assert Keep(xs, keep) == [x] + rest;
        assert ([x] + rest)[1..] == rest;
      } else {
        assert Keep(xs, keep) == [] + rest;
        assert [] + rest == rest;
      }
    }
  }
}

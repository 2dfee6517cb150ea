/**
 * List building as the scrapers do it: walk a list of query results in
 * document order, `push` the ones that pass a test (possibly transformed),
 * then cut the list down with `slice(0, n)`.
 */
module Seqs {
  import opened Wrappers

  /** The values `f` keeps, in input order: what a loop `if (...) out.push(...)` builds. */
  function FilterMap<T, U>(xs: seq<T>, f: T -> Option<U>): (ys: seq<U>)
    ensures |ys| <= |xs|
  {
    if xs == [] then []
    else FilterMap(xs[..|xs| - 1], f) + Kept(f(xs[|xs| - 1]))
  }

  /** What one element contributes to FilterMap. */
  function Kept<U>(o: Option<U>): (ys: seq<U>)
    ensures |ys| <= 1
  {
    match o
    case Some(y) => [y]
    case None => []
  }

  /** Order is preserved: the result for a concatenation is the concatenation of the results. */
  lemma {:induction false} FilterMapAppend<T, U>(xs: seq<T>, ys: seq<T>, f: T -> Option<U>)
    ensures FilterMap(xs + ys, f) == FilterMap(xs, f) + FilterMap(ys, f)
    decreases |ys|
  {
    if ys == [] {
      assert xs + ys == xs;
    } else {
      var init := ys[..|ys| - 1];
      assert (xs + ys)[..|xs + ys| - 1] == xs + init;
      assert (xs + ys)[|xs + ys| - 1] == ys[|ys| - 1];
      FilterMapAppend(xs, init, f);
    }
  }

  /** A one-element list keeps its element exactly when the test passes. */
  lemma FilterMapSingle<T, U>(x: T, f: T -> Option<U>)
    ensures FilterMap([x], f) == Kept(f(x))
  {
    assert [x][..0] == [];
  }

  /** Every kept value is the image of some input, and every input that passes is kept. */
  lemma {:induction false} FilterMapMembers<T, U>(xs: seq<T>, f: T -> Option<U>, y: U)
    ensures y in FilterMap(xs, f) <==> exists i :: 0 <= i < |xs| && f(xs[i]) == Some(y)
    decreases |xs|
  {
    if xs != [] {
      var init, last := xs[..|xs| - 1], xs[|xs| - 1];
      FilterMapMembers(init, f, y);
      assert y in FilterMap(xs, f) <==> y in FilterMap(init, f) || f(last) == Some(y);
      if exists i :: 0 <= i < |xs| && f(xs[i]) == Some(y) {
        var i :| 0 <= i < |xs| && f(xs[i]) == Some(y);
        if i < |xs| - 1 {
          assert init[i] == xs[i];
        }
      }
      if y in FilterMap(init, f) {
        var i :| 0 <= i < |init| && f(init[i]) == Some(y);
        assert init[i] == xs[i];
      }
    }
  }

  /** The loop `for (const x of xs) if (...) out.push(...)` whose result FilterMap describes. */
  method Collect<T, U>(xs: seq<T>, f: T -> Option<U>) returns (ys: seq<U>)
    ensures ys == FilterMap(xs, f)
  {
    ys := [];
    for i := 0 to |xs|
      invariant ys == FilterMap(xs[..i], f)
    {
      assert xs[..i + 1][..i] == xs[..i];
      match f(xs[i])
      case Some(y) => ys := ys + [y];
      case None =>
    }
    assert xs[..|xs|] == xs;
  }

  function Min(a: int, b: int): int {
    if a <= b then a else b
  }

  /** JavaScript's `xs.slice(0, n)` for n >= 0: the first at most n elements, in order. */
  function Take<T>(xs: seq<T>, n: nat): (ys: seq<T>)
    ensures |ys| == Min(n, |xs|)
    ensures ys <= xs
  {
    if |xs| <= n then xs else xs[..n]
  }
}

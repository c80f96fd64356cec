/**
  Left-to-right traversals of a sequence that the modelled loops perform:
  keep the defined results, concatenate the results, or concatenate the
  results until the first failure.  Stating them once over an arbitrary
  element function keeps the per-element definitions out of the proofs
  about order.
*/
module Folds {
  import opened Wrappers

  /** The defined value, if any, as a sequence of length at most one. */
  function AsSeq<B>(o: Option<B>): seq<B>
  {
    match o
    case Some(y) => [y]
    case None => []
  }

  /** Applies `f` to every element in order and keeps the defined results. */
  function FilterMap<A, B>(f: A -> Option<B>, xs: seq<A>): seq<B>
  {
    if xs == [] then [] else FilterMap(f, xs[..|xs| - 1]) + AsSeq(f(xs[|xs| - 1]))
  }

  lemma {:induction false} FilterMapAppend<A, B>(f: A -> Option<B>, a: seq<A>, b: seq<A>)
    ensures FilterMap(f, a + b) == FilterMap(f, a) + FilterMap(f, b)
    decreases |b|
  {
    if b == [] {
      assert a + b == a;
    } else {
      var b' := b[..|b| - 1];
      assert (a + b)[..|a + b| - 1] == a + b';
      FilterMapAppend(f, a, b');
    }
  }

  /** Every element contributes at most one result. */
  lemma {:induction false} FilterMapLength<A, B>(f: A -> Option<B>, xs: seq<A>)
    ensures |FilterMap(f, xs)| <= |xs|
  {
    if xs != [] {
      FilterMapLength(f, xs[..|xs| - 1]);
    }
  }

  /** The results contributed by the element at position `k` sit between those of its neighbours. */
  lemma {:induction false} FilterMapAt<A, B>(f: A -> Option<B>, xs: seq<A>, k: nat)
    requires k < |xs|
    ensures FilterMap(f, xs) == FilterMap(f, xs[..k]) + FilterMap(f, [xs[k]]) + FilterMap(f, xs[k + 1..])
    ensures FilterMap(f, [xs[k]]) == AsSeq(f(xs[k]))
  {
    assert xs == (xs[..k] + [xs[k]]) + xs[k + 1..];
    FilterMapAppend3(f, xs[..k], [xs[k]], xs[k + 1..]);
    FilterMapSingle(f, xs[k]);
  }

  lemma {:induction false} FilterMapAppend3<A, B>(f: A -> Option<B>, a: seq<A>, b: seq<A>, c: seq<A>)
    ensures FilterMap(f, (a + b) + c) == FilterMap(f, a) + FilterMap(f, b) + FilterMap(f, c)
  {
    FilterMapAppend(f, a + b, c);
    FilterMapAppend(f, a, b);
  }

  lemma FilterMapSingle<A, B>(f: A -> Option<B>, x: A)
    ensures FilterMap(f, [x]) == AsSeq(f(x))
  {
    assert [x][..0] == [];
  }

  /** Concatenates `f` of every element, in order. */
  function FlatMap<A, B>(f: A -> seq<B>, xs: seq<A>): seq<B>
  {
    if xs == [] then [] else FlatMap(f, xs[..|xs| - 1]) + f(xs[|xs| - 1])
  }

  lemma {:induction false} FlatMapAppend<A, B>(f: A -> seq<B>, a: seq<A>, b: seq<A>)
    ensures FlatMap(f, a + b) == FlatMap(f, a) + FlatMap(f, b)
    decreases |b|
  {
    if b == [] {
      assert a + b == a;
    } else {
      var b' := b[..|b| - 1];
      assert (a + b)[..|a + b| - 1] == a + b';
      FlatMapAppend(f, a, b');
    }
  }

  lemma FlatMapPair<A, B>(f: A -> seq<B>, x: A, y: A)
    ensures FlatMap(f, [x, y]) == f(x) + f(y)
  {
    assert [x, y][..1] == [x];
    assert [x][..0] == [];
    assert FlatMap(f, [x]) == [] + f(x);
  }

  /** The part contributed by element `k` sits between the parts of the elements before and after it. */
  lemma {:induction false} FlatMapAt<A, B>(f: A -> seq<B>, xs: seq<A>, k: nat)
    requires k < |xs|
    ensures FlatMap(f, xs) == FlatMap(f, xs[..k]) + f(xs[k]) + FlatMap(f, xs[k + 1..])
  {
    var pre, mid, post := xs[..k], [xs[k]], xs[k + 1..];
    assert xs == (pre + mid) + post;
    FlatMapAppend(f, pre + mid, post);
    FlatMapAppend(f, pre, mid);
    assert mid[..|mid| - 1] == [];
    assert FlatMap(f, mid) == f(xs[k]);
  }

  /** Concatenates the results of `f` in order, stopping at the first element whose result is a failure. */
  function FlatMapAll<A, B, E>(f: A -> Result<seq<B>, E>, xs: seq<A>): Result<seq<B>, E>
  {
    if xs == [] then Success([])
    else
      match f(xs[0])
      case Failure(e) => Failure(e)
      case Success(first) =>
        match FlatMapAll(f, xs[1..])
        case Failure(e) => Failure(e)
        case Success(more) => Success(first + more)
  }

  /** The whole traversal fails exactly when some element fails. */
  lemma {:induction false} FlatMapAllFails<A, B, E>(f: A -> Result<seq<B>, E>, xs: seq<A>)
    ensures FlatMapAll(f, xs).Failure? <==> exists k :: 0 <= k < |xs| && f(xs[k]).Failure?
  {
    if xs != [] {
      FlatMapAllFails(f, xs[1..]);
      assert forall k :: 1 <= k < |xs| ==> xs[k] == xs[1..][k - 1];
    }
  }

  /** Without failures, the result is the concatenation of the element results. */
  lemma {:induction false} FlatMapAllAppend<A, B, E>(f: A -> Result<seq<B>, E>, a: seq<A>, b: seq<A>)
    requires FlatMapAll(f, a).Success? && FlatMapAll(f, b).Success?
    ensures FlatMapAll(f, a + b) == Success(FlatMapAll(f, a).value + FlatMapAll(f, b).value)
  {
    if a == [] {
      assert a + b == b;
      assert FlatMapAll(f, a).value + FlatMapAll(f, b).value == FlatMapAll(f, b).value;
    } else {
      assert (a + b)[1..] == a[1..] + b;
      assert (a + b)[0] == a[0];
      var first := f(a[0]).value;
      FlatMapAllAppend(f, a[1..], b);
      assert FlatMapAll(f, a).value == first + FlatMapAll(f, a[1..]).value;
      var restA, allB := FlatMapAll(f, a[1..]).value, FlatMapAll(f, b).value;
      assert FlatMapAll(f, a + b).value == first + (restA + allB);
      assert first + (restA + allB) == (first + restA) + allB;
    }
  }

  /** Extending the traversal by one element whose result is a success appends that result. */
  lemma FlatMapAllSnoc<A, B, E>(f: A -> Result<seq<B>, E>, xs: seq<A>, n: nat)
    requires n < |xs| && FlatMapAll(f, xs[..n]).Success? && f(xs[n]).Success?
    ensures FlatMapAll(f, xs[..n + 1]) == Success(FlatMapAll(f, xs[..n]).value + f(xs[n]).value)
  {
    var single := [xs[n]];
    assert single[1..] == [];
    assert FlatMapAll(f, single) == Success(f(xs[n]).value + []);
    assert f(xs[n]).value + [] == f(xs[n]).value;
    assert xs[..n + 1] == xs[..n] + single;
    FlatMapAllAppend(f, xs[..n], single);
  }

  /** Bounds on every element result carry over to the whole: at most `n` results per element,
      each satisfying `p`. */
  lemma {:induction false} FlatMapAllBound<A, B, E>(f: A -> Result<seq<B>, E>, xs: seq<A>, n: nat, p: B -> bool)
    requires forall x :: f(x).Success? ==> |f(x).value| <= n
    requires forall x, k :: f(x).Success? && 0 <= k < |f(x).value| ==> p(f(x).value[k])
    ensures FlatMapAll(f, xs).Success? ==> |FlatMapAll(f, xs).value| <= n * |xs|
    ensures FlatMapAll(f, xs).Success? ==>
      forall k :: 0 <= k < |FlatMapAll(f, xs).value| ==> p(FlatMapAll(f, xs).value[k])
  {
    if xs != [] {
      FlatMapAllBound(f, xs[1..], n, p);
      if FlatMapAll(f, xs).Success? {
        var first := f(xs[0]).value;
        var more := FlatMapAll(f, xs[1..]).value;
        assert FlatMapAll(f, xs).value == first + more;
        assert forall k :: 0 <= k < |first| ==> p(first[k]);
      }
    }
  }
}

/** `Array.prototype.filter` and `Array.prototype.map` on immutable sequences. */
module Lists {

  /** `xs.filter(keep)`: the elements that pass, in their original order. */
  function Filter<T>(xs: seq<T>, keep: T -> bool): (r: seq<T>)
    ensures |r| <= |xs|
    ensures forall i :: 0 <= i < |r| ==> keep(r[i]) && r[i] in xs
    ensures forall i :: 0 <= i < |xs| && keep(xs[i]) ==> xs[i] in r
    ensures |r| == |xs| <==> forall i :: 0 <= i < |xs| ==> keep(xs[i])
    decreases |xs|
  {
    if |xs| == 0 then []
    else
      assert xs == [xs[0]] + xs[1..];
      (if keep(xs[0]) then [xs[0]] else []) + Filter(xs[1..], keep)
  }

  /** A filter every element passes returns the sequence itself. */
  lemma {:induction false} FilterAll<T>(xs: seq<T>, keep: T -> bool)
    requires forall i :: 0 <= i < |xs| ==> keep(xs[i])
    ensures Filter(xs, keep) == xs
    decreases |xs|
  {
    if |xs| > 0 {
      assert forall i :: 0 <= i < |xs[1..]| ==> xs[1..][i] == xs[i + 1];
      FilterAll(xs[1..], keep);
      assert xs == [xs[0]] + xs[1..];
    }
  }

  /** `xs.map(f)` */
  function Map<T, U>(xs: seq<T>, f: T -> U): (r: seq<U>)
    ensures |r| == |xs|
    ensures forall i :: 0 <= i < |xs| ==> r[i] == f(xs[i])
  {
    seq(|xs|, i requires 0 <= i < |xs| => f(xs[i]))
  }

  /** Filtering commutes with concatenation, so the survivors keep their relative order. */
  lemma {:induction false} FilterAppend<T>(xs: seq<T>, ys: seq<T>, keep: T -> bool)
    ensures Filter(xs + ys, keep) == Filter(xs, keep) + Filter(ys, keep)
    decreases |xs|
  {
    if |xs| > 0 {
      assert (xs + ys)[1..] == xs[1..] + ys;
      FilterAppend(xs[1..], ys, keep);
    } else {
      assert xs + ys == ys;
    }
  }

  /** An element the filter drops can be left out of the input beforehand. */
  lemma FilterSkip<T>(xs: seq<T>, x: T, ys: seq<T>, keep: T -> bool)
    requires !keep(x)
    ensures Filter(xs + [x] + ys, keep) == Filter(xs + ys, keep)
  {
    var front := xs + [x];
    FilterAppend(front, ys, keep);
    FilterAppend(xs, [x], keep);
    FilterAppend(xs, ys, keep);
    assert [x][1..] == [];
    assert Filter([x], keep) == [] + Filter([], keep);
    assert Filter(front, keep) == Filter(xs, keep);
  }

  /** An element passes a filter exactly as often as it occurs and passes. */
  lemma {:induction false} FilterCount<T>(xs: seq<T>, keep: T -> bool, x: T)
    ensures multiset(Filter(xs, keep))[x] == if keep(x) then multiset(xs)[x] else 0
    decreases |xs|
  {
    if |xs| > 0 {
      FilterCount(xs[1..], keep, x);
      assert xs == [xs[0]] + xs[1..];
    }
  }

  /** A filter and its complement split the sequence: every element lands in exactly one of them. */
  lemma {:induction false} FilterComplement<T>(xs: seq<T>, keep: T -> bool, drop: T -> bool)
    requires forall x :: drop(x) == !keep(x)
    ensures multiset(Filter(xs, keep)) + multiset(Filter(xs, drop)) == multiset(xs)
    ensures |Filter(xs, keep)| + |Filter(xs, drop)| == |xs|
  {
    forall x
      ensures (multiset(Filter(xs, keep)) + multiset(Filter(xs, drop)))[x] == multiset(xs)[x]
    {
      FilterCount(xs, keep, x);
      FilterCount(xs, drop, x);
    }
    assert multiset(Filter(xs, keep)) + multiset(Filter(xs, drop)) == multiset(xs);
    assert |multiset(Filter(xs, keep)) + multiset(Filter(xs, drop))| == |multiset(xs)|;
  }
}

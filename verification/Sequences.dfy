/** Facts about sequences that the other modules share. */
module Sequences {
  lemma Reassociate<T>(a: seq<T>, b: seq<T>, c: seq<T>)
    ensures a + (b + c) == (a + b) + c
  {}

  lemma TakeNext<T>(s: seq<T>, k: nat)
    requires k < |s|
    ensures s[..k + 1] == s[..k] + [s[k]]
  {}

  lemma DropNext<T>(s: seq<T>, k: nat)
    requires k < |s|
    ensures s[k..] == [s[k]] + s[k + 1..]
    ensures s[k..][1..] == s[k + 1..]
  {}

  lemma TakeHead<T>(s: seq<T>, k: nat)
    requires 0 < k <= |s|
    ensures s[..k] == [s[0]] + s[1..][..k - 1]
  {
    var t := [s[0]] + s[1..][..k - 1];
    forall i | 0 <= i < k ensures s[..k][i] == t[i] {}
  }

  lemma SplitAt<T>(s: seq<T>, k: nat)
    requires k <= |s|
    ensures s == s[..k] + s[k..]
  {}

  lemma DropSplit<T>(s: seq<T>, k: nat, c: nat)
    requires k <= c <= |s|
    ensures s[k..] == s[k..c] + s[c..]
  {}

  /** Every element of `xs` replaced by what it yields; `f` also sees how much was yielded before it. */
  function Spread<A, B>(xs: seq<A>, f: (A, nat) -> seq<B>, n: nat): seq<B>
    decreases |xs|
  {
    if xs == [] then []
    else f(xs[0], n) + Spread(xs[1..], f, n + |f(xs[0], n)|)
  }

  lemma {:induction false} SpreadSplit<A, B>(a: seq<A>, b: seq<A>, f: (A, nat) -> seq<B>, n: nat)
    ensures Spread(a + b, f, n) == Spread(a, f, n) + Spread(b, f, n + |Spread(a, f, n)|)
    decreases |a|
  {
    if a == [] {
      assert a + b == b;
    } else {
      var head := f(a[0], n);
      assert (a + b)[1..] == a[1..] + b;
      SpreadSplit(a[1..], b, f, n + |head|);
      var left := Spread(a[1..], f, n + |head|);
      Reassociate(head, left, Spread(b, f, n + |head| + |left|));
    }
  }

  /** The loop form: what is done so far, then the rest from position `k`. */
  lemma SpreadStep<A, B>(xs: seq<A>, f: (A, nat) -> seq<B>, k: nat, done: seq<B>)
    requires k < |xs|
    ensures var now := done + f(xs[k], |done|);
      done + Spread(xs[k..], f, |done|) == now + Spread(xs[k + 1..], f, |now|)
  {
    DropNext(xs, k);
    var head := f(xs[k], |done|);
    Reassociate(done, head, Spread(xs[k + 1..], f, |done| + |head|));
  }

  lemma SpreadOne<A, B>(x: A, f: (A, nat) -> seq<B>, n: nat)
    ensures Spread([x], f, n) == f(x, n)
  {
    assert [x][1..] == [];
    assert f(x, n) + [] == f(x, n);
  }

  lemma SpreadSilent<A, B>(xs: seq<A>, f: (A, nat) -> seq<B>, n: nat)
    requires xs != [] && f(xs[0], n) == []
    ensures Spread(xs, f, n) == Spread(xs[1..], f, n)
  {}

  /** `step` for each element in turn, `n` of them at most; the next one gets `stop` and ends it. */
  function FoldSome<S, B>(s: S, xs: seq<B>, step: (S, B) -> S, stop: (S, B) -> S, n: nat): S
    decreases |xs|
  {
    if xs == [] then s
    else if n == 0 then stop(s, xs[0])
    else FoldSome(step(s, xs[0]), xs[1..], step, stop, n - 1)
  }

  lemma {:induction false} FoldSomeSplit<S, B>(s: S, a: seq<B>, b: seq<B>, step: (S, B) -> S, stop: (S, B) -> S, n: nat)
    ensures FoldSome(s, a + b, step, stop, n)
         == if n < |a| then FoldSome(s, a, step, stop, n)
            else FoldSome(FoldSome(s, a, step, stop, n), b, step, stop, n - |a|)
    decreases |a|
  {
    if a == [] {
      assert a + b == b;
    } else {
      assert (a + b)[1..] == a[1..] + b;
      if n > 0 {
        FoldSomeSplit(step(s, a[0]), a[1..], b, step, stop, n - 1);
      }
    }
  }

  lemma FoldSomeOne<S, B>(s: S, x: B, step: (S, B) -> S, stop: (S, B) -> S, n: nat)
    ensures FoldSome(s, [x], step, stop, n) == if n == 0 then stop(s, x) else step(s, x)
  {
    assert [x][1..] == [];
  }

  /** A step taken so many times. */
  function Iterate<S>(step: S -> S, s: S, n: nat): S
    decreases n
  {
    if n == 0 then s else Iterate(step, step(s), n - 1)
  }

  lemma {:induction false} IterateAdds<S>(step: S -> S, s: S, m: nat, n: nat)
    ensures Iterate(step, Iterate(step, s, m), n) == Iterate(step, s, m + n)
    decreases m
  {
    if m > 0 {
      IterateAdds(step, step(s), m - 1, n);
    }
  }

  lemma IterateSnoc<S>(step: S -> S, s: S, n: nat)
    ensures Iterate(step, s, n + 1) == step(Iterate(step, s, n))
  {
    IterateAdds(step, s, n, 1);
    assert Iterate(step, Iterate(step, s, n), 1) == Iterate(step, step(Iterate(step, s, n)), 0);
  }

  function Filter<T>(xs: seq<T>, keep: T -> bool): seq<T> {
    if xs == [] then [] else FilterOne(xs[0], keep) + Filter(xs[1..], keep)
  }

  function FilterOne<T>(x: T, keep: T -> bool): seq<T> {
    if keep(x) then [x] else []
  }

  lemma {:induction false} FilterSplit<T>(a: seq<T>, b: seq<T>, keep: T -> bool)
    ensures Filter(a + b, keep) == Filter(a, keep) + Filter(b, keep)
  {
    if a == [] {
      assert a + b == b;
    } else {
      assert (a + b)[1..] == a[1..] + b;
      FilterSplit(a[1..], b, keep);
      Reassociate(FilterOne(a[0], keep), Filter(a[1..], keep), Filter(b, keep));
    }
  }

  lemma {:induction false} FilterHas<T>(xs: seq<T>, keep: T -> bool)
    ensures forall x :: x in Filter(xs, keep) <==> x in xs && keep(x)
  {
    if xs != [] {
      FilterHas(xs[1..], keep);
      DropNext(xs, 0);
    }
  }

  /** The `j`-th kept element, by its position in the whole. */
  lemma {:induction false} FilterNth<T>(xs: seq<T>, keep: T -> bool, j: nat) returns (p: nat)
    requires j < |Filter(xs, keep)|
    ensures p < |xs| && keep(xs[p]) && xs[p] == Filter(xs, keep)[j]
    ensures |Filter(xs[p..], keep)| == |Filter(xs, keep)| - j
  {
    var here := |FilterOne(xs[0], keep)|;
    if j == 0 && here == 1 {
      p := 0;
      assert xs[0..] == xs;
    } else {
      p := FilterNth(xs[1..], keep, j - here);
      assert xs[1..][p..] == xs[p + 1..];
      p := p + 1;
    }
  }

  /** Leaving out elements that yield nothing changes nothing. */
  lemma {:induction false} SpreadFilter<A, B>(xs: seq<A>, keep: A -> bool, f: (A, nat) -> seq<B>, n: nat)
    requires forall x, k :: x in xs && !keep(x) ==> f(x, k) == []
    ensures Spread(Filter(xs, keep), f, n) == Spread(xs, f, n)
    decreases |xs|
  {
    if xs != [] {
      DropNext(xs, 0);
      assert xs[0] in xs && forall x :: x in xs[1..] ==> x in xs;
      SpreadFilter(xs[1..], keep, f, n + |f(xs[0], n)|);
      if keep(xs[0]) {
        assert Filter(xs, keep)[1..] == Filter(xs[1..], keep);
      } else {
        assert Filter(xs, keep) == Filter(xs[1..], keep);
      }
    }
  }
}

/** Facts about finite sequences that the ingestion model needs in several places. */
module Sequences {

  function Flatten<T>(parts: seq<seq<T>>): (all: seq<T>) {
    if parts == [] then [] else Flatten(parts[..|parts| - 1]) + parts[|parts| - 1]
  }

  lemma {:induction false} FlattenSnoc<T>(parts: seq<seq<T>>, last: seq<T>)
    ensures Flatten(parts + [last]) == Flatten(parts) + last
  {
    assert (parts + [last])[..|parts|] == parts;
  }

  lemma {:induction false} FlattenOne<T>(part: seq<T>)
    ensures Flatten([part]) == part
  {
    assert [part][..0] == [];
  }

  lemma {:induction false} FlattenConcat<T>(a: seq<seq<T>>, b: seq<seq<T>>)
    ensures Flatten(a + b) == Flatten(a) + Flatten(b)
  {
    if b == [] {
      assert a + b == a;
    } else {
      var init, last := b[..|b| - 1], b[|b| - 1];
      assert a + b == (a + init) + [last];
      FlattenSnoc(a + init, last);
      FlattenConcat(a, init);
    }
  }

  function Fold<S, E>(step: (S, E) -> S, s: S, events: seq<E>): (result: S) {
    if events == [] then s else Fold(step, step(s, events[0]), events[1..])
  }

  lemma {:induction false} FoldSnoc<S, E>(step: (S, E) -> S, s: S, events: seq<E>, e: E)
    ensures Fold(step, s, events + [e]) == step(Fold(step, s, events), e)
    decreases |events|
  {
    if events != [] {
      assert (events + [e])[1..] == events[1..] + [e];
      FoldSnoc(step, step(s, events[0]), events[1..], e);
    }
  }

  ghost predicate Swaps<S, E>(step: (S, E) -> S, s: S, a: E, b: E) {
    step(step(s, a), b) == step(step(s, b), a)
  }

  ghost predicate Commutes<S(!new), E(!new)>(step: (S, E) -> S) {
    forall s: S, a: E, b: E :: Swaps(step, s, a, b)
  }

  lemma {:induction false} ConsTail<E>(e: E, rest: seq<E>)
    ensures ([e] + rest)[0] == e && ([e] + rest)[1..] == rest
  {
  }

  lemma {:induction false} SplitHead<E>(xs: seq<E>)
    requires xs != []
    ensures xs == [xs[0]] + xs[1..]
  {
  }

  lemma {:induction false} Reassociate<E>(a: seq<E>, b: seq<E>, c: seq<E>)
    ensures (a + b) + c == a + (b + c)
  {
  }

  lemma {:induction false} TakeOneMore<E>(xs: seq<E>, n: nat)
    requires 0 < n <= |xs|
    ensures xs[..n] == xs[..n - 1] + [xs[n - 1]]
    ensures xs[..n][..n - 1] == xs[..n - 1]
  {
  }

  /** One event can be taken from the middle of a commutative fold to its front. */
  lemma {:induction false} FoldPullsForward<S(!new), E(!new)>(
    step: (S, E) -> S, s: S, before: seq<E>, e: E, after: seq<E>)
    requires Commutes(step)
    ensures Fold(step, s, before + ([e] + after)) == Fold(step, step(s, e), before + after)
    decreases |before|
  {
    if before == [] {
      assert before + ([e] + after) == [e] + after && before + after == after;
      ConsTail(e, after);
    } else {
      var b, rest := before[0], before[1..];
      SplitHead(before);
      Reassociate([b], rest, [e] + after);
      Reassociate([b], rest, after);
      ConsTail(b, rest + ([e] + after));
      ConsTail(b, rest + after);
      FoldPullsForward(step, step(s, b), rest, e, after);
      assert Swaps(step, s, b, e);
    }
  }

  function Without<E>(xs: seq<E>, i: nat): (rest: seq<E>)
    requires i < |xs|
    ensures |rest| == |xs| - 1
  {
    xs[..i] + xs[i + 1..]
  }

  lemma {:induction false} SplitAt<E>(xs: seq<E>, i: nat)
    requires i < |xs|
    ensures xs == xs[..i] + ([xs[i]] + xs[i + 1..])
  {
  }

  lemma {:induction false} MultisetWithout<E>(xs: seq<E>, i: nat)
    requires i < |xs|
    ensures multiset(Without(xs, i)) == multiset(xs) - multiset{xs[i]}
  {
    SplitAt(xs, i);
    assert multiset(xs) == multiset(xs[..i] + ([xs[i]] + xs[i + 1..]));
  }

  lemma {:induction false} FoldPullsOut<S(!new), E(!new)>(
    step: (S, E) -> S, s: S, xs: seq<E>, i: nat)
    requires Commutes(step) && i < |xs|
    ensures Fold(step, s, xs) == Fold(step, step(s, xs[i]), Without(xs, i))
  {
    SplitAt(xs, i);
    FoldPullsForward(step, s, xs[..i], xs[i], xs[i + 1..]);
  }

  /** A fold whose steps commute depends only on how often each event occurs. */
  lemma {:induction false} FoldPermutation<S(!new), E(!new)>(
    step: (S, E) -> S, s: S, xs: seq<E>, ys: seq<E>)
    requires Commutes(step) && multiset(xs) == multiset(ys)
    ensures Fold(step, s, xs) == Fold(step, s, ys)
    decreases |xs|
  {
    if xs == [] {
      assert |multiset(ys)| == 0;
    } else {
      assert xs[0] in multiset(ys);
      var i :| 0 <= i < |ys| && ys[i] == xs[0];
      FoldPullsOut(step, s, xs, 0);
      FoldPullsOut(step, s, ys, i);
      MultisetWithout(xs, 0);
      MultisetWithout(ys, i);
      FoldPermutation(step, step(s, xs[0]), Without(xs, 0), Without(ys, i));
    }
  }

  ghost predicate Distinct<T>(xs: seq<T>) {
    forall i, j :: 0 <= i < j < |xs| ==> xs[i] != xs[j]
  }

  lemma {:induction false} DistinctSnoc<T>(xs: seq<T>, x: T)
    requires Distinct(xs) && x !in xs
    ensures Distinct(xs + [x])
  {
  }

  /** Two sequences without repetitions that hold the same elements differ only in order. */
  lemma {:induction false} DistinctSameElements<T>(xs: seq<T>, ys: seq<T>)
    requires Distinct(xs) && Distinct(ys)
    requires forall x :: x in xs <==> x in ys
    ensures multiset(xs) == multiset(ys) && |xs| == |ys|
  {
    forall x ensures multiset(xs)[x] == multiset(ys)[x] {
      DistinctCount(xs, x);
      DistinctCount(ys, x);
    }
    assert |multiset(xs)| == |xs| && |multiset(ys)| == |ys|;
  }

  lemma {:induction false} DistinctCount<T>(xs: seq<T>, x: T)
    requires Distinct(xs)
    ensures multiset(xs)[x] == if x in xs then 1 else 0
  {
    if xs != [] {
      var init, last := xs[..|xs| - 1], xs[|xs| - 1];
      assert xs == init + [last];
      DistinctCount(init, x);
    }
  }

  lemma {:induction false} CountTwice<T>(xs: seq<T>, i: nat, j: nat)
    requires i < j < |xs| && xs[i] == xs[j]
    ensures multiset(xs)[xs[i]] >= 2
  {
    SplitAt(xs, j);
    assert xs[i] == xs[..j][i];
    assert multiset(xs) == multiset(xs[..j]) + multiset([xs[j]] + xs[j + 1..]);
  }

  lemma {:induction false} DistinctPermutes<T>(xs: seq<T>, ys: seq<T>)
    requires Distinct(xs) && multiset(xs) == multiset(ys)
    ensures Distinct(ys)
  {
    forall i, j | 0 <= i < j < |ys| ensures ys[i] != ys[j] {
      DistinctCount(xs, ys[i]);
      if ys[i] == ys[j] {
        CountTwice(ys, i, j);
      }
    }
  }
}

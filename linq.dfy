/**
 * `Enumerable.SingleOrDefault(source, predicate)` as the lookups use it:
 * no match gives the default, one match gives that element, and a second
 * match makes it throw. The three outcomes are the constructors of `Single`.
 */
module Linq {

  datatype Single<T> = NoMatch | One(item: T) | Many

  /** Declarative reading of the three outcomes, by the positions that match. */
  ghost predicate IsSingleOf<T>(xs: seq<T>, p: T -> bool, r: Single<T>) {
    match r
    case NoMatch =>
      forall i :: 0 <= i < |xs| ==> !p(xs[i])
    case One(x) =>
      exists i :: 0 <= i < |xs| && xs[i] == x && p(x) && forall j :: 0 <= j < |xs| && j != i ==> !p(xs[j])
    case Many =>
      exists i, j :: 0 <= i < j < |xs| && p(xs[i]) && p(xs[j])
  }

  /** The outcome over a concatenation from the outcomes over its parts. */
  function Combine<T>(a: Single<T>, b: Single<T>): (c: Single<T>) {
    if a.NoMatch? then b else if b.NoMatch? then a else Many
  }

  /** The outcome over a one-element sequence. */
  function Probe<T>(x: T, p: T -> bool): (r: Single<T>) {
    if p(x) then One(x) else NoMatch
  }

  function SingleOrDefault<T(==)>(xs: seq<T>, p: T -> bool): (r: Single<T>)
    ensures IsSingleOf(xs, p, r)
  {
    if |xs| == 0 then NoMatch
    else
      var rest := SingleOrDefault(xs[1..], p);
      ConsIsSingleOf(xs, p, rest);
      Combine(Probe(xs[0], p), rest)
  }

  lemma ConsIsSingleOf<T>(xs: seq<T>, p: T -> bool, rest: Single<T>)
    requires |xs| > 0 && IsSingleOf(xs[1..], p, rest)
    ensures IsSingleOf(xs, p, Combine(Probe(xs[0], p), rest))
  {
  }

  lemma SingletonIsSingleOf<T>(x: T, p: T -> bool)
    requires p(x)
    ensures IsSingleOf([x], p, One(x))
  {
    assert [x][0] == x;
  }

  /** At most one outcome fits the declarative reading, so it determines the result. */
  lemma IsSingleOfUnique<T>(xs: seq<T>, p: T -> bool, r1: Single<T>, r2: Single<T>)
    requires IsSingleOf(xs, p, r1) && IsSingleOf(xs, p, r2)
    ensures r1 == r2
  {
  }

  lemma {:induction false} SingleOrDefaultAppend<T>(xs: seq<T>, ys: seq<T>, p: T -> bool)
    ensures SingleOrDefault(xs + ys, p) == Combine(SingleOrDefault(xs, p), SingleOrDefault(ys, p))
  {
    if xs == [] {
      assert xs + ys == ys;
    } else {
      assert (xs + ys)[1..] == xs[1..] + ys;
      SingleOrDefaultAppend(xs[1..], ys, p);
    }
  }

  /** Taking the first element out of `xs` and a copy of it out of `ys`
      leaves sequences with the same multiset. */
  lemma RemoveOne<T>(xs: seq<T>, ys: seq<T>, k: nat)
    requires multiset(xs) == multiset(ys) && |xs| > 0 && k < |ys| && ys[k] == xs[0]
    ensures multiset(xs[1..]) == multiset(ys[..k] + ys[k + 1..])
  {
    var x, left, right := xs[0], ys[..k], ys[k + 1..];
    assert ys == left + [x] + right;
    assert xs == [x] + xs[1..];
    assert multiset(ys) == multiset(left) + multiset{x} + multiset(right);
    assert multiset(xs) == multiset{x} + multiset(xs[1..]);
    calc {
      multiset(xs[1..]);
      multiset(xs) - multiset{x};
      multiset(left) + multiset(right);
      multiset(left + right);
    }
  }

  /** Where the matching elements sit does not matter: any reordering of the
      source gives the same outcome. */
  lemma {:induction false} SingleOrDefaultPermutation<T>(xs: seq<T>, ys: seq<T>, p: T -> bool)
    requires multiset(xs) == multiset(ys)
    ensures SingleOrDefault(xs, p) == SingleOrDefault(ys, p)
    decreases |xs|
  {
    if xs != [] {
      var x := xs[0];
      assert x in multiset(ys);
      var k :| 0 <= k < |ys| && ys[k] == x;
      var left, right := ys[..k], ys[k + 1..];
      assert ys == left + [x] + right;
      assert xs == [x] + xs[1..];
      RemoveOne(xs, ys, k);
      SingleOrDefaultPermutation(xs[1..], left + right, p);
      SingleOrDefaultAppend(left + [x], right, p);
      SingleOrDefaultAppend(left, [x], p);
      SingleOrDefaultAppend(left, right, p);
      SingleOrDefaultAppend([x], xs[1..], p);
    } else {
      assert ys == [];
    }
  }
}

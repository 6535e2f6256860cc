/** Counting and summing over result lists, the arithmetic every aggregator
    loop of the evaluators performs. The functions recurse from the end of the
    list so that a loop which has processed `xs[..i]` extends them by one
    element. */
module Tally {

  /** Some member of a non-empty set: the witness that lets a loop over a Go
      map's keys pick the next key in no particular order. */
  lemma Member<T>(s: set<T>) returns (x: T)
    requires s != {}
    ensures x in s
  {
    x :| x in s;
  }

  /** The number of elements satisfying `p`. */
  function Count<T>(xs: seq<T>, p: T -> bool): (n: nat)
    ensures n <= |xs|
  {
    if xs == [] then 0 else Count(xs[..|xs| - 1], p) + (if p(xs[|xs| - 1]) then 1 else 0)
  }

  /** The sum of `f` over the elements. */
  function Sum<T>(xs: seq<T>, f: T -> real): real
  {
    if xs == [] then 0.0 else Sum(xs[..|xs| - 1], f) + f(xs[|xs| - 1])
  }

  /** The sum of the natural numbers `f` gives the elements. */
  function SumNat<T>(xs: seq<T>, f: T -> nat): nat
  {
    if xs == [] then 0 else SumNat(xs[..|xs| - 1], f) + f(xs[|xs| - 1])
  }

  /** The number of elements whose key is `k`. */
  function CountKey<T, K(==)>(xs: seq<T>, key: T -> K, k: K): (n: nat)
    ensures n <= |xs|
  {
    if xs == [] then 0 else CountKey(xs[..|xs| - 1], key, k) + (if key(xs[|xs| - 1]) == k then 1 else 0)
  }

  /** The number of elements whose key is `k` and which satisfy `p`. */
  function CountKeyWhere<T, K(==)>(xs: seq<T>, key: T -> K, k: K, p: T -> bool): (n: nat)
    ensures n <= CountKey(xs, key, k)
  {
    if xs == [] then 0
    else CountKeyWhere(xs[..|xs| - 1], key, k, p) + (if key(xs[|xs| - 1]) == k && p(xs[|xs| - 1]) then 1 else 0)
  }

  /** The sum of `f` over the elements whose key is `k`. */
  function SumKey<T, K(==)>(xs: seq<T>, key: T -> K, k: K, f: T -> real): real
  {
    if xs == [] then 0.0
    else SumKey(xs[..|xs| - 1], key, k, f) + (if key(xs[|xs| - 1]) == k then f(xs[|xs| - 1]) else 0.0)
  }

  /** The keys that occur. */
  ghost function Keys<T, K>(xs: seq<T>, key: T -> K): set<K>
  {
    set x | x in xs :: key(x)
  }

  /** Appending one element adds its key to the keys that occur. */
  lemma KeysSnoc<T, K>(xs: seq<T>, x: T, key: T -> K)
    ensures Keys(xs + [x], key) == Keys(xs, key) + {key(x)}
  {
    forall y | y in xs + [x] ensures y in xs || y == x {
      var j :| 0 <= j < |xs + [x]| && (xs + [x])[j] == y;
      if j < |xs| { assert xs[j] == y; }
    }
  }

  lemma KeyCountPositive<T, K>(xs: seq<T>, key: T -> K, k: K)
    requires k in Keys(xs, key)
    ensures CountKey(xs, key, k) > 0
  {
    if key(xs[|xs| - 1]) != k {
      var x :| x in xs && key(x) == k;
      assert x in xs[..|xs| - 1];
      assert k in Keys(xs[..|xs| - 1], key);
      KeyCountPositive(xs[..|xs| - 1], key, k);
    }
  }

  lemma AbsentKeyCountZero<T, K>(xs: seq<T>, key: T -> K, k: K)
    requires k !in Keys(xs, key)
    ensures CountKey(xs, key, k) == 0
  {
    if xs != [] {
      assert xs[|xs| - 1] in xs;
      assert Keys(xs[..|xs| - 1], key) <= Keys(xs, key);
      AbsentKeyCountZero(xs[..|xs| - 1], key, k);
    }
  }

  /** The sum of the per-key counts over a set of keys. */
  ghost function SumCounts<T, K>(xs: seq<T>, key: T -> K, ks: set<K>): nat
    decreases ks
  {
    if ks == {} then 0
    else
      var k :| k in ks;
      CountKey(xs, key, k) + SumCounts(xs, key, ks - {k})
  }

  /** The sum does not depend on the order in which keys are taken out. */
  lemma {:induction false} SumCountsRemove<T, K>(xs: seq<T>, key: T -> K, ks: set<K>, k0: K)
    requires k0 in ks
    ensures SumCounts(xs, key, ks) == CountKey(xs, key, k0) + SumCounts(xs, key, ks - {k0})
    decreases ks
  {
    var k :| k in ks && SumCounts(xs, key, ks) == CountKey(xs, key, k) + SumCounts(xs, key, ks - {k});
    if k != k0 {
      SumCountsRemove(xs, key, ks - {k}, k0);
      SumCountsRemove(xs, key, ks - {k0}, k);
      assert ks - {k} - {k0} == ks - {k0} - {k};
    }
  }

  /** Appending one element adds one to the sum when its key is among those summed. */
  lemma {:induction false} SumCountsSnoc<T, K>(xs: seq<T>, x: T, key: T -> K, ks: set<K>)
    ensures SumCounts(xs + [x], key, ks) == SumCounts(xs, key, ks) + (if key(x) in ks then 1 else 0)
    decreases ks
  {
    if ks != {} {
      var k :| k in ks;
      assert (xs + [x])[..|xs + [x]| - 1] == xs;
      SumCountsRemove(xs + [x], key, ks, k);
      SumCountsRemove(xs, key, ks, k);
      SumCountsSnoc(xs, x, key, ks - {k});
    }
  }

  /** Keys that never occur add nothing to the sum. */
  lemma {:induction false} SumCountsAbsent<T, K>(xs: seq<T>, key: T -> K, ks: set<K>, k: K)
    requires k !in Keys(xs, key) && k !in ks
    ensures SumCounts(xs, key, ks + {k}) == SumCounts(xs, key, ks)
  {
    SumCountsRemove(xs, key, ks + {k}, k);
    AbsentKeyCountZero(xs, key, k);
    assert ks + {k} - {k} == ks;
  }

  /** Grouping by key loses and duplicates nothing: the group sizes add up to
      the number of elements. */
  lemma {:induction false} CountsSumToLength<T, K>(xs: seq<T>, key: T -> K)
    ensures SumCounts(xs, key, Keys(xs, key)) == |xs|
  {
    if xs == [] {
      assert Keys(xs, key) == {};
    } else {
      var init, x := xs[..|xs| - 1], xs[|xs| - 1];
      assert xs == init + [x];
      CountsSumToLength(init, key);
      KeysSnoc(init, x, key);
      SumCountsSnoc(init, x, key, Keys(xs, key));
      if key(x) !in Keys(init, key) {
        SumCountsAbsent(init, key, Keys(init, key), key(x));
      } else {
        assert Keys(xs, key) == Keys(init, key);
      }
    }
  }

  lemma {:induction false} SumConcat<T>(xs: seq<T>, ys: seq<T>, f: T -> real)
    ensures Sum(xs + ys, f) == Sum(xs, f) + Sum(ys, f)
    decreases |ys|
  {
    if ys != [] {
      assert (xs + ys)[..|xs + ys| - 1] == xs + ys[..|ys| - 1];
      SumConcat(xs, ys[..|ys| - 1], f);
    } else {
      assert xs + ys == xs;
    }
  }

  lemma {:induction false} CountConcat<T>(xs: seq<T>, ys: seq<T>, p: T -> bool)
    ensures Count(xs + ys, p) == Count(xs, p) + Count(ys, p)
    decreases |ys|
  {
    if ys != [] {
      assert (xs + ys)[..|xs + ys| - 1] == xs + ys[..|ys| - 1];
      CountConcat(xs, ys[..|ys| - 1], p);
    } else {
      assert xs + ys == xs;
    }
  }

  /** Sums do not depend on the order of the elements. */
  lemma {:induction false} SumPermutation<T>(xs: seq<T>, ys: seq<T>, f: T -> real)
    requires multiset(xs) == multiset(ys)
    ensures Sum(xs, f) == Sum(ys, f)
    decreases |xs|
  {
    if xs != [] {
      var x := xs[|xs| - 1];
      assert x in multiset(ys);
      var j :| 0 <= j < |ys| && ys[j] == x;
      var rest := ys[..j] + ys[j + 1..];
      assert ys == ys[..j] + [x] + ys[j + 1..];
      assert xs == xs[..|xs| - 1] + [x];
      assert multiset(ys) == multiset(ys[..j]) + multiset([x]) + multiset(ys[j + 1..]);
      assert multiset(xs) == multiset(xs[..|xs| - 1]) + multiset([x]);
      assert multiset(rest) == multiset(ys[..j]) + multiset(ys[j + 1..]);
      assert multiset(xs[..|xs| - 1]) == multiset(xs) - multiset([x]);
      assert multiset(rest) == multiset(ys) - multiset([x]);
      SumPermutation(xs[..|xs| - 1], rest, f);
      SumConcat(ys[..j] + [x], ys[j + 1..], f);
      SumConcat(ys[..j], [x], f);
      SumConcat(ys[..j], ys[j + 1..], f);
      assert Sum([x], f) == f(x) by { assert [x][..0] == []; }
    } else {
      assert ys == [];
    }
  }

  /** Counts do not depend on the order of the elements. */
  lemma {:induction false} CountPermutation<T>(xs: seq<T>, ys: seq<T>, p: T -> bool)
    requires multiset(xs) == multiset(ys)
    ensures Count(xs, p) == Count(ys, p)
    decreases |xs|
  {
    if xs != [] {
      var x := xs[|xs| - 1];
      assert x in multiset(ys);
      var j :| 0 <= j < |ys| && ys[j] == x;
      var rest := ys[..j] + ys[j + 1..];
      assert ys == ys[..j] + [x] + ys[j + 1..];
      assert xs == xs[..|xs| - 1] + [x];
      assert multiset(ys) == multiset(ys[..j]) + multiset([x]) + multiset(ys[j + 1..]);
      assert multiset(xs) == multiset(xs[..|xs| - 1]) + multiset([x]);
      assert multiset(rest) == multiset(ys[..j]) + multiset(ys[j + 1..]);
      assert multiset(xs[..|xs| - 1]) == multiset(xs) - multiset([x]);
      assert multiset(rest) == multiset(ys) - multiset([x]);
      CountPermutation(xs[..|xs| - 1], rest, p);
      CountConcat(ys[..j] + [x], ys[j + 1..], p);
      CountConcat(ys[..j], [x], p);
      CountConcat(ys[..j], ys[j + 1..], p);
      assert Count([x], p) == (if p(x) then 1 else 0) by { assert [x][..0] == []; }
    } else {
      assert ys == [];
    }
  }

  /** Every element satisfies `p` exactly when all of them are counted. */
  lemma {:induction false} CountAll<T>(xs: seq<T>, p: T -> bool)
    ensures Count(xs, p) == |xs| <==> forall x :: x in xs ==> p(x)
    decreases |xs|
  {
    if xs != [] {
      var init := xs[..|xs| - 1];
      CountAll(init, p);
      assert xs == init + [xs[|xs| - 1]];
      assert forall x :: x in xs <==> x in init || x == xs[|xs| - 1];
    }
  }

  /** Counting with two selectors that agree on the elements gives the same count. */
  lemma {:induction false} CountCongruence<T>(xs: seq<T>, p: T -> bool, q: T -> bool)
    requires forall x :: x in xs ==> p(x) == q(x)
    ensures Count(xs, p) == Count(xs, q)
    decreases |xs|
  {
    if xs != [] {
      CountCongruence(xs[..|xs| - 1], p, q);
    }
  }

  /** Summing two functions that agree on the elements gives the same sum. */
  lemma {:induction false} SumCongruence<T>(xs: seq<T>, f: T -> real, g: T -> real)
    requires forall x :: x in xs ==> f(x) == g(x)
    ensures Sum(xs, f) == Sum(xs, g)
    decreases |xs|
  {
    if xs != [] {
      SumCongruence(xs[..|xs| - 1], f, g);
    }
  }

  /** A sum of values between 0 and 1 lies between 0 and the number of terms. */
  lemma {:induction false} SumUnitBounds<T>(xs: seq<T>, f: T -> real)
    requires forall x :: x in xs ==> 0.0 <= f(x) <= 1.0
    ensures 0.0 <= Sum(xs, f) <= |xs| as real
    decreases |xs|
  {
    if xs != [] {
      SumUnitBounds(xs[..|xs| - 1], f);
    }
  }

  /** A sum of equal terms is their number times the term. */
  lemma {:induction false} SumConstant<T>(xs: seq<T>, f: T -> real, c: real)
    requires forall x :: x in xs ==> f(x) == c
    ensures Sum(xs, f) == |xs| as real * c
    decreases |xs|
  {
    if xs != [] {
      SumConstant(xs[..|xs| - 1], f, c);
    }
  }

  /** Summing natural numbers agrees with summing them as reals. */
  lemma {:induction false} SumNatAsReal<T>(xs: seq<T>, f: T -> nat, g: T -> real)
    requires forall x :: x in xs ==> g(x) == f(x) as real
    ensures SumNat(xs, f) as real == Sum(xs, g)
    decreases |xs|
  {
    if xs != [] {
      SumNatAsReal(xs[..|xs| - 1], f, g);
    }
  }

  /** Natural sums do not depend on the order of the elements. */
  lemma SumNatPermutation<T>(xs: seq<T>, ys: seq<T>, f: T -> nat)
    requires multiset(xs) == multiset(ys)
    ensures SumNat(xs, f) == SumNat(ys, f)
  {
    var g := x => f(x) as real;
    SumNatAsReal(xs, f, g);
    SumNatAsReal(ys, f, g);
    SumPermutation(xs, ys, g);
  }

  /** A natural sum bounded term by term is bounded by the other sum. */
  lemma {:induction false} SumNatMonotone<T>(xs: seq<T>, f: T -> nat, g: T -> nat)
    requires forall x :: x in xs ==> f(x) <= g(x)
    ensures SumNat(xs, f) <= SumNat(xs, g)
    decreases |xs|
  {
    if xs != [] {
      SumNatMonotone(xs[..|xs| - 1], f, g);
    }
  }

  /** Counting a weaker predicate counts at least as many. */
  lemma {:induction false} CountMonotone<T>(xs: seq<T>, p: T -> bool, q: T -> bool)
    requires forall x :: x in xs && p(x) ==> q(x)
    ensures Count(xs, p) <= Count(xs, q)
    decreases |xs|
  {
    if xs != [] {
      CountMonotone(xs[..|xs| - 1], p, q);
    }
  }
}

/** Sorting by a strict order, and the fact that makes a sorted result canonical:
    two strictly sorted sequences with the same elements are the same sequence. */
module Ordering {

  ghost predicate StrictPartial<T(!new)>(less: (T, T) -> bool) {
    && (forall x :: !less(x, x))
    && (forall x, y, z :: less(x, y) && less(y, z) ==> less(x, z))
  }

  /** Any two different elements of xs are ordered by less. */
  ghost predicate Comparable<T(!new)>(less: (T, T) -> bool, xs: multiset<T>) {
    && (forall x, y :: x in xs && y in xs && x != y ==> less(x, y) || less(y, x))
    && (forall x :: x in xs ==> xs[x] == 1)
  }

  ghost predicate StrictlySorted<T(!new)>(less: (T, T) -> bool, xs: seq<T>) {
    forall i, j :: 0 <= i < j < |xs| ==> less(xs[i], xs[j])
  }

  function Insert<T>(less: (T, T) -> bool, x: T, xs: seq<T>): (r: seq<T>)
    ensures multiset(r) == multiset(xs) + multiset{x}
  {
    if xs == [] then [x]
    else if less(x, xs[0]) then [x] + xs
    else
      assert xs == [xs[0]] + xs[1..];
      [xs[0]] + Insert(less, x, xs[1..])
  }

  function Sort<T>(less: (T, T) -> bool, xs: seq<T>): (r: seq<T>)
    ensures multiset(r) == multiset(xs)
    ensures |r| == |xs|
  {
    if xs == [] then []
    else
      assert xs == [xs[0]] + xs[1..];
      var r := Insert(less, xs[0], Sort(less, xs[1..]));
      assert |r| == |multiset(r)|;
      r
  }

  lemma {:induction false} InsertSorted<T(!new)>(less: (T, T) -> bool, x: T, xs: seq<T>)
    requires StrictPartial(less) && StrictlySorted(less, xs)
    requires forall y :: y in xs ==> less(x, y) || less(y, x)
    ensures StrictlySorted(less, Insert(less, x, xs))
  {
    if xs != [] && !less(x, xs[0]) {
      InsertSorted(less, x, xs[1..]);
      var rest := Insert(less, x, xs[1..]);
      forall y | y in rest ensures less(xs[0], y) {
        assert y in multiset(rest);
        if y != x { assert y in xs[1..]; }
      }
      var r := [xs[0]] + rest;
      forall i, j | 0 <= i < j < |r| ensures less(r[i], r[j]) {
        if i > 0 { assert r[i] == rest[i - 1]; }
        assert r[j] == rest[j - 1];
      }
    }
  }

  /** Sorting elements that are pairwise comparable gives a strictly sorted sequence. */
  lemma {:induction false} SortSorted<T(!new)>(less: (T, T) -> bool, xs: seq<T>)
    requires StrictPartial(less) && Comparable(less, multiset(xs))
    ensures StrictlySorted(less, Sort(less, xs))
  {
    if xs != [] {
      assert xs == [xs[0]] + xs[1..];
      var rest := xs[1..];
      assert multiset(xs) == multiset{xs[0]} + multiset(rest);
      forall y | y in multiset(rest) ensures multiset(rest)[y] == 1 && y != xs[0] {
        assert multiset(xs)[y] == 1;
        assert multiset(xs)[xs[0]] == 1;
      }
      SortSorted(less, rest);
      forall y | y in Sort(less, rest) ensures less(xs[0], y) || less(y, xs[0]) {
        assert y in multiset(Sort(less, rest));
        assert y in multiset(rest);
        assert y in multiset(xs) && xs[0] in multiset(xs);
      }
      InsertSorted(less, xs[0], Sort(less, rest));
    }
  }

  /** A strictly sorted sequence is determined by the set of its elements. */
  lemma {:induction false} SortedUnique<T(!new)>(less: (T, T) -> bool, xs: seq<T>, ys: seq<T>)
    requires StrictPartial(less) && StrictlySorted(less, xs) && StrictlySorted(less, ys)
    requires forall x :: x in xs <==> x in ys
    ensures xs == ys
  {
    assert xs != [] ==> xs[0] in xs;
    assert ys != [] ==> ys[0] in ys;
    if xs != [] && ys != [] {
      assert xs[0] in ys && ys[0] in xs;
      var i :| 0 <= i < |ys| && ys[i] == xs[0];
      var j :| 0 <= j < |xs| && xs[j] == ys[0];
      assert i == 0 && j == 0;
      forall x ensures x in xs[1..] <==> x in ys[1..] {
        if x in xs[1..] {
          var k :| 0 <= k < |xs[1..]| && xs[1..][k] == x;
          assert less(xs[0], xs[k + 1]) && x in xs;
          assert x in ys && x != ys[0];
        }
        if x in ys[1..] {
          var k :| 0 <= k < |ys[1..]| && ys[1..][k] == x;
          assert less(ys[0], ys[k + 1]) && x in ys;
          assert x in xs && x != xs[0];
        }
      }
      SortedUnique(less, xs[1..], ys[1..]);
    }
  }

  /** Sorting forgets the order of its input. */
  lemma SortCanonical<T(!new)>(less: (T, T) -> bool, xs: seq<T>, ys: seq<T>)
    requires StrictPartial(less) && Comparable(less, multiset(xs))
    requires multiset(xs) == multiset(ys)
    ensures Sort(less, xs) == Sort(less, ys)
  {
    SortSorted(less, xs);
    SortSorted(less, ys);
    forall x ensures x in Sort(less, xs) <==> x in Sort(less, ys) {
      assert x in multiset(Sort(less, xs)) <==> x in multiset(Sort(less, ys));
    }
    SortedUnique(less, Sort(less, xs), Sort(less, ys));
  }

  lemma SamePlaces<T>(xs: seq<T>, i: nat, j: nat)
    requires i < j < |xs| && xs[i] == xs[j]
    ensures multiset(xs)[xs[i]] >= 2
  {
    assert xs == xs[..j] + xs[j..];
    assert xs[..j][i] == xs[i] && xs[j..][0] == xs[i];
    assert multiset(xs) == multiset(xs[..j]) + multiset(xs[j..]);
    assert xs[i] in multiset(xs[..j]) && xs[i] in multiset(xs[j..]);
  }

  lemma {:induction false} CountsOnce<T>(xs: seq<T>)
    requires forall i, j :: 0 <= i < j < |xs| ==> xs[i] != xs[j]
    ensures forall x :: x in xs ==> multiset(xs)[x] == 1
  {
    if xs != [] {
      assert xs == [xs[0]] + xs[1..];
      assert multiset(xs) == multiset{xs[0]} + multiset(xs[1..]);
      CountsOnce(xs[1..]);
      assert xs[0] !in xs[1..];
    }
  }
}

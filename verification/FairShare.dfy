/** The byte allocation of the important Context tier: a max-min ("water-filling")
    share of a budget, computed by a binary search for the water level. */
module FairShare {

  function Min(x: int, y: int): int { if x < y then x else y }

  function Sum(a: seq<int>): int
  {
    if a == [] then 0 else a[0] + Sum(a[1..])
  }

  /** The bytes used when every component is filled up to the same level. */
  function Filled(sizes: seq<nat>, level: nat): nat
  {
    if sizes == [] then 0 else Min(sizes[0], level) + Filled(sizes[1..], level)
  }

  /** How many components are larger than level. */
  function Above(sizes: seq<nat>, level: nat): nat
  {
    if sizes == [] then 0 else (if sizes[0] > level then 1 else 0) + Above(sizes[1..], level)
  }

  /** Max-min fairness over whole bytes: nothing exceeds its size, the budget is used
      up unless everything fits, and a component that was cut is at most one byte
      behind any other, the spare byte always going to the earlier one. */
  ghost predicate MaxMinFair(a: seq<nat>, sizes: seq<nat>, budget: int)
  {
    && |a| == |sizes|
    && (forall i :: 0 <= i < |a| ==> a[i] <= sizes[i])
    && Sum(a) == (if budget <= 0 then 0 else Min(budget, Sum(sizes)))
    && (forall i, j :: 0 <= i < |a| && 0 <= j < |a| && a[i] < sizes[i] ==>
          a[j] <= a[i] + (if j < i then 1 else 0))
  }

  lemma {:induction false} SumAppend(a: seq<int>, x: int)
    ensures Sum(a + [x]) == Sum(a) + x
  {
    if a == [] {
      assert a + [x] == [x];
    } else {
      assert (a + [x])[1..] == a[1..] + [x];
      SumAppend(a[1..], x);
    }
  }

  lemma {:induction false} SumUpdate(a: seq<int>, k: nat, x: int)
    requires k < |a|
    ensures Sum(a[k := x]) == Sum(a) - a[k] + x
  {
    if k == 0 {
      assert a[0 := x][1..] == a[1..];
    } else {
      assert a[k := x][1..] == a[1..][k - 1 := x];
      SumUpdate(a[1..], k - 1, x);
    }
  }

  lemma {:induction false} SumMonotone(a: seq<int>, b: seq<int>)
    requires |a| == |b| && forall i :: 0 <= i < |a| ==> a[i] <= b[i]
    ensures Sum(a) <= Sum(b)
    ensures Sum(a) == Sum(b) ==> a == b
  {
    if a != [] {
      var s, t := a[1..], b[1..];
      forall i | 0 <= i < |s| ensures s[i] <= t[i] { assert a[i + 1] <= b[i + 1]; }
      SumMonotone(s, t);
      assert a[0] <= b[0] && Sum(a) == a[0] + Sum(s) && Sum(b) == b[0] + Sum(t);
      hide Sum;
      assert a == [a[0]] + s && b == [b[0]] + t;
    }
  }

  lemma {:induction false} FilledMonotone(sizes: seq<nat>, low: nat, high: nat)
    requires low <= high
    ensures Filled(sizes, low) <= Filled(sizes, high)
  {
    if sizes != [] { FilledMonotone(sizes[1..], low, high); }
  }

  /** Raising the level by one costs one byte per component above it. */
  lemma {:induction false} FilledStep(sizes: seq<nat>, level: nat)
    ensures Filled(sizes, level + 1) == Filled(sizes, level) + Above(sizes, level)
  {
    if sizes != [] { FilledStep(sizes[1..], level); }
  }

  lemma {:induction false} FilledAppend(sizes: seq<nat>, x: nat, level: nat)
    ensures Filled(sizes + [x], level) == Filled(sizes, level) + Min(x, level)
  {
    if sizes == [] {
      assert sizes + [x] == [x];
    } else {
      assert (sizes + [x])[1..] == sizes[1..] + [x];
      FilledAppend(sizes[1..], x, level);
    }
  }

  lemma {:induction false} AboveAppend(sizes: seq<nat>, x: nat, level: nat)
    ensures Above(sizes + [x], level) == Above(sizes, level) + (if x > level then 1 else 0)
  {
    if sizes == [] {
      assert sizes + [x] == [x];
    } else {
      assert (sizes + [x])[1..] == sizes[1..] + [x];
      AboveAppend(sizes[1..], x, level);
    }
  }

  lemma {:induction false} FilledAtTop(sizes: seq<nat>, level: nat)
    requires forall i :: 0 <= i < |sizes| ==> sizes[i] <= level
    ensures Filled(sizes, level) == Sum(sizes)
  {
    if sizes != [] {
      assert forall i :: 0 <= i < |sizes| - 1 ==> sizes[1..][i] == sizes[i + 1];
      FilledAtTop(sizes[1..], level);
    }
  }

  lemma {:induction false} FilledPrefix(sizes: seq<nat>, n: nat, level: nat)
    requires n <= |sizes|
    ensures Filled(sizes[..n], level) <= Filled(sizes, level)
  {
    if n > 0 {
      assert sizes[..n][1..] == sizes[1..][..n - 1];
      FilledPrefix(sizes[1..], n - 1, level);
    }
  }

  /** The total bytes below the level mid, abandoned as soon as they pass the budget. */
  method LevelCost(sizes: seq<nat>, mid: nat, budget: nat) returns (fits: bool)
    ensures fits <==> Filled(sizes, mid) <= budget
  {
    var total, i := 0, 0;
    while i < |sizes|
      invariant 0 <= i <= |sizes|
      invariant total == Filled(sizes[..i], mid)
    {
      assert sizes[..i + 1] == sizes[..i] + [sizes[i]];
      FilledAppend(sizes[..i], sizes[i], mid);
      if sizes[i] < mid { total := total + sizes[i]; } else { total := total + mid; }
      i := i + 1;
      FilledPrefix(sizes, i, mid);
      if total > budget { return false; }
    }
    assert sizes[..i] == sizes;
    return total <= budget;
  }

  /** The highest level whose cost fits: the next level up is unaffordable unless
      the level already covers the largest component. */
  method WaterLevel(sizes: seq<nat>, budget: nat) returns (level: nat)
    ensures Filled(sizes, level) <= budget
    ensures Filled(sizes, level + 1) <= budget ==> forall i :: 0 <= i < |sizes| ==> sizes[i] <= level
  {
    var top, k := 0, 0;
    while k < |sizes|
      invariant 0 <= k <= |sizes|
      invariant forall i :: 0 <= i < k ==> sizes[i] <= top
    {
      if sizes[k] > top { top := sizes[k]; }
      k := k + 1;
    }
    var lo, hi := 0, top;
    FilledZero(sizes);
    while lo < hi
      invariant 0 <= lo <= hi <= top
      invariant Filled(sizes, lo) <= budget
      invariant hi < top ==> Filled(sizes, hi + 1) > budget
    {
      var mid := (lo + hi + 1) / 2;
      var fits := LevelCost(sizes, mid, budget);
      if fits { lo := mid; } else { hi := mid - 1; }
    }
    return lo;
  }

  lemma {:induction false} FilledZero(sizes: seq<nat>)
    ensures Filled(sizes, 0) == 0
  {
    if sizes != [] { FilledZero(sizes[1..]); }
  }

  /** The allocation after filling to level and giving one spare byte to each of
      the first components above it. */
  ghost predicate LevelledWith(a: seq<nat>, sizes: seq<nat>, level: nat, given: nat)
  {
    && |a| == |sizes| && given <= |sizes|
    && (forall i :: 0 <= i < given ==> a[i] == Min(sizes[i], level + 1))
    && (forall i :: given <= i < |sizes| ==> a[i] == Min(sizes[i], level))
  }

  lemma {:induction false} LevelledSum(a: seq<nat>, sizes: seq<nat>, level: nat, given: nat)
    requires LevelledWith(a, sizes, level, given)
    ensures Sum(a) == Filled(sizes, level) + Above(sizes[..given], level)
  {
    if sizes != [] {
      var rest := a[1..];
      assert forall i :: 0 <= i < |rest| ==> rest[i] == a[i + 1] && sizes[1..][i] == sizes[i + 1];
      if given == 0 {
        LevelledSum(rest, sizes[1..], level, 0);
        assert sizes[..0] == [] && sizes[1..][..0] == [];
      } else {
        LevelledSum(rest, sizes[1..], level, given - 1);
        assert sizes[..given][1..] == sizes[1..][..given - 1];
      }
    }
  }

  method FillToLevel(a: array<nat>, sizes: seq<nat>, level: nat) returns (used: nat)
    requires a.Length == |sizes|
    modifies a
    ensures LevelledWith(a[..], sizes, level, 0)
    ensures used == Filled(sizes, level)
  {
    var i := 0;
    used := 0;
    while i < |sizes|
      invariant 0 <= i <= |sizes|
      invariant forall k :: 0 <= k < i ==> a[k] == Min(sizes[k], level)
      invariant used == Filled(sizes[..i], level)
    {
      if sizes[i] < level { a[i] := sizes[i]; } else { a[i] := level; }
      used := used + a[i];
      assert sizes[..i + 1] == sizes[..i] + [sizes[i]];
      FilledAppend(sizes[..i], sizes[i], level);
      i := i + 1;
    }
    assert sizes[..i] == sizes;
  }

  method CountOpen(a: array<nat>, sizes: seq<nat>, ghost level: nat) returns (active: nat)
    requires LevelledWith(a[..], sizes, level, 0)
    ensures active == Above(sizes, level)
  {
    active := 0;
    var i := 0;
    while i < |sizes|
      invariant 0 <= i <= |sizes|
      invariant active == Above(sizes[..i], level)
    {
      assert a[..][i] == a[i];
      assert sizes[..i + 1] == sizes[..i] + [sizes[i]];
      AboveAppend(sizes[..i], sizes[i], level);
      if a[i] < sizes[i] { active := active + 1; }
      i := i + 1;
    }
    assert sizes[..i] == sizes;
  }

  /** One byte to each open component, in order, until the spare bytes run out. */
  method GiveSpare(a: array<nat>, sizes: seq<nat>, ghost level: nat, spare: nat) returns (left: nat, ghost given: nat)
    requires LevelledWith(a[..], sizes, level, 0)
    requires spare < Above(sizes, level)
    modifies a
    ensures left == 0
    ensures LevelledWith(a[..], sizes, level, given)
    ensures Above(sizes[..given], level) == spare
  {
    left, given := spare, 0;
    var i := 0;
    while i < |sizes|
      invariant 0 <= i <= |sizes| && given <= i
      invariant left > 0 ==> given == i
      invariant LevelledWith(a[..], sizes, level, given)
      invariant left + Above(sizes[..given], level) == spare
    {
      if left == 0 { break; }
      assert a[..][i] == a[i];
      assert sizes[..i + 1] == sizes[..i] + [sizes[i]];
      AboveAppend(sizes[..i], sizes[i], level);
      if a[i] < sizes[i] {
        a[i] := a[i] + 1;
        left := left - 1;
      }
      given := i + 1;
      i := i + 1;
    }
    assert sizes[..|sizes|] == sizes;
  }

  /** The in-place allocation. The proportional round of the loop can never run: after
      the search the leftover is smaller than the number of components still open. */
  method BalancedAlloc(sizes: seq<nat>, budget: int) returns (a: array<nat>)
    ensures MaxMinFair(a[..], sizes, budget)
  {
    a := new nat[|sizes|](_ => 0);
    SumZero(a[..]);
    if |sizes| == 0 || budget <= 0 { return; }
    var level := WaterLevel(sizes, budget);
    var used := FillToLevel(a, sizes, level);
    var left := budget - used;
    ghost var given: nat := 0;
    while left > 0
      invariant 0 <= left
      invariant LevelledWith(a[..], sizes, level, given)
      invariant left + Filled(sizes, level) + Above(sizes[..given], level) == budget
      invariant left > 0 ==> given == 0
      decreases left
    {
      var active := CountOpen(a, sizes, level);
      if active == 0 { break; }
      LeftoverBelowOpen(sizes, level, budget);
      var share := left / active;
      if share != 0 { assert false; }
      left, given := GiveSpare(a, sizes, level, left);
    }
    ShareIsFair(a[..], sizes, level, given, left, budget);
  }

  /** Why the proportional round is dead: the leftover of the search is smaller than
      the number of open components. */
  lemma LeftoverBelowOpen(sizes: seq<nat>, level: nat, budget: nat)
    requires Filled(sizes, level) <= budget
    requires Filled(sizes, level + 1) <= budget ==> forall i :: 0 <= i < |sizes| ==> sizes[i] <= level
    requires Above(sizes, level) > 0
    ensures budget - Filled(sizes, level) < Above(sizes, level)
  {
    FilledStep(sizes, level);
    if Filled(sizes, level + 1) <= budget { AboveNone(sizes, level); }
  }

  lemma ShareIsFair(a: seq<nat>, sizes: seq<nat>, level: nat, given: nat, left: nat, budget: nat)
    requires LevelledWith(a, sizes, level, given) && budget > 0
    requires left + Filled(sizes, level) + Above(sizes[..given], level) == budget
    requires left > 0 ==> given == 0 && Above(sizes, level) == 0
    ensures MaxMinFair(a, sizes, budget)
  {
    LevelledSum(a, sizes, level, given);
    if left > 0 {
      assert sizes[..0] == [];
      AboveZero(sizes, level);
      assert a == sizes;
    } else {
      SumMonotone(a, sizes);
    }
  }

  lemma {:induction false} AboveNone(sizes: seq<nat>, level: nat)
    requires forall i :: 0 <= i < |sizes| ==> sizes[i] <= level
    ensures Above(sizes, level) == 0
  {
    if sizes != [] {
      assert forall i :: 0 <= i < |sizes| - 1 ==> sizes[1..][i] == sizes[i + 1];
      AboveNone(sizes[1..], level);
    }
  }

  lemma {:induction false} AboveZero(sizes: seq<nat>, level: nat)
    requires Above(sizes, level) == 0
    ensures forall i :: 0 <= i < |sizes| ==> sizes[i] <= level
  {
    if sizes != [] {
      AboveZero(sizes[1..], level);
      assert forall i :: 1 <= i < |sizes| ==> sizes[i] == sizes[1..][i - 1];
    }
  }

  lemma {:induction false} SumZero(a: seq<int>)
    requires forall i :: 0 <= i < |a| ==> a[i] == 0
    ensures Sum(a) == 0
  {
    if a != [] {
      assert forall i :: 0 <= i < |a| - 1 ==> a[1..][i] == a[i + 1];
      SumZero(a[1..]);
    }
  }

  /** Two sequences of one length and sum that differ, differ in both directions. */
  lemma {:induction false} SomeSmaller(a: seq<nat>, b: seq<nat>, i: nat) returns (j: nat)
    requires |a| == |b| && i < |a| && b[i] > a[i] && Sum(b) <= Sum(a)
    ensures j < |a| && b[j] < a[j]
  {
    if forall k :: 0 <= k < |a| ==> a[k] <= b[k] {
      SumMonotone(a, b);
      assert Sum(a) == Sum(b);
      assert false;
    }
    j :| 0 <= j < |a| && b[j] < a[j];
  }

  /** The fairness conditions leave exactly one allocation. */
  lemma FairIsUnique(a: seq<nat>, b: seq<nat>, sizes: seq<nat>, budget: int)
    requires MaxMinFair(a, sizes, budget) && MaxMinFair(b, sizes, budget)
    ensures a == b
  {
    if a != b {
      var i :| 0 <= i < |a| && a[i] != b[i];
      if a[i] < b[i] {
        var j := SomeSmaller(a, b, i);
      } else {
        var j := SomeSmaller(b, a, i);
      }
    }
  }

  /** No affordable allocation is fairer: giving any component more than it got takes
      bytes from a component that had at most one more byte. */
  lemma NoneFairer(a: seq<nat>, b: seq<nat>, sizes: seq<nat>, budget: int, i: nat)
    requires MaxMinFair(a, sizes, budget)
    requires |b| == |sizes| && (forall k :: 0 <= k < |b| ==> b[k] <= sizes[k]) && Sum(b) <= budget
    requires i < |b| && b[i] > a[i]
    ensures exists j :: 0 <= j < |b| && b[j] < a[j] <= a[i] + 1
  {
    SumMonotone(a, sizes);
    SumMonotone(b, sizes);
    SumZero(seq(|b|, _ => 0));
    SumMonotone(seq(|b|, _ => 0), b);
    var j := SomeSmaller(a, b, i);
  }

  // ----- the allocation poured one byte at a time -----

  /** Whether position i is the first of the least filled open components. */
  ghost predicate NextToFill(a: seq<nat>, sizes: seq<nat>, i: nat)
  {
    && |a| == |sizes| && i < |a| && a[i] < sizes[i]
    && (forall k :: 0 <= k < |a| && a[k] < sizes[k] ==> if k < i then a[i] < a[k] else a[i] <= a[k])
  }

  lemma {:induction false} SomeNextToFill(a: seq<nat>, sizes: seq<nat>, i: nat)
    requires |a| == |sizes| && i < |a| && a[i] < sizes[i]
    ensures exists k :: NextToFill(a, sizes, k)
    decreases a[i], i
  {
    if !NextToFill(a, sizes, i) {
      var k :| 0 <= k < |a| && a[k] < sizes[k] && (a[k] < a[i] || (a[k] == a[i] && k < i));
      SomeNextToFill(a, sizes, k);
    }
  }

  ghost function FirstToFill(a: seq<nat>, sizes: seq<nat>): (i: nat)
    requires exists i: nat :: NextToFill(a, sizes, i)
    ensures NextToFill(a, sizes, i)
  {
    var i: nat :| NextToFill(a, sizes, i); i
  }

  /** The slow reference: pour the budget out byte by byte, each byte going to the
      first of the least filled components that still has room. */
  ghost function Pour(sizes: seq<nat>, budget: nat): (a: seq<nat>)
    ensures |a| == |sizes|
  {
    if budget == 0 then seq(|sizes|, _ => 0)
    else
      var a := Pour(sizes, budget - 1);
      if exists i: nat :: NextToFill(a, sizes, i) then
        var i := FirstToFill(a, sizes);
        a[i := a[i] + 1]
      else a
  }

  /** One more byte keeps the allocation fair. */
  lemma PourStep(a: seq<nat>, sizes: seq<nat>, budget: nat, k: nat)
    requires budget > 0 && MaxMinFair(a, sizes, budget - 1) && NextToFill(a, sizes, k)
    ensures MaxMinFair(a[k := a[k] + 1], sizes, budget)
  {
    var next := a[k := a[k] + 1];
    SumUpdate(a, k, a[k] + 1);
    SumMonotone(a, sizes);
    SumMonotone(next, sizes);
    forall i, j | 0 <= i < |a| && 0 <= j < |a| && next[i] < sizes[i]
      ensures next[j] <= next[i] + (if j < i then 1 else 0)
    {
      if i != k && j == k { assert a[i] < sizes[i]; }
    }
  }

  lemma PourFull(a: seq<nat>, sizes: seq<nat>, budget: nat)
    requires budget > 0 && MaxMinFair(a, sizes, budget - 1)
    requires !exists i: nat :: NextToFill(a, sizes, i)
    ensures MaxMinFair(a, sizes, budget)
  {
    forall i | 0 <= i < |a| ensures a[i] >= sizes[i] {
      if a[i] < sizes[i] { SomeNextToFill(a, sizes, i); }
    }
    assert a == sizes;
  }

  lemma {:induction false} PourIsFair(sizes: seq<nat>, budget: nat)
    ensures MaxMinFair(Pour(sizes, budget), sizes, budget)
  {
    if budget == 0 {
      SumZero(Pour(sizes, 0));
    } else {
      hide MaxMinFair, NextToFill;
      var a := Pour(sizes, budget - 1);
      PourIsFair(sizes, budget - 1);
      if exists i: nat :: NextToFill(a, sizes, i) {
        PourStep(a, sizes, budget, FirstToFill(a, sizes));
      } else {
        PourFull(a, sizes, budget);
      }
    }
  }

  /** The binary search gives what pouring byte by byte gives. */
  lemma FastIsPour(a: seq<nat>, sizes: seq<nat>, budget: nat)
    requires MaxMinFair(a, sizes, budget)
    ensures a == Pour(sizes, budget)
  {
    PourIsFair(sizes, budget);
    FairIsUnique(a, Pour(sizes, budget), sizes, budget);
  }
}

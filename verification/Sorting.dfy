/** Stable sorting by a strict order, as `sorted` does it, and dropping repeats. */
module Sorting {
  ghost predicate StrictOrder<T(!new)>(before: (T, T) -> bool) {
    && (forall x :: !before(x, x))
    && (forall x, y, z :: before(x, y) && before(y, z) ==> before(x, z))
  }

  ghost predicate Sorted<T>(s: seq<T>, before: (T, T) -> bool) {
    forall i, j | 0 <= i < j < |s| :: !before(s[j], s[i])
  }

  /** Puts `x` behind everything it does not come before. */
  function InsertBy<T>(s: seq<T>, x: T, before: (T, T) -> bool): seq<T> {
    if s == [] then [x]
    else if before(x, s[0]) then [x] + s
    else [s[0]] + InsertBy(s[1..], x, before)
  }

  function SortBy<T>(s: seq<T>, before: (T, T) -> bool): seq<T> {
    if s == [] then [] else InsertBy(SortBy(s[..|s| - 1], before), s[|s| - 1], before)
  }

  lemma {:induction false} InsertKeeps<T(!new)>(s: seq<T>, x: T, before: (T, T) -> bool)
    ensures multiset(InsertBy(s, x, before)) == multiset(s) + multiset{x}
  {
    if s != [] {
      assert s == [s[0]] + s[1..];
      if !before(x, s[0]) {
        InsertKeeps(s[1..], x, before);
      }
    }
  }

  lemma {:induction false} InsertSorts<T(!new)>(s: seq<T>, x: T, before: (T, T) -> bool)
    requires StrictOrder(before) && Sorted(s, before)
    ensures Sorted(InsertBy(s, x, before), before)
  {
    if s != [] && !before(x, s[0]) {
      var rest := InsertBy(s[1..], x, before);
      InsertSorts(s[1..], x, before);
      InsertKeeps(s[1..], x, before);
      forall j | 0 <= j < |rest| ensures !before(rest[j], s[0]) {
        assert rest[j] in multiset(rest);
        assert rest[j] == x || rest[j] in s[1..];
      }
    }
  }

  lemma {:induction false} SortByKeeps<T(!new)>(s: seq<T>, before: (T, T) -> bool)
    ensures multiset(SortBy(s, before)) == multiset(s)
    ensures |SortBy(s, before)| == |s|
    ensures forall y :: y in SortBy(s, before) <==> y in s
  {
    if s != [] {
      var n := |s| - 1;
      SortByKeeps(s[..n], before);
      InsertKeeps(SortBy(s[..n], before), s[n], before);
      assert s == s[..n] + [s[n]];
    }
    assert |multiset(SortBy(s, before))| == |SortBy(s, before)|;
    forall y ensures y in SortBy(s, before) <==> y in s {
      assert y in SortBy(s, before) <==> y in multiset(SortBy(s, before));
      assert y in s <==> y in multiset(s);
    }
  }

  lemma {:induction false} SortBySorts<T(!new)>(s: seq<T>, before: (T, T) -> bool)
    requires StrictOrder(before)
    ensures Sorted(SortBy(s, before), before)
  {
    if s != [] {
      SortBySorts(s[..|s| - 1], before);
      InsertSorts(SortBy(s[..|s| - 1], before), s[|s| - 1], before);
    }
  }

  /** Cutting a sorted list: nothing behind the cut comes before anything ahead of it. */
  lemma CutIsSorted<T>(s: seq<T>, before: (T, T) -> bool, k: nat, x: T, y: T)
    requires Sorted(s, before) && k <= |s| && x in s[..k] && y in s[k..]
    ensures !before(y, x)
  {
    var i :| 0 <= i < k && s[..k][i] == x;
    var j :| 0 <= j < |s| - k && s[k..][j] == y;
    assert s[i] == x && s[k + j] == y;
  }

  ghost predicate NoRepeats<T>(s: seq<T>) {
    forall i, j | 0 <= i < j < |s| :: s[i] != s[j]
  }

  lemma JoinWithoutRepeats<T>(a: seq<T>, b: seq<T>)
    requires NoRepeats(a) && NoRepeats(b) && forall x | x in a :: x !in b
    ensures NoRepeats(a + b)
  {
    var all := a + b;
    forall i, j | 0 <= i < j < |all| ensures all[i] != all[j] {
      if i < |a| <= j { assert a[i] in a && b[j - |a|] in b; }
    }
  }

  lemma NoRepeatsAsMultiset<T(!new)>(s: seq<T>)
    ensures NoRepeats(s) <==> forall x :: multiset(s)[x] <= 1
  {
    if forall x :: multiset(s)[x] <= 1 {
      forall i, j | 0 <= i < j < |s| ensures s[i] != s[j] {
        assert s == s[..i] + [s[i]] + s[i + 1..j] + [s[j]] + s[j + 1..];
        assert multiset(s) == multiset(s[..i]) + multiset{s[i]} + multiset(s[i + 1..j]) + multiset{s[j]}
            + multiset(s[j + 1..]);
        assert multiset(s)[s[i]] <= 1;
      }
    }
    if NoRepeats(s) {
      forall x ensures multiset(s)[x] <= 1 { AtMostOnce(s, x); }
    }
  }

  lemma {:induction false} AtMostOnce<T(!new)>(s: seq<T>, x: T)
    requires NoRepeats(s)
    ensures multiset(s)[x] <= 1
  {
    if s != [] {
      var n := |s| - 1;
      AtMostOnce(s[..n], x);
      assert s == s[..n] + [s[n]];
      assert s[n] !in s[..n];
      assert x == s[n] ==> x !in multiset(s[..n]);
    }
  }

  /** Sorting a list without repeats leaves it without repeats. */
  lemma SortKeepsDistinct<T(!new)>(s: seq<T>, before: (T, T) -> bool)
    requires NoRepeats(s)
    ensures NoRepeats(SortBy(s, before))
  {
    SortByKeeps(s, before);
    NoRepeatsAsMultiset(s);
    NoRepeatsAsMultiset(SortBy(s, before));
  }

  /** Each element once, where it first stood: `dict.fromkeys`, or DISTINCT. */
  function Distinct<T(==)>(s: seq<T>): seq<T> {
    if s == [] then []
    else
      var front, last := Distinct(s[..|s| - 1]), s[|s| - 1];
      if last in front then front else front + [last]
  }

  /** Where an element first stands. */
  ghost predicate FirstAt<T(!new)>(s: seq<T>, x: T, i: nat) {
    i < |s| && s[i] == x && forall j | 0 <= j < i :: s[j] != x
  }

  /** The elements come in the order in which they first stood. */
  lemma {:induction false} DistinctInOrder<T(!new)>(s: seq<T>, p: nat, q: nat, i: nat, j: nat)
    requires p < q < |Distinct(s)| && FirstAt(s, Distinct(s)[p], i) && FirstAt(s, Distinct(s)[q], j)
    ensures i < j
  {
    var n := |s| - 1;
    var order, before := Distinct(s), Distinct(s[..n]);
    DistinctMeans(s[..n]);
    DistinctMeans(s);
    assert order[p] == before[p] && order[p] in before;
    var k :| 0 <= k < n && s[..n][k] == order[p];
    assert i <= k;
    if q < |before| {
      assert order[q] in before;
      var k' :| 0 <= k' < n && s[..n][k'] == order[q];
      assert j <= k';
      DistinctInOrder(s[..n], p, q, i, j);
    }
  }

  lemma {:induction false} DistinctMeans<T>(s: seq<T>)
    ensures NoRepeats(Distinct(s))
    ensures forall x :: x in Distinct(s) <==> x in s
  {
    if s != [] {
      DistinctMeans(s[..|s| - 1]);
      assert s == s[..|s| - 1] + [s[|s| - 1]];
    }
  }
}

/** Stable insertion sort by a strict weak order, and how it meets filtering. */
module Ordering {
  import opened Common

  /** What a comparator must satisfy: asymmetry, and transitivity of "not before". */
  ghost predicate StrictWeak<T(!new)>(before: (T, T) -> bool) {
    && (forall a, b :: before(a, b) ==> !before(b, a))
    && (forall a, b, c :: !before(b, a) && !before(c, b) ==> !before(c, a))
  }

  ghost predicate Sorted<T>(xs: seq<T>, before: (T, T) -> bool) {
    forall i, j :: 0 <= i < j < |xs| ==> !before(xs[j], xs[i])
  }

  function Insert<T(!new)>(xs: seq<T>, x: T, before: (T, T) -> bool): (s: seq<T>)
    ensures forall y :: y in s <==> y in xs || y == x
    ensures |s| == |xs| + 1
  {
    if |xs| == 0 then [x]
    else if !before(x, xs[|xs| - 1]) then xs + [x]
    else Insert(xs[..|xs| - 1], x, before) + [xs[|xs| - 1]]
  }

  function Sort<T(!new)>(xs: seq<T>, before: (T, T) -> bool): (s: seq<T>)
    ensures forall y :: y in s <==> y in xs
    ensures |s| == |xs|
  {
    if |xs| == 0 then [] else Insert(Sort(xs[..|xs| - 1], before), xs[|xs| - 1], before)
  }

  lemma SortSnoc<T(!new)>(xs: seq<T>, x: T, before: (T, T) -> bool)
    ensures Sort(xs + [x], before) == Insert(Sort(xs, before), x, before)
  {
    assert (xs + [x])[..|xs + [x]| - 1] == xs;
  }

  /** Sorting a sorted list changes nothing. */
  lemma {:induction false} SortSorted<T(!new)>(xs: seq<T>, before: (T, T) -> bool)
    requires Sorted(xs, before)
    ensures Sort(xs, before) == xs
  {
    if |xs| > 0 { SortSorted(xs[..|xs| - 1], before); }
  }

  lemma NotBeforeLast<T(!new)>(xs: seq<T>, x: T, before: (T, T) -> bool)
    requires Sorted(xs, before) && StrictWeak(before) && |xs| > 0 && !before(x, xs[|xs| - 1])
    ensures forall y :: y in xs ==> !before(x, y)
  {
    forall y | y in xs ensures !before(x, y) {
      var k: nat :| k < |xs| && xs[k] == y;
      if k < |xs| - 1 { assert !before(xs[|xs| - 1], xs[k]); }
    }
  }

  lemma {:induction false} InsertSorted<T(!new)>(xs: seq<T>, x: T, before: (T, T) -> bool)
    requires Sorted(xs, before) && StrictWeak(before)
    ensures Sorted(Insert(xs, x, before), before)
  {
    if |xs| > 0 {
      var front, last := xs[..|xs| - 1], xs[|xs| - 1];
      if before(x, last) {
        InsertSorted(front, x, before);
        var s := Insert(front, x, before);
        forall i | 0 <= i < |s| ensures !before(last, s[i]) {
          assert s[i] in s;
          if s[i] in front {
            var k: nat :| k < |front| && front[k] == s[i];
            assert xs[k] == s[i];
          }
        }
      } else {
        NotBeforeLast(xs, x, before);
      }
    }
  }

  lemma {:induction false} SortIsSorted<T(!new)>(xs: seq<T>, before: (T, T) -> bool)
    requires StrictWeak(before)
    ensures Sorted(Sort(xs, before), before)
  {
    if |xs| > 0 {
      hide StrictWeak, Sorted, Insert;
      assert Sorted(Sort(xs[..|xs| - 1], before), before) by { SortIsSorted(xs[..|xs| - 1], before); }
      InsertSorted(Sort(xs[..|xs| - 1], before), xs[|xs| - 1], before);
    } else {
      assert Sort(xs, before) == [];
    }
  }

  lemma AppendKept<T(!new)>(xs: seq<T>, x: T, before: (T, T) -> bool, p: T -> bool)
    requires Sorted(xs, before) && StrictWeak(before) && |xs| > 0 && !before(x, xs[|xs| - 1])
    ensures Insert(Filter(xs, p), x, before) == Filter(xs, p) + [x]
  {
    NotBeforeLast(xs, x, before);
    var kept := Filter(xs, p);
    if |kept| > 0 { assert kept[|kept| - 1] in kept; }
  }

  lemma InsertUnder<T(!new)>(front: seq<T>, last: T, x: T, before: (T, T) -> bool)
    requires before(x, last)
    ensures Insert(front + [last], x, before) == Insert(front, x, before) + [last]
  {
    assert (front + [last])[..|front|] == front;
  }

  lemma {:induction false} FilterInsert<T(!new)>(xs: seq<T>, x: T, before: (T, T) -> bool, p: T -> bool)
    requires Sorted(xs, before) && StrictWeak(before)
    ensures Filter(Insert(xs, x, before), p) ==
            if p(x) then Insert(Filter(xs, p), x, before) else Filter(xs, p)
  {
    hide Filter, StrictWeak;
    if |xs| == 0 {
      FilterSnoc([], x, p);
      assert [] + [x] == [x];
    } else {
      var front, last := xs[..|xs| - 1], xs[|xs| - 1];
      assert xs == front + [last];
      if !before(x, last) {
        FilterSnoc(xs, x, p);
        AppendKept(xs, x, before, p);
      } else {
        FilterInsert(front, x, before, p);
        FilterSnoc(front, last, p);
        FilterSnoc(Insert(front, x, before), last, p);
        if p(last) {
          InsertUnder(Filter(front, p), last, x, before);
        } else {
          assert Filter(front, p) + [] == Filter(front, p);
        }
      }
    }
  }

  /** Sorting and filtering commute. */
  lemma {:induction false} FilterSort<T(!new)>(xs: seq<T>, before: (T, T) -> bool, p: T -> bool)
    requires StrictWeak(before)
    ensures Filter(Sort(xs, before), p) == Sort(Filter(xs, p), before)
  {
    if |xs| > 0 {
      hide Insert, Sorted, StrictWeak;
      var front, last := xs[..|xs| - 1], xs[|xs| - 1];
      FilterSort(front, before, p);
      SortIsSorted(front, before);
      FilterInsert(Sort(front, before), last, before, p);
      if p(last) { SortSnoc(Filter(front, p), last, before); }
    }
  }

  lemma {:induction false} FilterSorted<T(!new)>(xs: seq<T>, before: (T, T) -> bool, p: T -> bool)
    requires Sorted(xs, before)
    ensures Sorted(Filter(xs, p), before)
  {
    if |xs| > 0 {
      var front, last := xs[..|xs| - 1], xs[|xs| - 1];
      FilterSorted(front, before, p);
      var kept := Filter(front, p);
      forall i | 0 <= i < |kept| ensures !before(last, kept[i]) {
        assert kept[i] in front;
        var k: nat :| k < |front| && front[k] == kept[i];
        assert xs[k] == kept[i];
      }
    }
  }

  /** Sorting rearranges: every value keeps its multiplicity. */
  lemma {:induction false} InsertPermutes<T(!new)>(xs: seq<T>, x: T, before: (T, T) -> bool)
    ensures multiset(Insert(xs, x, before)) == multiset(xs) + multiset{x}
  {
    if |xs| > 0 && before(x, xs[|xs| - 1]) {
      InsertPermutes(xs[..|xs| - 1], x, before);
      assert xs == xs[..|xs| - 1] + [xs[|xs| - 1]];
    }
  }

  lemma {:induction false} SortPermutes<T(!new)>(xs: seq<T>, before: (T, T) -> bool)
    ensures multiset(Sort(xs, before)) == multiset(xs)
  {
    hide Insert;
    if |xs| > 0 {
      var front, last := xs[..|xs| - 1], xs[|xs| - 1];
      SortPermutes(front, before);
      InsertPermutes(Sort(front, before), last, before);
      assert xs == front + [last];
      assert Sort(xs, before) == Insert(Sort(front, before), last, before);
    }
  }

  lemma {:induction false} InsertDistinctBy<T(!new), K>(xs: seq<T>, x: T, before: (T, T) -> bool, key: T -> K)
    requires DistinctBy(xs, key) && forall y :: y in xs ==> key(y) != key(x)
    ensures DistinctBy(Insert(xs, x, before), key)
  {
    if |xs| > 0 && before(x, xs[|xs| - 1]) {
      var front, last := xs[..|xs| - 1], xs[|xs| - 1];
      InsertDistinctBy(front, x, before, key);
      var s := Insert(front, x, before);
      forall i | 0 <= i < |s| ensures key(s[i]) != key(last) {
        assert s[i] in s;
        if s[i] in front {
          var k: nat :| k < |front| && front[k] == s[i];
          assert xs[k] == s[i];
        }
      }
    } else {
      forall i | 0 <= i < |xs| ensures key(xs[i]) != key(x) { assert xs[i] in xs; }
    }
  }

  /** Sorting keeps distinct keys distinct. */
  lemma {:induction false} SortDistinctBy<T(!new), K>(xs: seq<T>, before: (T, T) -> bool, key: T -> K)
    requires DistinctBy(xs, key)
    ensures DistinctBy(Sort(xs, before), key)
  {
    if |xs| > 0 {
      var front, last := xs[..|xs| - 1], xs[|xs| - 1];
      SortDistinctBy(front, before, key);
      forall y | y in Sort(front, before) ensures key(y) != key(last) {
        var k: nat :| k < |front| && front[k] == y;
        assert xs[k] == y;
      }
      InsertDistinctBy(Sort(front, before), last, before, key);
    }
  }

  // --- Sets of dates kept as increasing lists ----------------------------------------------------

  /** Sorted insertion of a date that may already be present. */
  function InsertDate(dates: seq<int>, d: int): (r: seq<int>)
    requires forall i, j :: 0 <= i < j < |dates| ==> dates[i] < dates[j]
    ensures forall i, j :: 0 <= i < j < |r| ==> r[i] < r[j]
    ensures forall x :: x in r <==> x in dates || x == d
  {
    if |dates| == 0 then [d]
    else if d == dates[0] then dates
    else if d < dates[0] then [d] + dates
    else
      var rest := InsertDate(dates[1..], d);
      assert forall i :: 0 <= i < |rest| ==> rest[i] in rest;
      assert forall x :: x in dates[1..] ==> x > dates[0];
      [dates[0]] + rest
  }
}

/** Chronological ordering of cycle entries.

    Both the store and the accuracy evaluator order entries with the host's array sort
    and the comparator `a.lastPeriodStart - b.lastPeriodStart`. That sort is stable, so
    entries with the same start date keep their insertion order; `SortByDate` is the
    stable insertion sort that yields exactly that order. */
module EntryOrder {
  import opened Types

  ghost predicate SortedByDate(s: seq<CycleEntry>)
  {
    forall i, j :: 0 <= i < j < |s| ==> s[i].lastPeriodStart <= s[j].lastPeriodStart
  }

  ghost predicate Ascending(ds: seq<int>)
  {
    forall i, j :: 0 <= i < j < |ds| ==> ds[i] <= ds[j]
  }

  /** Places `e` after every entry of `sorted` whose date is not later than its own. */
  function InsertByDate(sorted: seq<CycleEntry>, e: CycleEntry): (r: seq<CycleEntry>)
    ensures multiset(r) == multiset(sorted) + multiset{e}
    ensures |r| == |sorted| + 1
  {
    if |sorted| == 0 || sorted[|sorted| - 1].lastPeriodStart <= e.lastPeriodStart then
      sorted + [e]
    else
      var init := sorted[..|sorted| - 1];
      assert sorted == init + [sorted[|sorted| - 1]];
      InsertByDate(init, e) + [sorted[|sorted| - 1]]
  }

  /** No entry of `s` starts after `bound`. */
  ghost predicate DatesAtMost(s: seq<CycleEntry>, bound: Day)
  {
    forall i :: 0 <= i < |s| ==> s[i].lastPeriodStart <= bound
  }

  lemma SortedPrefix(s: seq<CycleEntry>)
    requires |s| > 0 && SortedByDate(s)
    ensures SortedByDate(s[..|s| - 1])
    ensures DatesAtMost(s[..|s| - 1], s[|s| - 1].lastPeriodStart)
  {
  }

  lemma SortedAppend(s: seq<CycleEntry>, x: CycleEntry)
    requires SortedByDate(s) && DatesAtMost(s, x.lastPeriodStart)
    ensures SortedByDate(s + [x])
  {
  }

  /** Inserting an entry keeps every date within a bound that the entry also respects. */
  lemma {:induction false} InsertByDateAtMost(sorted: seq<CycleEntry>, e: CycleEntry, bound: Day)
    requires DatesAtMost(sorted, bound) && e.lastPeriodStart <= bound
    ensures DatesAtMost(InsertByDate(sorted, e), bound)
  {
    if !(|sorted| == 0 || sorted[|sorted| - 1].lastPeriodStart <= e.lastPeriodStart) {
      var init := sorted[..|sorted| - 1];
      assert DatesAtMost(init, bound);
      InsertByDateAtMost(init, e, bound);
    }
  }

  lemma {:induction false} InsertByDateSorted(sorted: seq<CycleEntry>, e: CycleEntry)
    requires SortedByDate(sorted)
    ensures SortedByDate(InsertByDate(sorted, e))
  {
    if |sorted| == 0 || sorted[|sorted| - 1].lastPeriodStart <= e.lastPeriodStart {
      SortedAppend(sorted, e);
    } else {
      var init := sorted[..|sorted| - 1];
      var last := sorted[|sorted| - 1];
      SortedPrefix(sorted);
      InsertByDateSorted(init, e);
      InsertByDateAtMost(init, e, last.lastPeriodStart);
      SortedAppend(InsertByDate(init, e), last);
    }
  }

  lemma MultisetAppendBoth(a: seq<int>, b: seq<int>, x: int, y: int)
    requires multiset(a) == multiset(b) + multiset{x}
    ensures multiset(a + [y]) == multiset(b + [y]) + multiset{x}
  {
    assert multiset(a + [y]) == multiset(a) + multiset{y};
    assert multiset(b + [y]) == multiset(b) + multiset{y};
  }

  lemma {:induction false} InsertByDateDates(sorted: seq<CycleEntry>, e: CycleEntry)
    ensures multiset(Dates(InsertByDate(sorted, e))) == multiset(Dates(sorted)) + multiset{e.lastPeriodStart}
  {
    if |sorted| == 0 || sorted[|sorted| - 1].lastPeriodStart <= e.lastPeriodStart {
      DatesAppend(sorted, e);
    } else {
      var init := sorted[..|sorted| - 1];
      var last := sorted[|sorted| - 1];
      var inserted := InsertByDate(init, e);
      InsertByDateDates(init, e);
      DatesAppend(inserted, last);
      assert Dates(sorted) == Dates(init) + [last.lastPeriodStart];
      MultisetAppendBoth(Dates(inserted), Dates(init), e.lastPeriodStart, last.lastPeriodStart);
    }
  }

  /** The stable sort of `s` by start date. */
  function SortByDate(s: seq<CycleEntry>): (r: seq<CycleEntry>)
    ensures SortedByDate(r)
    ensures multiset(r) == multiset(s)
    ensures multiset(Dates(r)) == multiset(Dates(s))
    ensures |r| == |s|
  {
    if |s| == 0 then []
    else
      var init := s[..|s| - 1];
      assert s == init + [s[|s| - 1]];
      assert Dates(s) == Dates(init) + [s[|s| - 1].lastPeriodStart];
      InsertByDateSorted(SortByDate(init), s[|s| - 1]);
      InsertByDateDates(SortByDate(init), s[|s| - 1]);
      InsertByDate(SortByDate(init), s[|s| - 1])
  }

  lemma SortedDatesAscending(s: seq<CycleEntry>)
    requires SortedByDate(s)
    ensures Ascending(Dates(s))
  {
  }

  /** A list that is already in date order is left as it is: the sort is stable. */
  lemma {:induction false} SortByDateOfSorted(s: seq<CycleEntry>)
    requires SortedByDate(s)
    ensures SortByDate(s) == s
  {
    if |s| > 0 {
      var init := s[..|s| - 1];
      SortedPrefix(s);
      SortByDateOfSorted(init);
      InitPlusLast(s);
      assert InsertByDate(init, s[|s| - 1]) == s;
    }
  }

  lemma AscendingTail(a: seq<int>)
    requires |a| > 0 && Ascending(a)
    ensures Ascending(a[1..])
    ensures forall x :: x in a ==> a[0] <= x
  {
  }

  lemma MultisetTail(a: seq<int>)
    requires |a| > 0
    ensures multiset(a[1..]) == multiset(a) - multiset{a[0]}
  {
    HeadPlusTail(a);
    assert multiset(a) == multiset{a[0]} + multiset(a[1..]);
  }

  lemma SameElements(a: seq<int>, b: seq<int>)
    requires multiset(a) == multiset(b)
    ensures |a| == |b|
    ensures forall x :: x in a <==> x in b
  {
    assert |a| == |multiset(a)|;
    forall x
      ensures x in a <==> x in b
    {
      assert x in a <==> x in multiset(a);
    }
  }

  /** Two ascending sequences with the same elements are the same sequence. */
  lemma {:induction false} AscendingUnique(a: seq<int>, b: seq<int>)
    requires Ascending(a) && Ascending(b)
    requires multiset(a) == multiset(b)
    ensures a == b
  {
    SameElements(a, b);
    if |a| > 0 {
      AscendingTail(a);
      AscendingTail(b);
      assert a[0] == b[0] by {
        assert a[0] in a && b[0] in b;
        assert a[0] in b && b[0] in a;
      }
      MultisetTail(a);
      MultisetTail(b);
      AscendingUnique(a[1..], b[1..]);
      HeadPlusTail(a);
      HeadPlusTail(b);
    }
  }

  /** The entries of `s` that start on day `d`, in their order in `s`. */
  function WithDate(s: seq<CycleEntry>, d: Day): (r: seq<CycleEntry>)
    ensures forall e :: multiset(r)[e] == if e.lastPeriodStart == d then multiset(s)[e] else 0
  {
    if |s| == 0 then []
    else
      InitPlusLast(s);
      var last := s[|s| - 1];
      WithDate(s[..|s| - 1], d) + (if last.lastPeriodStart == d then [last] else [])
  }

  lemma WithDateSnoc(s: seq<CycleEntry>, x: CycleEntry, d: Day)
    ensures WithDate(s + [x], d) == WithDate(s, d) + (if x.lastPeriodStart == d then [x] else [])
  {
    InitOfAppend(s, x);
  }

  /** Two appended pieces, one of them empty, may go in either order. */
  lemma SwapEmpty<T>(w: seq<T>, a: seq<T>, b: seq<T>)
    requires a == [] || b == []
    ensures (w + a) + b == (w + b) + a
  {
  }

  /** Insertion puts the new entry after every entry with the same date. */
  lemma {:induction false} InsertByDateWithDate(sorted: seq<CycleEntry>, e: CycleEntry, d: Day)
    ensures WithDate(InsertByDate(sorted, e), d) ==
      WithDate(sorted, d) + (if e.lastPeriodStart == d then [e] else [])
  {
    if |sorted| == 0 || sorted[|sorted| - 1].lastPeriodStart <= e.lastPeriodStart {
      WithDateSnoc(sorted, e, d);
    } else {
      var init, last := sorted[..|sorted| - 1], sorted[|sorted| - 1];
      var inserted := InsertByDate(init, e);
      assert InsertByDate(sorted, e) == inserted + [last];
      var tail: seq<CycleEntry> := if e.lastPeriodStart == d then [e] else [];
      var keep: seq<CycleEntry> := if last.lastPeriodStart == d then [last] else [];
      InsertByDateWithDate(init, e, d);
      WithDateSnoc(inserted, last, d);
      InitPlusLast(sorted);
      WithDateSnoc(init, last, d);
      // The last entry starts after e, so at most one of the two starts on d.
      SwapEmpty(WithDate(init, d), tail, keep);
    }
  }

  /** Stability: the entries that share a start date come out of the sort in the order
      they went in. */
  lemma {:induction false} SortByDateStable(s: seq<CycleEntry>, d: Day)
    ensures WithDate(SortByDate(s), d) == WithDate(s, d)
  {
    if |s| > 0 {
      var init := s[..|s| - 1];
      SortByDateStable(init, d);
      InsertByDateWithDate(SortByDate(init), s[|s| - 1], d);
    }
  }

  /** The sorted dates depend only on which dates occur, not on the order of entry. */
  lemma SortedDatesDependOnlyOnDates(e1: seq<CycleEntry>, e2: seq<CycleEntry>)
    requires multiset(Dates(e1)) == multiset(Dates(e2))
    ensures Dates(SortByDate(e1)) == Dates(SortByDate(e2))
  {
    SortedDatesAscending(SortByDate(e1));
    SortedDatesAscending(SortByDate(e2));
    AscendingUnique(Dates(SortByDate(e1)), Dates(SortByDate(e2)));
  }
}

/** The application shell: a small UI state with its reducer, and the handler that turns
    the selected date into a new cycle entry for the store. */
module App {
  import opened Types
  import opened EntryOrder
  import opened AppStore

  /** The selected date (if any) and whether the settings panel is open. */
  datatype UiState = UiState(selectedDate: Option<Day>, settingsOpen: bool)

  const InitialUiState: UiState := UiState(None, false)

  datatype UiAction =
    | SetSelectedDate(date: Option<Day>)
    | SetSettingsOpen(open: bool)

  /** Each action replaces the one field it names. */
  function UiReducer(state: UiState, action: UiAction): (next: UiState)
    ensures action.SetSelectedDate? ==>
      next.selectedDate == action.date && next.settingsOpen == state.settingsOpen
    ensures action.SetSettingsOpen? ==>
      next.settingsOpen == action.open && next.selectedDate == state.selectedDate
  {
    match action
    case SetSelectedDate(date) => state.(selectedDate := date)
    case SetSettingsOpen(open) => state.(settingsOpen := open)
  }

  /** Dispatching the same action twice is dispatching it once. */
  lemma UiReducerIdempotent(state: UiState, action: UiAction)
    ensures UiReducer(UiReducer(state, action), action) == UiReducer(state, action)
  {
  }

  /** Actions on different fields can be dispatched in either order. */
  lemma UiReducerFieldsCommute(state: UiState, date: Option<Day>, open: bool)
    ensures UiReducer(UiReducer(state, SetSelectedDate(date)), SetSettingsOpen(open)) ==
            UiReducer(UiReducer(state, SetSettingsOpen(open)), SetSelectedDate(date))
  {
  }

  /** The start date of the entry last in the list, if there is one. */
  function LastEntryStart(entries: seq<CycleEntry>): (d: Option<Day>)
    ensures d.None? <==> |entries| == 0
    ensures d.Some? ==> d.value == entries[|entries| - 1].lastPeriodStart
  {
    if |entries| == 0 then None else Some(entries[|entries| - 1].lastPeriodStart)
  }

  /** The latest start date of any entry, if there is one. */
  function LatestStart(entries: seq<CycleEntry>): (d: Option<Day>)
    ensures d.None? <==> |entries| == 0
    ensures d.Some? ==> exists i :: 0 <= i < |entries| && entries[i].lastPeriodStart == d.value
    ensures d.Some? ==> forall i :: 0 <= i < |entries| ==> entries[i].lastPeriodStart <= d.value
  {
    if |entries| == 0 then None
    else
      var last := entries[|entries| - 1].lastPeriodStart;
      var rest := LatestStart(entries[..|entries| - 1]);
      if rest.None? || rest.value <= last then Some(last) else rest
  }

  /** In a list sorted by date the last entry starts latest. */
  lemma SortedLastIsLatest(entries: seq<CycleEntry>)
    requires SortedByDate(entries)
    ensures LastEntryStart(entries) == LatestStart(entries)
  {
    if |entries| > 0 {
      var i :| 0 <= i < |entries| && entries[i].lastPeriodStart == LatestStart(entries).value;
      assert entries[i].lastPeriodStart <= entries[|entries| - 1].lastPeriodStart;
    }
  }

  /** The cycle length recorded with a new entry dated `selectedDate`, given the start of
      the entry it is measured from: the gap in days from it when that gap is a plausible
      cycle length, and the preferred default otherwise (also when there is no entry yet). */
  function ChooseCycleLength(lastStart: Option<Day>, selectedDate: Day, defaultLength: int): (len: int)
    ensures len == defaultLength || PlausibleGap(len)
    ensures lastStart.None? ==> len == defaultLength
    ensures lastStart.Some? && PlausibleGap(selectedDate - lastStart.value) ==>
      lastStart.value + len == selectedDate
    ensures lastStart.Some? && !PlausibleGap(selectedDate - lastStart.value) ==>
      len == defaultLength
  {
    if lastStart.None? then defaultLength
    else
      var gap := GapLength(lastStart.value, selectedDate);
      if |gap| == 1 then gap[0] else defaultLength
  }

  /** The last of an ascending sequence is the largest element of any sequence holding
      the same elements, and is one of them. */
  lemma AscendingLastIsMax(a: seq<int>, b: seq<int>)
    requires |a| > 0 && Ascending(a) && multiset(a) == multiset(b)
    ensures a[|a| - 1] in b
    ensures forall x :: x in b ==> x <= a[|a| - 1]
  {
    assert a[|a| - 1] in multiset(b);
    forall x | x in b
      ensures x <= a[|a| - 1]
    {
      assert x in multiset(a);
    }
  }

  /** The sorted dates of a history end with its latest date. */
  lemma LatestSortedDate(entries: seq<CycleEntry>)
    requires |entries| > 0
    ensures Dates(SortByDate(entries))[|entries| - 1] in Dates(entries)
    ensures forall x :: x in Dates(entries) ==> x <= Dates(SortByDate(entries))[|entries| - 1]
  {
    SortedDatesAscending(SortByDate(entries));
    AscendingLastIsMax(Dates(SortByDate(entries)), Dates(entries));
  }

  /** Sorting a history with one more entry inserts that entry into the sorted history. */
  lemma SortAppend(entries: seq<CycleEntry>, e: CycleEntry)
    ensures SortByDate(entries + [e]) == InsertByDate(SortByDate(entries), e)
  {
    InitOfAppend(entries, e);
  }

  /** An entry no earlier than the last sorted one goes at the end. */
  lemma InsertLatest(sorted: seq<CycleEntry>, e: CycleEntry)
    requires |sorted| > 0 && sorted[|sorted| - 1].lastPeriodStart <= e.lastPeriodStart
    ensures InsertByDate(sorted, e) == sorted + [e]
  {
  }

  /** A bound on every date of a history bounds its latest sorted entry. */
  lemma SortedLastBounded(entries: seq<CycleEntry>, bound: Day)
    requires |entries| > 0
    requires forall i :: 0 <= i < |entries| ==> entries[i].lastPeriodStart <= bound
    ensures Dates(SortByDate(entries))[|entries| - 1] <= bound
  {
    var ds := Dates(entries);
    LatestSortedDate(entries);
    var i :| 0 <= i < |ds| && ds[i] == Dates(SortByDate(entries))[|entries| - 1];
    assert ds[i] == entries[i].lastPeriodStart;
  }

  /** When entries arrive in date order, appending one puts it last in the sorted history. */
  lemma SortAppendLatest(entries: seq<CycleEntry>, e: CycleEntry)
    requires |entries| > 0
    requires forall i :: 0 <= i < |entries| ==> entries[i].lastPeriodStart <= e.lastPeriodStart
    ensures SortByDate(entries + [e]) == SortByDate(entries) + [e]
  {
    SortedLastBounded(entries, e.lastPeriodStart);
    assert Dates(SortByDate(entries))[|entries| - 1] == SortByDate(entries)[|entries| - 1].lastPeriodStart;
    InsertLatest(SortByDate(entries), e);
    SortAppend(entries, e);
  }

  /** The latest sorted date of a history whose last entry is also its latest one. */
  lemma LastSortedDate(entries: seq<CycleEntry>)
    requires |entries| > 0
    requires forall i :: 0 <= i < |entries| ==>
      entries[i].lastPeriodStart <= entries[|entries| - 1].lastPeriodStart
    ensures Dates(SortByDate(entries))[|entries| - 1] == entries[|entries| - 1].lastPeriodStart
  {
    var n := |entries|;
    SortedLastBounded(entries, entries[n - 1].lastPeriodStart);
    LatestSortedDate(entries);
    assert Dates(entries)[n - 1] in Dates(entries);
  }

  /** One more day adds at most the one gap it closes. */
  lemma PlausibleGapsAppend(ds: seq<Day>, d: Day)
    requires |ds| > 0
    ensures PlausibleGaps(ds + [d]) == PlausibleGaps(ds) + GapLength(ds[|ds| - 1], d)
  {
    var longer := ds + [d];
    InitOfAppend(ds, d);
    assert longer[|longer| - 2] == ds[|ds| - 1] && longer[|longer| - 1] == d;
  }

  /** For a non-empty history the derived lengths are the plausible gaps of its sorted
      dates; a single entry has none. */
  lemma CycleLengthsAsGaps(entries: seq<CycleEntry>)
    requires |entries| > 0
    ensures CycleLengths(entries) == PlausibleGaps(Dates(SortByDate(entries)))
  {
  }

  /** Adding an entry no earlier than any other appends its date to the sorted dates. */
  lemma SortedDatesAppendLatest(entries: seq<CycleEntry>, e: CycleEntry)
    requires |entries| > 0
    requires forall i :: 0 <= i < |entries| ==>
      entries[i].lastPeriodStart <= entries[|entries| - 1].lastPeriodStart
    requires entries[|entries| - 1].lastPeriodStart <= e.lastPeriodStart
    ensures Dates(SortByDate(entries + [e])) == Dates(SortByDate(entries)) + [e.lastPeriodStart]
    ensures Dates(SortByDate(entries))[|entries| - 1] == entries[|entries| - 1].lastPeriodStart
  {
    SortAppendLatest(entries, e);
    LastSortedDate(entries);
    DatesAppend(SortByDate(entries), e);
  }

  /** Adding an entry no earlier than the last one, which is also the latest, extends
      the derived lengths by the gap between the two when that gap is plausible. */
  lemma CycleLengthsAppendLatest(entries: seq<CycleEntry>, e: CycleEntry)
    requires |entries| > 0
    requires forall i :: 0 <= i < |entries| ==>
      entries[i].lastPeriodStart <= entries[|entries| - 1].lastPeriodStart
    requires entries[|entries| - 1].lastPeriodStart <= e.lastPeriodStart
    ensures CycleLengths(entries + [e]) ==
      CycleLengths(entries) + GapLength(entries[|entries| - 1].lastPeriodStart, e.lastPeriodStart)
  {
    SortedDatesAppendLatest(entries, e);
    CycleLengthsAsGaps(entries);
    CycleLengthsAsGaps(entries + [e]);
    PlausibleGapsAppend(Dates(SortByDate(entries)), e.lastPeriodStart);
  }

  /** When entries are added in date order, the length chosen for a new entry is exactly
      the length the store then derives for it: a plausible gap adds that gap to the
      history's lengths, any other gap adds nothing. */
  lemma ChosenLengthMatchesStore(entries: seq<CycleEntry>, e: CycleEntry, defaultLength: int)
    requires |entries| > 0
    requires forall i :: 0 <= i < |entries| ==>
      entries[i].lastPeriodStart <= entries[|entries| - 1].lastPeriodStart
    requires entries[|entries| - 1].lastPeriodStart <= e.lastPeriodStart
    ensures PlausibleGap(e.lastPeriodStart - entries[|entries| - 1].lastPeriodStart) ==>
      CycleLengths(entries + [e]) ==
        CycleLengths(entries) + [ChooseCycleLength(LastEntryStart(entries), e.lastPeriodStart, defaultLength)]
    ensures !PlausibleGap(e.lastPeriodStart - entries[|entries| - 1].lastPeriodStart) ==>
      CycleLengths(entries + [e]) == CycleLengths(entries)
  {
    CycleLengthsAppendLatest(entries, e);
  }

  /** The handler's choice of length: start from the default and take the gap from the
      entry last in the list instead when it lies in the plausible range. */
  method NewEntryCycleLength(entries: seq<CycleEntry>, selectedDate: Day, defaultLength: int)
    returns (cycleLength: int)
    ensures cycleLength == ChooseCycleLength(LastEntryStart(entries), selectedDate, defaultLength)
  {
    cycleLength := defaultLength;
    if |entries| > 0 {
      var lastEntry := entries[|entries| - 1];
      var daysDiff := selectedDate - lastEntry.lastPeriodStart;
      if daysDiff >= Prediction.MinCycleLength && daysDiff <= Prediction.MaxCycleLength {
        cycleLength := daysDiff;
      }
    }
  }

  /** What a render guarantees the handler: in the date-sorted list the entry last in
      the list is the latest one, and adding an entry no earlier than it extends the
      derived lengths by the gap between the two, when that gap is plausible. */
  lemma AddAfterRender(entries: seq<CycleEntry>, e: CycleEntry)
    requires SortedByDate(entries)
    ensures LastEntryStart(entries) == LatestStart(entries)
    ensures LatestStart(entries).Some? && LatestStart(entries).value <= e.lastPeriodStart ==>
      CycleLengths(entries + [e]) ==
        CycleLengths(entries) + GapLength(LatestStart(entries).value, e.lastPeriodStart)
  {
    SortedLastIsLatest(entries);
    if |entries| > 0 && entries[|entries| - 1].lastPeriodStart <= e.lastPeriodStart {
      CycleLengthsAppendLatest(entries, e);
    }
  }

  /** The application: its UI state and the store it drives. */
  class AppShell {
    var ui: UiState
    const store: Store

    ghost predicate Valid()
      reads this, store
    {
      store.Valid()
    }

    /** The state every render leaves behind: the analytics computed while rendering sort
        the store's entries by date in place, so the handler created by that render reads
        them in date order. */
    ghost predicate Rendered()
      reads store
    {
      SortedByDate(store.cycleHistory.entries)
    }

    constructor(store: Store)
      requires store.Valid()
      ensures Valid()
      ensures ui == InitialUiState && this.store == store
    {
      ui := InitialUiState;
      this.store := store;
    }

    /** One render of the application: it reads the analytics from the store, which
        sorts the stored entries by date as a side effect. */
    method Render() returns (analytics: AnalyticsData)
      requires Valid()
      modifies store`cycleHistory
      ensures Valid() && Rendered()
      ensures store.cycleHistory.entries == SortByDate(old(store.cycleHistory.entries))
      ensures analytics.historicalAccuracy == Prediction.HistoricalAccuracy(old(store.cycleHistory.entries))
    {
      analytics := store.GetAnalytics();
    }

    method Dispatch(action: UiAction)
      modifies this`ui
      ensures ui == UiReducer(old(ui), action)
    {
      ui := UiReducer(ui, action);
    }

    /** Records an entry for the selected date and clears the selection. Without a
        selected date nothing changes and `added` is false (the user is asked to pick a
        date). The entry's id and creation time are supplied by the caller. The handler
        runs after a render, so the entry it measures from is the latest-dated one; when
        the new date is not earlier than that, the store's lengths grow by exactly the gap
        the handler chose, if it is plausible. */
    method HandleAddCycleEntry(id: string, createdAt: Day) returns (added: bool)
      requires Valid() && Rendered()
      modifies this`ui, store`cycleHistory, store`currentPrediction
      ensures Valid()
      ensures added <==> old(ui.selectedDate).Some?
      ensures !added ==> ui == old(ui) && unchanged(store)
      ensures added ==>
        var date := old(ui.selectedDate).value;
        var length := ChooseCycleLength(LatestStart(old(store.cycleHistory.entries)), date,
                                        old(store.preferences.cycleLengthDefault));
        && store.cycleHistory.entries ==
             old(store.cycleHistory.entries) + [CycleEntry(id, date, length, None, createdAt)]
        && store.currentPrediction ==
             Some(Prediction.CalculatePrediction(date, store.cycleHistory, store.sqrt))
        && ui == old(ui).(selectedDate := None)
      ensures added && LatestStart(old(store.cycleHistory.entries)).Some? ==>
        var latest := LatestStart(old(store.cycleHistory.entries)).value;
        var date := old(ui.selectedDate).value;
        latest <= date ==>
          store.cycleHistory.cycleLengths == old(store.cycleHistory.cycleLengths) + GapLength(latest, date)
    {
      if ui.selectedDate.None? {
        return false;
      }
      var selectedDate := ui.selectedDate.value;
      var entries := store.cycleHistory.entries;
      var cycleLength := NewEntryCycleLength(entries, selectedDate, store.preferences.cycleLengthDefault);
      var newEntry := CycleEntry(id, selectedDate, cycleLength, None, createdAt);
      ghost var expected := entries + [newEntry];
      AddAfterRender(entries, newEntry);
      store.AddCycleEntry(newEntry);
      assert store.cycleHistory.entries == expected;
      Dispatch(SetSelectedDate(None));
      return true;
    }
  }
}

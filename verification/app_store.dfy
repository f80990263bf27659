/** The application store: the cycle history together with the gap list and rounded
    average derived from it, the current prediction, the user preferences and two
    display flags. Every action that replaces the entries recomputes the derived parts,
    which `Store.Valid` states as an invariant. */
module AppStore {
  import opened Types
  import opened EntryOrder
  import opened Prediction

  const DefaultPreferences: UserPreferences :=
    UserPreferences(false, DefaultCycleLength, Sunday, true, None, false)

  // ---------------------------------------------------------------------------
  // Cycle lengths derived from the entries

  /** A gap between consecutive starts that is counted as a cycle length. */
  predicate PlausibleGap(days: int)
  {
    MinCycleLength <= days <= MaxCycleLength
  }

  /** What the step from one start to the next adds to the lengths: the gap in days
      when it is plausible, nothing otherwise. */
  function GapLength(prev: Day, next: Day): (ls: seq<int>)
    ensures |ls| <= 1
    ensures |ls| == 1 <==> PlausibleGap(next - prev)
    ensures |ls| == 1 ==> prev + ls[0] == next
  {
    if PlausibleGap(next - prev) then [next - prev] else []
  }

  /** The gaps between consecutive days of `ds` that are plausible cycle lengths, in order. */
  function PlausibleGaps(ds: seq<Day>): (gs: seq<int>)
    ensures AllWithin(gs, MinCycleLength, MaxCycleLength)
    ensures |ds| < 2 ==> gs == []
    ensures |ds| >= 2 ==> |gs| <= |ds| - 1
  {
    if |ds| < 2 then []
    else PlausibleGaps(ds[..|ds| - 1]) + GapLength(ds[|ds| - 2], ds[|ds| - 1])
  }

  ghost predicate AllGapsPlausible(ds: seq<Day>)
  {
    forall i :: 0 <= i < |ds| - 1 ==> PlausibleGap(ds[i + 1] - ds[i])
  }

  /** Every derived length is the gap between two consecutive days. */
  lemma {:induction false} PlausibleGapsAreGaps(ds: seq<Day>)
    ensures forall k :: 0 <= k < |PlausibleGaps(ds)| ==>
      exists j :: 0 <= j < |ds| - 1 && PlausibleGaps(ds)[k] == ds[j + 1] - ds[j]
  {
    if |ds| >= 2 {
      var init := ds[..|ds| - 1];
      PlausibleGapsAreGaps(init);
      var days := ds[|ds| - 1] - ds[|ds| - 2];
      var gs := PlausibleGaps(ds);
      var g0 := PlausibleGaps(init);
      forall k | 0 <= k < |gs|
        ensures exists j :: 0 <= j < |ds| - 1 && gs[k] == ds[j + 1] - ds[j]
      {
        if k < |g0| {
          assert gs[k] == g0[k];
          var j :| 0 <= j < |init| - 1 && g0[k] == init[j + 1] - init[j];
          assert init[j + 1] == ds[j + 1] && init[j] == ds[j];
        } else {
          assert gs[k] == days;
          assert gs[k] == ds[(|ds| - 2) + 1] - ds[|ds| - 2];
        }
      }
    } else {
      assert |PlausibleGaps(ds)| == 0;
    }
  }

  /** When every gap is plausible, every gap is kept and the lengths add up to the span
      from the first day to the last. */
  lemma {:induction false} PlausibleGapsComplete(ds: seq<Day>)
    requires |ds| >= 1 && AllGapsPlausible(ds)
    ensures |PlausibleGaps(ds)| == |ds| - 1
    ensures Sum(PlausibleGaps(ds)) == ds[|ds| - 1] - ds[0]
  {
    if |ds| >= 2 {
      var init := ds[..|ds| - 1];
      AllGapsPlausiblePrefix(ds);
      PlausibleGapsComplete(init);
      var days := ds[|ds| - 1] - ds[|ds| - 2];
      assert PlausibleGap(ds[(|ds| - 2) + 1] - ds[|ds| - 2]);
      assert GapLength(ds[|ds| - 2], ds[|ds| - 1]) == [days];
      assert PlausibleGaps(ds) == PlausibleGaps(init) + GapLength(ds[|ds| - 2], ds[|ds| - 1]);
      SumSnoc(PlausibleGaps(init), days);
    }
  }

  lemma AllGapsPlausiblePrefix(ds: seq<Day>)
    requires |ds| >= 1 && AllGapsPlausible(ds)
    ensures AllGapsPlausible(ds[..|ds| - 1])
  {
    var init := ds[..|ds| - 1];
    forall i | 0 <= i < |init| - 1
      ensures PlausibleGap(init[i + 1] - init[i])
    {
      assert init[i + 1] == ds[i + 1] && init[i] == ds[i];
    }
  }

  /** The values of `gs` that are plausible cycle lengths, in order: each plausible
      value as often as it occurs, no other value. */
  function KeepPlausible(gs: seq<int>): (r: seq<int>)
    ensures forall x :: multiset(r)[x] == if PlausibleGap(x) then multiset(gs)[x] else 0
    ensures |r| <= |gs|
  {
    if |gs| == 0 then []
    else
      InitPlusLast(gs);
      var x := gs[|gs| - 1];
      KeepPlausible(gs[..|gs| - 1]) + (if PlausibleGap(x) then [x] else [])
  }

  /** The derived lengths are exactly the consecutive gaps with the implausible ones
      filtered out, in the same order. */
  lemma {:induction false} PlausibleGapsFilter(ds: seq<Day>)
    ensures PlausibleGaps(ds) == KeepPlausible(Gaps(ds))
  {
    if |ds| >= 2 {
      var init := ds[..|ds| - 1];
      PlausibleGapsFilter(init);
      var g := ds[|ds| - 1] - ds[|ds| - 2];
      assert Gaps(ds) == Gaps(init) + [g];
      InitOfAppend(Gaps(init), g);
    }
  }

  /** Every plausible gap between consecutive days is kept as a length. */
  lemma {:induction false} PlausibleGapsKeepEveryPlausible(ds: seq<Day>, j: int)
    requires 0 <= j < |ds| - 1 && PlausibleGap(ds[j + 1] - ds[j])
    ensures ds[j + 1] - ds[j] in PlausibleGaps(ds)
  {
    var init := ds[..|ds| - 1];
    if j == |ds| - 2 {
      assert PlausibleGaps(ds) == PlausibleGaps(init) + [ds[j + 1] - ds[j]];
    } else {
      assert init[j + 1] == ds[j + 1] && init[j] == ds[j];
      PlausibleGapsKeepEveryPlausible(init, j);
    }
  }

  /** The cycle lengths of a history: the plausible gaps between consecutive start
      dates once the entries are put in date order. */
  function CycleLengths(entries: seq<CycleEntry>): (ls: seq<int>)
    ensures AllWithin(ls, MinCycleLength, MaxCycleLength)
    ensures |entries| < 2 ==> ls == []
    ensures |entries| >= 2 ==> |ls| <= |entries| - 1
  {
    if |entries| < 2 then [] else PlausibleGaps(Dates(SortByDate(entries)))
  }

  /** The lengths of a history are the gaps between its date-sorted start dates, with
      the implausible ones filtered out. */
  lemma CycleLengthsFilter(entries: seq<CycleEntry>)
    requires |entries| >= 2
    ensures CycleLengths(entries) == KeepPlausible(Gaps(Dates(SortByDate(entries))))
  {
    PlausibleGapsFilter(Dates(SortByDate(entries)));
  }

  /** The lengths depend only on which start dates occur, not on the order of entry. */
  lemma CycleLengthsOrderIndependent(e1: seq<CycleEntry>, e2: seq<CycleEntry>)
    requires multiset(Dates(e1)) == multiset(Dates(e2))
    ensures CycleLengths(e1) == CycleLengths(e2)
  {
    assert |e1| == |multiset(Dates(e1))| == |multiset(Dates(e2))| == |e2|;
    SortedDatesDependOnlyOnDates(e1, e2);
  }

  /** Regular records: when every gap between consecutive start dates is plausible,
      there is one length per gap and their total is the span of the history. */
  lemma CycleLengthsOfRegularHistory(entries: seq<CycleEntry>)
    requires |entries| >= 2
    requires AllGapsPlausible(Dates(SortByDate(entries)))
    ensures |CycleLengths(entries)| == |entries| - 1
    ensures Sum(CycleLengths(entries)) ==
      SortByDate(entries)[|entries| - 1].lastPeriodStart - SortByDate(entries)[0].lastPeriodStart
  {
    PlausibleGapsComplete(Dates(SortByDate(entries)));
  }

  /** Extending a prefix of `ds` by one day adds that day's gap, if plausible. */
  lemma PlausibleGapsStep(ds: seq<Day>, i: nat)
    requires i + 1 < |ds|
    ensures PlausibleGaps(ds[..i + 2]) == PlausibleGaps(ds[..i + 1]) + GapLength(ds[i], ds[i + 1])
  {
    PrefixOfPrefix(ds, i + 1, i + 2);
  }

  /** The loop over consecutive entries, already in date order, that keeps each
      plausible gap. */
  method CollectPlausibleGaps(sorted: seq<CycleEntry>) returns (lengths: seq<int>)
    requires |sorted| >= 1
    ensures lengths == PlausibleGaps(Dates(sorted))
  {
    ghost var ds := Dates(sorted);
    lengths := [];
    var i := 0;
    while i < |sorted| - 1
      invariant 0 <= i <= |sorted| - 1
      invariant lengths == PlausibleGaps(ds[..i + 1])
    {
      var days := sorted[i + 1].lastPeriodStart - sorted[i].lastPeriodStart;
      PlausibleGapsStep(ds, i);
      if days >= MinCycleLength && days <= MaxCycleLength {
        lengths := lengths + [days];
      }
      i := i + 1;
    }
    assert ds[..i + 1] == ds;
  }

  /** The cycle lengths as the store computes them: sort a copy, then collect. */
  method ComputeCycleLengths(entries: seq<CycleEntry>) returns (lengths: seq<int>)
    ensures lengths == CycleLengths(entries)
  {
    if |entries| < 2 {
      return [];
    }
    var sorted := SortByDate(entries);
    lengths := CollectPlausibleGaps(sorted);
  }

  // ---------------------------------------------------------------------------
  // The rounded average and the derived history

  /** The rounded mean of the lengths; 28 when there are none. */
  function AverageCycleLength(lengths: seq<int>): (avg: int)
    ensures |lengths| == 0 ==> avg == DefaultCycleLength
    ensures |lengths| > 0 ==> avg as real - 0.5 <= Mean(lengths) < avg as real + 0.5
  {
    if |lengths| > 0 then Round(Mean(lengths)) else DefaultCycleLength
  }

  /** Lengths in [21, 35] have a rounded average in [21, 35]. */
  lemma AverageCycleLengthWithin(lengths: seq<int>)
    requires AllWithin(lengths, MinCycleLength, MaxCycleLength)
    ensures MinCycleLength <= AverageCycleLength(lengths) <= MaxCycleLength
  {
    if |lengths| > 0 {
      MeanWithin(lengths, MinCycleLength, MaxCycleLength);
      RoundWithin(Mean(lengths), MinCycleLength, MaxCycleLength);
    }
  }

  /** Lengths in [21, 35] have a positive total, so the confidence divides by a positive
      mean and is defined. */
  lemma PlausibleLengthsConfidenceDefined(lengths: seq<int>)
    requires AllWithin(lengths, MinCycleLength, MaxCycleLength)
    ensures |lengths| > 0 ==> Sum(lengths) > 0
    ensures ConfidenceDefined(lengths)
  {
    SumWithin(lengths, MinCycleLength, MaxCycleLength);
  }

  /** The history the store keeps for a list of entries. */
  function HistoryOf(entries: seq<CycleEntry>): (h: CycleHistory)
    ensures h.entries == entries
    ensures AllWithin(h.cycleLengths, MinCycleLength, MaxCycleLength)
    ensures MinCycleLength <= h.averageCycleLength <= MaxCycleLength
    ensures ConfidenceDefined(h.cycleLengths)
  {
    var lengths := CycleLengths(entries);
    AverageCycleLengthWithin(lengths);
    PlausibleLengthsConfidenceDefined(lengths);
    CycleHistory(entries, AverageCycleLength(lengths), lengths)
  }

  /** Rebuilds the history for `entries` the way the store's actions do: derive the
      lengths, then average them. */
  method RecomputeHistory(entries: seq<CycleEntry>) returns (h: CycleHistory)
    ensures h == HistoryOf(entries)
  {
    var lengths := ComputeCycleLengths(entries);
    h := CycleHistory(entries, AverageCycleLength(lengths), lengths);
  }

  /** A history whose lengths and average are the ones its entries give. */
  ghost predicate Derived(h: CycleHistory)
  {
    h == HistoryOf(h.entries)
  }

  /** Sorting the entries of a derived history by date keeps it derived: its lengths and
      average stay the same. */
  lemma SortedDerived(h: CycleHistory)
    requires Derived(h)
    ensures Derived(h.(entries := SortByDate(h.entries)))
  {
    CycleLengthsOrderIndependent(h.entries, SortByDate(h.entries));
  }

  // ---------------------------------------------------------------------------
  // Deleting by id

  /** The entries whose id differs from `id`, in their original order. */
  function RemoveById(entries: seq<CycleEntry>, id: string): (r: seq<CycleEntry>)
    ensures forall e :: e in r <==> e in entries && e.id != id
    ensures forall e :: multiset(r)[e] == if e.id != id then multiset(entries)[e] else 0
    ensures |r| <= |entries|
  {
    if |entries| == 0 then []
    else
      var last := entries[|entries| - 1];
      InitPlusLast(entries);
      RemoveById(entries[..|entries| - 1], id) + (if last.id != id then [last] else [])
  }

  /** Deleting from a list with one more entry keeps that entry last, unless it has the id. */
  lemma RemoveByIdSnoc(s: seq<CycleEntry>, x: CycleEntry, id: string)
    ensures RemoveById(s + [x], id) == RemoveById(s, id) + (if x.id != id then [x] else [])
  {
    InitOfAppend(s, x);
  }

  /** Deleting from a concatenation deletes from each part and keeps the parts in
      order; with `RemoveById` of a one-entry list this says the kept entries stay in
      their original order. */
  lemma {:induction false} RemoveByIdAppend(a: seq<CycleEntry>, b: seq<CycleEntry>, id: string)
    ensures RemoveById(a + b, id) == RemoveById(a, id) + RemoveById(b, id)
  {
    if |b| > 0 {
      var init, last := b[..|b| - 1], b[|b| - 1];
      var keep := if last.id != id then [last] else [];
      InitPlusLast(b);
      assert a + b == (a + init) + [last];
      RemoveByIdSnoc(a + init, last, id);
      RemoveByIdSnoc(init, last, id);
      RemoveByIdAppend(a, init, id);
      var ra, ri := RemoveById(a, id), RemoveById(init, id);
      assert RemoveById(a + b, id) == (ra + ri) + keep;
      assert RemoveById(b, id) == ri + keep;
      AppendAssoc(ra, ri, keep);
    } else {
      assert a + b == a;
    }
  }

  /** Deleting an id that no entry carries leaves the entries as they are. */
  lemma {:induction false} RemoveAbsentId(entries: seq<CycleEntry>, id: string)
    requires forall e :: e in entries ==> e.id != id
    ensures RemoveById(entries, id) == entries
  {
    if |entries| > 0 {
      var init := entries[..|entries| - 1];
      assert entries == init + [entries[|entries| - 1]];
      RemoveAbsentId(init, id);
    }
  }

  /** Deleting twice is deleting once. */
  lemma RemoveByIdIdempotent(entries: seq<CycleEntry>, id: string)
    ensures RemoveById(RemoveById(entries, id), id) == RemoveById(entries, id)
  {
    RemoveAbsentId(RemoveById(entries, id), id);
  }

  /** Deleting the id of an entry just appended, when no earlier entry had that id,
      gives back the entries from before the append. */
  lemma RemoveUndoesAppend(entries: seq<CycleEntry>, entry: CycleEntry)
    requires forall e :: e in entries ==> e.id != entry.id
    ensures RemoveById(entries + [entry], entry.id) == entries
  {
    assert (entries + [entry])[..|entries|] == entries;
    RemoveAbsentId(entries, entry.id);
  }

  // ---------------------------------------------------------------------------
  // Preferences

  /** The patch that names no key. */
  const EmptyPatch: PreferencesPatch := PreferencesPatch(None, None, None, None, None, None)

  function Pick<T>(patched: Option<T>, current: T): T
  {
    if patched.Some? then patched.value else current
  }

  /** The object spread `{...preferences, ...patch}`: every key the patch names takes
      the patch's value, every other key keeps its value. */
  function MergePreferences(p: UserPreferences, patch: PreferencesPatch): (r: UserPreferences)
    ensures patch == EmptyPatch ==> r == p
  {
    UserPreferences(
      Pick(patch.darkMode, p.darkMode),
      Pick(patch.cycleLengthDefault, p.cycleLengthDefault),
      Pick(patch.cycleStartDay, p.cycleStartDay),
      Pick(patch.notificationsEnabled, p.notificationsEnabled),
      Pick(patch.privacyPin, p.privacyPin),
      Pick(patch.pinLockEnabled, p.pinLockEnabled))
  }

  /** The patch that applies `first` and then `second`: the later patch wins. */
  function ThenPatch(first: PreferencesPatch, second: PreferencesPatch): PreferencesPatch
  {
    PreferencesPatch(
      if second.darkMode.Some? then second.darkMode else first.darkMode,
      if second.cycleLengthDefault.Some? then second.cycleLengthDefault else first.cycleLengthDefault,
      if second.cycleStartDay.Some? then second.cycleStartDay else first.cycleStartDay,
      if second.notificationsEnabled.Some? then second.notificationsEnabled else first.notificationsEnabled,
      if second.privacyPin.Some? then second.privacyPin else first.privacyPin,
      if second.pinLockEnabled.Some? then second.pinLockEnabled else first.pinLockEnabled)
  }

  /** Merging twice with the same patch is merging once. */
  lemma MergePreferencesIdempotent(p: UserPreferences, patch: PreferencesPatch)
    ensures MergePreferences(MergePreferences(p, patch), patch) == MergePreferences(p, patch)
  {
  }

  /** Two successive merges are one merge with the combined patch. */
  lemma MergePreferencesThen(p: UserPreferences, first: PreferencesPatch, second: PreferencesPatch)
    ensures MergePreferences(MergePreferences(p, first), second) ==
      MergePreferences(p, ThenPatch(first, second))
  {
  }

  /** A patch naming only the dark-mode key. */
  function DarkModePatch(enabled: bool): (patch: PreferencesPatch)
    ensures forall p :: MergePreferences(p, patch) == p.(darkMode := enabled)
  {
    EmptyPatch.(darkMode := Some(enabled))
  }

  // ---------------------------------------------------------------------------
  // The store

  class Store {
    var cycleHistory: CycleHistory
    var currentPrediction: Option<PredictionResult>
    var preferences: UserPreferences
    var isPinLocked: bool
    var darkMode: bool
    /** The square root the prediction engine uses. */
    const sqrt: RootFn

    /** The derived parts of the history are those of its entries. */
    ghost predicate Valid()
      reads this
    {
      Derived(cycleHistory)
    }

    constructor(sqrt: RootFn)
      ensures Valid()
      ensures cycleHistory == CycleHistory([], DefaultCycleLength, [])
      ensures currentPrediction == None
      ensures preferences == DefaultPreferences
      ensures !isPinLocked && !darkMode
      ensures this.sqrt == sqrt
    {
      cycleHistory := CycleHistory([], DefaultCycleLength, []);
      currentPrediction := None;
      preferences := DefaultPreferences;
      isPinLocked := false;
      darkMode := false;
      this.sqrt := sqrt;
    }

    /** Recomputes the prediction from `lastPeriodStart` and the current history. */
    method GeneratePrediction(lastPeriodStart: Day)
      requires Valid()
      modifies this`currentPrediction
      ensures Valid()
      ensures currentPrediction == Some(CalculatePrediction(lastPeriodStart, cycleHistory, sqrt))
    {
      currentPrediction := Some(CalculatePrediction(lastPeriodStart, cycleHistory, sqrt));
    }

    /** Appends an entry, rederives lengths and average, then predicts from the new
        entry's start date. */
    method AddCycleEntry(entry: CycleEntry)
      requires Valid()
      modifies this`cycleHistory, this`currentPrediction
      ensures Valid()
      ensures cycleHistory.entries == old(cycleHistory.entries) + [entry]
      ensures currentPrediction == Some(CalculatePrediction(entry.lastPeriodStart, cycleHistory, sqrt))
    {
      var newEntries := cycleHistory.entries + [entry];
      cycleHistory := RecomputeHistory(newEntries);
      GeneratePrediction(entry.lastPeriodStart);
    }

    /** Drops every entry with the given id and rederives lengths and average; the
        current prediction is kept as it was. */
    method DeleteCycleEntry(id: string)
      requires Valid()
      modifies this`cycleHistory
      ensures Valid()
      ensures cycleHistory.entries == RemoveById(old(cycleHistory.entries), id)
    {
      var newEntries := RemoveById(cycleHistory.entries, id);
      cycleHistory := RecomputeHistory(newEntries);
    }

    method UpdatePreferences(patch: PreferencesPatch)
      modifies this`preferences
      ensures preferences == MergePreferences(old(preferences), patch)
    {
      preferences := MergePreferences(preferences, patch);
    }

    method SetPinLocked(locked: bool)
      modifies this`isPinLocked
      ensures isPinLocked == locked
    {
      isPinLocked := locked;
    }

    /** Sets the display flag and the stored preference to the same value. */
    method SetDarkMode(enabled: bool)
      modifies this`darkMode, this`preferences
      ensures darkMode == enabled
      ensures preferences == old(preferences).(darkMode := enabled)
    {
      darkMode := enabled;
      UpdatePreferences(DarkModePatch(enabled));
    }

    /** Summary statistics of the history. Scoring the accuracy sorts the stored
        entries in place, so afterwards they are in date order; the derived lengths
        and average do not change, since they depend only on the dates. */
    method GetAnalytics() returns (a: AnalyticsData)
      requires Valid()
      modifies this`cycleHistory
      ensures Valid()
      ensures cycleHistory.entries == SortByDate(old(cycleHistory.entries))
      ensures cycleHistory.cycleLengths == old(cycleHistory.cycleLengths)
      ensures cycleHistory.averageCycleLength == old(cycleHistory.averageCycleLength)
      ensures a.averageCycleLength == CycleVariance(old(cycleHistory.cycleLengths), sqrt).average
      ensures a.cycleLengthVariance == CycleVariance(old(cycleHistory.cycleLengths), sqrt).variance
      ensures a.ovulationVariance == CycleVariance(old(cycleHistory.cycleLengths), sqrt).stdDev
      ensures |old(cycleHistory.cycleLengths)| == 0 ==> a.mostCommonLength == DefaultCycleLength
      ensures |old(cycleHistory.cycleLengths)| > 0 ==> IsFirstMode(old(cycleHistory.cycleLengths), a.mostCommonLength)
      ensures a.predictablityScore == Confidence(old(cycleHistory), sqrt) * 100.0
      ensures 30.0 <= a.predictablityScore <= 100.0
      ensures a.periodDuration == PeriodDuration
      ensures a.historicalAccuracy == HistoricalAccuracy(old(cycleHistory.entries))
      ensures 0.0 <= a.historicalAccuracy <= 100.0
    {
      var stats := CycleVariance(cycleHistory.cycleLengths, sqrt);
      var mostCommon := GetMostCommonCycleLength(cycleHistory.cycleLengths);
      var predictability := Confidence(cycleHistory, sqrt);
      var entries := cycleHistory.entries;
      var buffer := new CycleEntry[|entries|](i requires 0 <= i < |entries| => entries[i]);
      assert buffer[..] == entries;
      var accuracy := CalculateHistoricalAccuracy(buffer);
      SortedDerived(cycleHistory);
      cycleHistory := cycleHistory.(entries := buffer[..]);
      a := AnalyticsData(stats.average, stats.variance, mostCommon, predictability * 100.0,
                         PeriodDuration, stats.stdDev, accuracy);
    }
  }

  /** Adding an entry with a fresh id and deleting that id again restores the history. */
  lemma DeleteUndoesAdd(entries: seq<CycleEntry>, entry: CycleEntry)
    requires forall e :: e in entries ==> e.id != entry.id
    ensures HistoryOf(RemoveById(entries + [entry], entry.id)) == HistoryOf(entries)
  {
    RemoveUndoesAppend(entries, entry);
  }
}

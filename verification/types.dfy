/** The value types shared by the prediction engine, the store and the hooks.

    Calendar dates are whole-day numbers (day 0 is any fixed epoch); adding days to a
    date is `+`, and the difference in days between two dates is `-`. Timestamps that
    carry time of day (creation times) are plain integers as well. */
module Types {

  datatype Option<+T> = None | Some(value: T)

  /** A calendar date as a day number. */
  type Day = int

  /** One recorded cycle start. `cycleLength` is the length chosen when the entry was
      created; `notes` is the optional free text. */
  datatype CycleEntry = CycleEntry(
    id: string,
    lastPeriodStart: Day,
    cycleLength: int,
    notes: Option<string>,
    createdAt: int)

  /** The history aggregate: the entries in insertion order, the rounded mean of the
      derived gaps, and the derived gaps themselves. */
  datatype CycleHistory = CycleHistory(
    entries: seq<CycleEntry>,
    averageCycleLength: int,
    cycleLengths: seq<int>)

  /** Five projected dates and a confidence score. */
  datatype PredictionResult = PredictionResult(
    nextPeriodStart: Day,
    nextPeriodEnd: Day,
    ovulationDate: Day,
    fertileWindowStart: Day,
    fertileWindowEnd: Day,
    confidence: real)

  datatype CycleStartDay = Sunday | Monday

  datatype UserPreferences = UserPreferences(
    darkMode: bool,
    cycleLengthDefault: int,
    cycleStartDay: CycleStartDay,
    notificationsEnabled: bool,
    privacyPin: Option<string>,
    pinLockEnabled: bool)

  /** A partial preferences object: `None` is a key that is absent. For `privacyPin` a
      key that is present may carry `undefined`, which is `Some(None)`. */
  datatype PreferencesPatch = PreferencesPatch(
    darkMode: Option<bool>,
    cycleLengthDefault: Option<int>,
    cycleStartDay: Option<CycleStartDay>,
    notificationsEnabled: Option<bool>,
    privacyPin: Option<Option<string>>,
    pinLockEnabled: Option<bool>)

  /** The field is spelled `predictablityScore` in the application. */
  datatype AnalyticsData = AnalyticsData(
    averageCycleLength: real,
    cycleLengthVariance: real,
    mostCommonLength: int,
    predictablityScore: real,
    periodDuration: int,
    ovulationVariance: real,
    historicalAccuracy: real)

  /** The square root used for standard deviations, passed in by the caller. The model
      only relies on it being non-negative and being zero exactly at zero. */
  type RootFn = f: real -> real | forall x :: 0.0 <= x ==> 0.0 <= f(x) && (f(x) == 0.0 <==> x == 0.0)
    witness (x: real) => x

  function Dates(entries: seq<CycleEntry>): (ds: seq<Day>)
    ensures |ds| == |entries|
    ensures forall i :: 0 <= i < |entries| ==> ds[i] == entries[i].lastPeriodStart
  {
    if |entries| == 0 then [] else Dates(entries[..|entries| - 1]) + [entries[|entries| - 1].lastPeriodStart]
  }

  // Sums and gaps

  function Sum(s: seq<int>): int
  {
    if |s| == 0 then 0 else Sum(s[..|s| - 1]) + s[|s| - 1]
  }

  lemma SumSnoc(s: seq<int>, x: int)
    ensures Sum(s + [x]) == Sum(s) + x
  {
    InitOfAppend(s, x);
  }

  ghost predicate AllWithin(s: seq<int>, lo: int, hi: int)
  {
    forall i :: 0 <= i < |s| ==> lo <= s[i] <= hi
  }

  /** Values that all lie in [lo, hi] have a sum between lo·n and hi·n. */
  lemma {:induction false} SumWithin(s: seq<int>, lo: int, hi: int)
    requires AllWithin(s, lo, hi)
    ensures lo * |s| <= Sum(s) <= hi * |s|
  {
    if |s| > 0 {
      SumWithin(s[..|s| - 1], lo, hi);
    }
  }

  /** The differences between consecutive days of `ds`, in list order. */
  function Gaps(ds: seq<Day>): (gs: seq<int>)
    ensures |ds| >= 1 ==> |gs| == |ds| - 1
    ensures |ds| == 0 ==> gs == []
    ensures forall i :: 0 <= i < |gs| ==> gs[i] == ds[i + 1] - ds[i]
  {
    if |ds| < 2 then [] else Gaps(ds[..|ds| - 1]) + [ds[|ds| - 1] - ds[|ds| - 2]]
  }

  // Slicing facts, stated once so that proofs about longer sequences can cite them.

  lemma PrefixOfPrefix<T>(s: seq<T>, m: nat, n: nat)
    requires m <= n <= |s|
    ensures s[..n][..m] == s[..m]
  {
  }

  lemma InitOfAppend<T>(s: seq<T>, x: T)
    ensures (s + [x])[..|s|] == s
  {
  }

  lemma FullPrefix<T>(s: seq<T>)
    ensures s[..|s|] == s
  {
  }

  lemma InitPlusLast<T>(s: seq<T>)
    requires |s| > 0
    ensures s[..|s| - 1] + [s[|s| - 1]] == s
  {
  }

  lemma AppendAssoc<T>(x: seq<T>, y: seq<T>, z: seq<T>)
    ensures (x + y) + z == x + (y + z)
  {
  }

  lemma HeadPlusTail<T>(s: seq<T>)
    requires |s| > 0
    ensures [s[0]] + s[1..] == s
  {
  }

  /** The dates of a list with one more entry end with that entry's date. */
  lemma DatesAppend(entries: seq<CycleEntry>, e: CycleEntry)
    ensures Dates(entries + [e]) == Dates(entries) + [e.lastPeriodStart]
  {
    InitOfAppend(entries, e);
  }
}

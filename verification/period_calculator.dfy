/** The Android cycle calculator: a current cycle (start date and length) with
    next-period and fertile-window projections, statistics over a list of start dates,
    and calendar helpers. Dates are day numbers; "today" is supplied by the caller. */
module PeriodCalc {
  import opened Types

  const DefaultCycleLength: int := 28
  /** The fertile window runs from day 12 to day 16 after a cycle start. */
  const FertileWindowStart: int := 12
  const FertileWindowEnd: int := 16

  /** The years a calendar date may carry. */
  const MinYear: int := -999999999
  const MaxYear: int := 999999999

  // ---------------------------------------------------------------------------
  // Date ranges

  /** A closed range of days. */
  datatype DateRange = DateRange(startDate: Day, endDate: Day)
  {
    /** Neither before the start nor after the end: both ends are included. */
    function ContainsDate(date: Day): (r: bool)
      ensures r <==> startDate <= date <= endDate
    {
      !(date < startDate) && !(date > endDate)
    }
  }

  /** `d` lies in the closed interval from `lo` to `hi`; named so that the comprehension
      in `DaysIn` has a term to trigger on. */
  predicate Between(lo: Day, d: Day, hi: Day)
  {
    lo <= d <= hi
  }

  /** The days in a range, as a set: the closed interval from its start to its end. */
  ghost function DaysIn(r: DateRange): set<Day>
  {
    set d {:trigger Between(r.startDate, d, r.endDate)} | r.startDate <= d <= r.endDate
  }

  lemma ContainsDateIffMember(r: DateRange, date: Day)
    ensures r.ContainsDate(date) <==> date in DaysIn(r)
  {
  }

  // ---------------------------------------------------------------------------
  // The calculator

  /** A stored cycle length: non-positive values are replaced by the default. */
  function SanitizedLength(cycleLength: int): (len: int)
    ensures len > 0
    ensures cycleLength > 0 ==> len == cycleLength
    ensures cycleLength <= 0 ==> len == DefaultCycleLength
  {
    if cycleLength > 0 then cycleLength else DefaultCycleLength
  }

  class PeriodCalculator {
    var lastPeriodStart: Option<Day>
    var cycleLength: int

    /** The stored length is always positive. */
    ghost predicate Valid()
      reads this
    {
      cycleLength > 0
    }

    constructor(lastPeriodStart: Option<Day>, cycleLength: int)
      ensures Valid()
      ensures this.lastPeriodStart == lastPeriodStart
      ensures this.cycleLength == SanitizedLength(cycleLength)
    {
      this.lastPeriodStart := lastPeriodStart;
      this.cycleLength := if cycleLength > 0 then cycleLength else DefaultCycleLength;
    }

    method SetLastPeriodStart(lastPeriodStart: Option<Day>)
      requires Valid()
      modifies this
      ensures Valid()
      ensures this.lastPeriodStart == lastPeriodStart && cycleLength == old(cycleLength)
    {
      this.lastPeriodStart := lastPeriodStart;
    }

    method SetCycleLength(cycleLength: int)
      modifies this
      ensures Valid()
      ensures this.cycleLength == SanitizedLength(cycleLength)
      ensures lastPeriodStart == old(lastPeriodStart)
    {
      this.cycleLength := if cycleLength > 0 then cycleLength else DefaultCycleLength;
    }

    /** The start of the next cycle, one cycle length after the last start. */
    function GetNextPeriodDate(): (next: Option<Day>)
      reads this
      requires Valid()
      ensures next.None? <==> lastPeriodStart.None?
      ensures next.Some? ==> next.value - lastPeriodStart.value == cycleLength
      ensures next.Some? ==> next.value > lastPeriodStart.value
    {
      if lastPeriodStart.None? then None else Some(lastPeriodStart.value + cycleLength)
    }

    /** Days 12 to 16 after the last start, whatever the cycle length. */
    function GetFertileWindow(): (window: Option<DateRange>)
      reads this
      ensures window.None? <==> lastPeriodStart.None?
      ensures window.Some? ==> window.value.startDate - lastPeriodStart.value == FertileWindowStart
      ensures window.Some? ==> window.value.endDate - lastPeriodStart.value == FertileWindowEnd
    {
      if lastPeriodStart.None? then None
      else
        var fertileStart := lastPeriodStart.value + FertileWindowStart;
        var fertileEnd := lastPeriodStart.value + FertileWindowEnd;
        Some(DateRange(fertileStart, fertileEnd))
    }

    /** The fertile window of the cycle `cycleCount` cycles after the current one. */
    function GetFertileWindowForCycle(cycleCount: int): (window: Option<DateRange>)
      reads this
      ensures window.None? <==> lastPeriodStart.None?
      ensures window.Some? ==>
        window.value.startDate == lastPeriodStart.value + cycleLength * cycleCount + FertileWindowStart
      ensures window.Some? ==>
        window.value.endDate == lastPeriodStart.value + cycleLength * cycleCount + FertileWindowEnd
    {
      if lastPeriodStart.None? then None
      else
        var cycleStart := lastPeriodStart.value + cycleLength * cycleCount;
        var fertileStart := cycleStart + FertileWindowStart;
        var fertileEnd := cycleStart + FertileWindowEnd;
        Some(DateRange(fertileStart, fertileEnd))
    }

    /** Days from `today` to the next period; -1 when no start date is set. */
    function GetDaysUntilNextPeriod(today: Day): (days: int)
      reads this
      requires Valid()
      ensures lastPeriodStart.None? ==> days == -1
      ensures lastPeriodStart.Some? ==> today + days == GetNextPeriodDate().value
    {
      var nextPeriod := GetNextPeriodDate();
      if nextPeriod.None? then -1 else nextPeriod.value - today
    }

    /** Days from `today` to the start of the fertile window; -1 when no start date is set. */
    function GetDaysUntilFertileWindow(today: Day): (days: int)
      reads this
      ensures lastPeriodStart.None? ==> days == -1
      ensures lastPeriodStart.Some? ==> today + days == GetFertileWindow().value.startDate
    {
      var fertile := GetFertileWindow();
      if fertile.None? then -1 else fertile.value.startDate - today
    }

    /** Whether `today` lies in the current fertile window, ends included. */
    function IsTodayInFertileWindow(today: Day): (b: bool)
      reads this
      ensures b <==> GetFertileWindow().Some? && GetFertileWindow().value.ContainsDate(today)
    {
      var fertile := GetFertileWindow();
      if fertile.None? then false
      else !(today < fertile.value.startDate) && !(today > fertile.value.endDate)
    }
  }

  /** Starting from `d`, the next-period date taken `k` times. */
  function NextPeriodAfter(d: Day, cycleLength: int, k: nat): Day
  {
    if k == 0 then d else NextPeriodAfter(d, cycleLength, k - 1) + cycleLength
  }

  /** Taking the next-period date `k` times moves `k` whole cycles forward. */
  lemma {:induction false} NextPeriodAfterIsLinear(d: Day, cycleLength: int, k: nat)
    ensures NextPeriodAfter(d, cycleLength, k) == d + k * cycleLength
  {
    if k > 0 {
      NextPeriodAfterIsLinear(d, cycleLength, k - 1);
    }
  }

  /** Re-starting a calculator at its own next-period date `k` times moves it `k` cycles. */
  method AdvanceCycles(pc: PeriodCalculator, k: nat)
    requires pc.Valid() && pc.lastPeriodStart.Some?
    modifies pc
    ensures pc.Valid() && pc.cycleLength == old(pc.cycleLength)
    ensures pc.lastPeriodStart == Some(old(pc.lastPeriodStart.value) + k * pc.cycleLength)
  {
    var i := 0;
    while i < k
      invariant 0 <= i <= k
      invariant pc.Valid() && pc.cycleLength == old(pc.cycleLength)
      invariant pc.lastPeriodStart == Some(NextPeriodAfter(old(pc.lastPeriodStart.value), pc.cycleLength, i))
    {
      pc.SetLastPeriodStart(pc.GetNextPeriodDate());
      i := i + 1;
    }
    NextPeriodAfterIsLinear(old(pc.lastPeriodStart.value), pc.cycleLength, k);
  }

  /** Cycle 0 is the current cycle, and each later cycle's window is the one before it
      moved by one cycle length. */
  lemma FertileWindowForCycleShifts(pc: PeriodCalculator, k: int)
    requires pc.lastPeriodStart.Some?
    ensures pc.GetFertileWindowForCycle(0) == pc.GetFertileWindow()
    ensures pc.GetFertileWindowForCycle(k + 1).value.startDate ==
      pc.GetFertileWindowForCycle(k).value.startDate + pc.cycleLength
    ensures pc.GetFertileWindowForCycle(k + 1).value.endDate ==
      pc.GetFertileWindowForCycle(k).value.endDate + pc.cycleLength
  {
    assert pc.cycleLength * (k + 1) == pc.cycleLength * k + pc.cycleLength;
  }

  /** With cycles longer than the five-day window, windows of different cycles never overlap. */
  lemma {:induction false} FertileWindowsDisjoint(pc: PeriodCalculator, k1: int, k2: int, date: Day)
    requires pc.lastPeriodStart.Some? && pc.cycleLength > FertileWindowEnd - FertileWindowStart
    requires k1 < k2
    ensures !(pc.GetFertileWindowForCycle(k1).value.ContainsDate(date) &&
              pc.GetFertileWindowForCycle(k2).value.ContainsDate(date))
  {
    var w1 := pc.GetFertileWindowForCycle(k1).value;
    var w2 := pc.GetFertileWindowForCycle(k2).value;
    var len := pc.cycleLength;
    assert len * k2 == len * k1 + len * (k2 - k1);
    assert len * (k2 - k1) >= len by {
      assert k2 - k1 >= 1;
      assert len * (k2 - k1) == len + len * (k2 - k1 - 1);
      assert len * (k2 - k1 - 1) >= 0;
    }
    assert w2.startDate > w1.endDate;
  }

  // ---------------------------------------------------------------------------
  // Cycle statistics

  datatype CycleStatistics = CycleStatistics(averageCycleLength: int, minCycleLength: int, maxCycleLength: int)

  /** The gaps add up to the distance from the first date to the last. */
  lemma {:induction false} GapsTelescope(ds: seq<Day>)
    requires |ds| >= 1
    ensures Sum(Gaps(ds)) == ds[|ds| - 1] - ds[0]
  {
    if |ds| >= 2 {
      var init := ds[..|ds| - 1];
      GapsTelescope(init);
      var gs := Gaps(ds);
      assert gs[..|gs| - 1] == Gaps(init);
    }
  }

  function SeqMin(s: seq<int>): (m: int)
    requires |s| > 0
    ensures m in s
    ensures forall x :: x in s ==> m <= x
  {
    if |s| == 1 then s[0]
    else
      var m0 := SeqMin(s[..|s| - 1]);
      assert forall x :: x in s ==> x in s[..|s| - 1] || x == s[|s| - 1];
      if s[|s| - 1] < m0 then s[|s| - 1] else m0
  }

  function SeqMax(s: seq<int>): (m: int)
    requires |s| > 0
    ensures m in s
    ensures forall x :: x in s ==> x <= m
  {
    if |s| == 1 then s[0]
    else
      var m0 := SeqMax(s[..|s| - 1]);
      assert forall x :: x in s ==> x in s[..|s| - 1] || x == s[|s| - 1];
      if s[|s| - 1] > m0 then s[|s| - 1] else m0
  }

  /** Integer division rounded toward zero, as a cast of the quotient to an integer does. */
  function TruncatedQuotient(a: int, n: int): int
    requires n > 0
  {
    if a >= 0 then a / n else -((-a) / n)
  }

  /** Multiplying by a positive count keeps the order. */
  lemma {:induction false} MulMonotone(a: int, b: int, n: nat)
    requires a <= b
    ensures a * n <= b * n
  {
    if n > 0 {
      MulMonotone(a, b, n - 1);
      assert a * n == a * (n - 1) + a;
      assert b * n == b * (n - 1) + b;
    }
  }

  /** The truncated quotient brackets the dividend between neighbouring multiples, from
      below for a non-negative dividend and from above for a negative one. */
  lemma TruncatedQuotientBounds(a: int, n: int)
    requires n > 0
    ensures a >= 0 ==> TruncatedQuotient(a, n) * n <= a < TruncatedQuotient(a, n) * n + n
    ensures a < 0 ==> TruncatedQuotient(a, n) * n - n < a <= TruncatedQuotient(a, n) * n
  {
    if a < 0 {
      var p := (-a) / n;
      assert p * n <= -a < p * n + n;
      assert TruncatedQuotient(a, n) * n == -(p * n);
    }
  }

  /** A larger factor gives a product at least one multiple larger. */
  lemma MulStep(a: int, b: int, n: nat)
    requires a < b
    ensures a * n + n <= b * n
  {
    MulMonotone(a + 1, b, n);
    assert (a + 1) * n == a * n + n;
  }

  /** A dividend between `lo * n` and `hi * n` has its truncated quotient between `lo` and `hi`. */
  lemma QuotientBetween(sum: int, n: int, lo: int, hi: int)
    requires n > 0 && lo * n <= sum <= hi * n
    ensures lo <= TruncatedQuotient(sum, n) <= hi
  {
    var q := TruncatedQuotient(sum, n);
    TruncatedQuotientBounds(sum, n);
    if q < lo {
      MulStep(q, lo, n);
    } else if q > hi {
      MulStep(hi, q, n);
    }
  }

  /** The truncated mean lies between the smallest and the largest element. */
  lemma TruncatedMeanWithin(s: seq<int>)
    requires |s| > 0
    ensures SeqMin(s) <= TruncatedQuotient(Sum(s), |s|) <= SeqMax(s)
  {
    assert forall i :: 0 <= i < |s| ==> s[i] in s;
    SumWithin(s, SeqMin(s), SeqMax(s));
    QuotientBetween(Sum(s), |s|, SeqMin(s), SeqMax(s));
  }

  /** Statistics of the gaps between consecutive dates in the given order: the mean
      truncated toward zero, the smallest and the largest gap. No list or fewer than
      two dates gives (28, 0, 0). */
  method CalculateCycleStatistics(periodDates: Option<seq<Day>>) returns (stats: CycleStatistics)
    ensures periodDates.None? || |periodDates.value| < 2 ==> stats == CycleStatistics(DefaultCycleLength, 0, 0)
    ensures periodDates.Some? && |periodDates.value| >= 2 ==>
      var gaps := Gaps(periodDates.value);
      && stats.averageCycleLength == TruncatedQuotient(Sum(gaps), |gaps|)
      && stats.minCycleLength == SeqMin(gaps)
      && stats.maxCycleLength == SeqMax(gaps)
      && stats.minCycleLength <= stats.averageCycleLength <= stats.maxCycleLength
  {
    if periodDates.None? || |periodDates.value| < 2 {
      return CycleStatistics(DefaultCycleLength, 0, 0);
    }
    var dates := periodDates.value;
    var cycleLengths: seq<int> := [];
    var i := 0;
    while i < |dates| - 1
      invariant 0 <= i <= |dates| - 1
      invariant cycleLengths == Gaps(dates[..i + 1])
    {
      var current := dates[i];
      var next := dates[i + 1];
      var daysBetween := next - current;
      assert dates[..i + 2][..i + 1] == dates[..i + 1];
      cycleLengths := cycleLengths + [daysBetween];
      i := i + 1;
    }
    assert dates[..i + 1] == dates;
    TruncatedMeanWithin(cycleLengths);
    var average := TruncatedQuotient(Sum(cycleLengths), |cycleLengths|);
    var min := SeqMin(cycleLengths);
    var max := SeqMax(cycleLengths);
    return CycleStatistics(average, min, max);
  }

  /** For dates in increasing order the average is the span divided by the number of gaps. */
  lemma AverageOfSpan(ds: seq<Day>)
    requires |ds| >= 2
    ensures TruncatedQuotient(Sum(Gaps(ds)), |ds| - 1) == TruncatedQuotient(ds[|ds| - 1] - ds[0], |ds| - 1)
  {
    GapsTelescope(ds);
    EqualQuotients(Sum(Gaps(ds)), ds[|ds| - 1] - ds[0], |ds| - 1);
  }

  lemma EqualQuotients(a: int, b: int, n: int)
    requires n > 0 && a == b
    ensures TruncatedQuotient(a, n) == TruncatedQuotient(b, n)
  {
  }

  // ---------------------------------------------------------------------------
  // Calendar helpers

  /** The Gregorian rule: every fourth year, except centuries not divisible by 400.
      A zero remainder means the same under truncating and floor division, so `%` here
      agrees with the Java operator for negative years too. */
  function IsLeapYear(year: int): (leap: bool)
    ensures leap ==> year % 4 == 0
    ensures year % 100 == 0 ==> (leap <==> year % 400 == 0)
    ensures year % 100 != 0 ==> (leap <==> year % 4 == 0)
  {
    MultipleOf400(year);
    (year % 4 == 0 && year % 100 != 0) || year % 400 == 0
  }

  /** A multiple of 400 is a multiple of 4 and of 100. */
  lemma MultipleOf400(year: int)
    ensures year % 400 == 0 ==> year % 4 == 0 && year % 100 == 0
  {
    if year % 400 == 0 {
      assert year == 400 * (year / 400);
      assert year == 4 * (100 * (year / 400));
      assert year == 100 * (4 * (year / 400));
    }
  }

  /** The rule repeats every 400 years. */
  lemma LeapYearPeriodic(year: int)
    ensures IsLeapYear(year + 400) == IsLeapYear(year)
  {
    assert (year + 400) % 4 == year % 4;
    assert (year + 400) % 100 == year % 100;
    assert (year + 400) % 400 == year % 400;
  }

  function MonthLength(month: int, leap: bool): (days: int)
    requires 1 <= month <= 12
    ensures 28 <= days <= 31
  {
    if month == 2 then (if leap then 29 else 28)
    else if month == 4 || month == 6 || month == 9 || month == 11 then 30
    else 31
  }

  /** Whether the calendar accepts the year, month and day: the year within its range,
      the month in 1..12, the day in 1..31, and a day past the 28th checked against the
      month's length. */
  function IsValidDate(day: int, month: int, year: int): (ok: bool)
    ensures ok <==>
      MinYear <= year <= MaxYear && 1 <= month <= 12 && 1 <= day <= MonthLength(month, IsLeapYear(year))
  {
    if !(MinYear <= year <= MaxYear) then false
    else if !(1 <= month <= 12) then false
    else if !(1 <= day <= 31) then false
    else if day > 28 then day <= MonthLength(month, IsLeapYear(year))
    else true
  }

  /** February 29 exists exactly in leap years. */
  lemma LeapDayValidIffLeapYear(year: int)
    requires MinYear <= year <= MaxYear
    ensures IsValidDate(29, 2, year) <==> IsLeapYear(year)
  {
  }

  /** Inclusive number of days from start to end; 0 when a date is missing or the end
      comes first. */
  function CalculatePeriodLength(startDate: Option<Day>, endDate: Option<Day>): (days: int)
    ensures startDate.None? || endDate.None? ==> days == 0
    ensures startDate.Some? && endDate.Some? && endDate.value < startDate.value ==> days == 0
    ensures startDate.Some? && endDate.Some? && endDate.value >= startDate.value ==>
      days >= 1 && startDate.value + days - 1 == endDate.value
  {
    if startDate.None? || endDate.None? || endDate.value < startDate.value then 0
    else
      var daysBetween := endDate.value - startDate.value;
      daysBetween + 1
  }

  lemma {:induction false} RangeCardinality(a: int, b: int)
    requires a <= b + 1
    ensures |DaysIn(DateRange(a, b))| == b - a + 1
    decreases b - a
  {
    if a <= b {
      var s0 := DaysIn(DateRange(a, b - 1));
      assert DaysIn(DateRange(a, b)) == s0 + {b};
      assert b !in s0;
      RangeCardinality(a, b - 1);
    } else {
      assert DaysIn(DateRange(a, b)) == {};
    }
  }

  /** The period length counts exactly the days the range from start to end contains. */
  lemma PeriodLengthCountsDays(startDate: Day, endDate: Day)
    requires startDate <= endDate
    ensures CalculatePeriodLength(Some(startDate), Some(endDate)) == |DaysIn(DateRange(startDate, endDate))|
  {
    RangeCardinality(startDate, endDate);
  }
}

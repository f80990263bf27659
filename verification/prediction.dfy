/** The prediction and analytics engine: weighted cycle length, dispersion statistics,
    the confidence score, forward projection of the next cycle, the most common length,
    one-step historical accuracy and the day-level fertility classifier. */
module Prediction {
  import opened Types
  import opened EntryOrder

  const OvulationDayBeforePeriod: int := 14
  const FertileWindowBeforeOvulation: int := 5
  const FertileWindowAfterOvulation: int := 1
  const PeriodDuration: int := 5
  const MinCycleLength: int := 21
  const MaxCycleLength: int := 35
  /** The clinical default used whenever there is no data. */
  const DefaultCycleLength: int := 28

  // ---------------------------------------------------------------------------
  // Arithmetic helpers

  function Min(a: int, b: int): int { if a <= b then a else b }
  function Max(a: int, b: int): int { if a >= b then a else b }
  function Abs(x: int): nat { if x < 0 then -x else x }
  function MinReal(a: real, b: real): real { if a <= b then a else b }
  function MaxReal(a: real, b: real): real { if a >= b then a else b }

  /** `Math.round`: the nearest integer, halves rounded up. */
  function Round(x: real): (r: int)
    ensures r as real - 0.5 <= x < r as real + 0.5
  {
    (x + 0.5).Floor
  }

  lemma RoundWithin(x: real, lo: int, hi: int)
    requires lo as real <= x <= hi as real
    ensures lo <= Round(x) <= hi
  {
  }

  /** A length forced into the plausible range [21, 35]. */
  function Clamp(length: int): (c: int)
    ensures MinCycleLength <= c <= MaxCycleLength
    ensures MinCycleLength <= length <= MaxCycleLength ==> c == length
    ensures length < MinCycleLength ==> c == MinCycleLength
    ensures length > MaxCycleLength ==> c == MaxCycleLength
  {
    Max(MinCycleLength, Min(MaxCycleLength, length))
  }

  // ---------------------------------------------------------------------------
  // Weighted average cycle length

  /** The sum of `(i + 1) * Clamp(lengths[i])`: position i has weight i + 1. */
  function WeightedSum(lengths: seq<int>): int
  {
    if |lengths| == 0 then 0
    else WeightedSum(lengths[..|lengths| - 1]) + |lengths| * Clamp(lengths[|lengths| - 1])
  }

  /** The sum of the weights 1 + 2 + ... + n. */
  function TotalWeight(n: nat): (w: nat)
    ensures n > 0 ==> w >= n
  {
    if n == 0 then 0 else TotalWeight(n - 1) + n
  }

  lemma {:induction false} WeightedSumBounds(lengths: seq<int>)
    ensures MinCycleLength * TotalWeight(|lengths|) <= WeightedSum(lengths)
    ensures WeightedSum(lengths) <= MaxCycleLength * TotalWeight(|lengths|)
  {
    if |lengths| > 0 {
      WeightedSumBounds(lengths[..|lengths| - 1]);
    }
  }

  lemma QuotientWithin(a: int, w: int, lo: int, hi: int)
    requires w > 0
    requires lo * w <= a <= hi * w
    ensures lo as real <= a as real / w as real <= hi as real
  {
    assert (lo * w) as real == lo as real * w as real;
    assert (hi * w) as real == hi as real * w as real;
  }

  /** Recent cycles weigh more: the result is the rounded quotient of the weighted sum
      of the clamped lengths by the total weight, and lies in [21, 35]. An empty history
      gives the default 28. */
  function WeightedAverageCycleLength(lengths: seq<int>): (r: int)
    ensures |lengths| == 0 ==> r == DefaultCycleLength
    ensures |lengths| > 0 ==> MinCycleLength <= r <= MaxCycleLength
    ensures |lengths| > 0 ==>
      r as real - 0.5 <= WeightedSum(lengths) as real / TotalWeight(|lengths|) as real < r as real + 0.5
  {
    if |lengths| == 0 then DefaultCycleLength
    else
      var q := WeightedSum(lengths) as real / TotalWeight(|lengths|) as real;
      WeightedSumBounds(lengths);
      QuotientWithin(WeightedSum(lengths), TotalWeight(|lengths|), MinCycleLength, MaxCycleLength);
      RoundWithin(q, MinCycleLength, MaxCycleLength);
      Round(q)
  }

  lemma {:induction false} WeightedSumConstant(v: int, n: nat)
    ensures WeightedSum(seq(n, _ => v)) == Clamp(v) * TotalWeight(n)
  {
    if n > 0 {
      var s := seq(n, _ => v);
      assert s[..n - 1] == seq(n - 1, _ => v);
      WeightedSumConstant(v, n - 1);
    }
  }

  /** A history of one repeated length v averages to v clamped into [21, 35]; in
      particular a single length is returned clamped, and a repeated in-range length is
      returned as it is. */
  lemma WeightedAverageOfConstant(v: int, n: nat)
    requires n > 0
    ensures WeightedAverageCycleLength(seq(n, _ => v)) == Clamp(v)
  {
    WeightedSumConstant(v, n);
    MulDivCancel(Clamp(v), TotalWeight(n));
  }

  lemma MulDivCancel(c: int, w: int)
    requires w > 0
    ensures (c * w) as real / w as real == c as real
  {
    assert (c * w) as real == c as real * w as real;
  }

  lemma WeightedAverageOfSingle(v: int)
    ensures WeightedAverageCycleLength([v]) == Clamp(v)
  {
    assert [v] == seq(1, _ => v);
    WeightedAverageOfConstant(v, 1);
  }

  lemma AddScaled(a: int, b: int, k: int, n: int)
    requires n > 0
    ensures a as real / n as real + b as real * (k as real / n as real) == (a + k * b) as real / n as real
  {
    assert (a + k * b) as real == a as real + k as real * b as real;
  }

  lemma QuotientOfScaled(a: real, b: real, n: real)
    requires n > 0.0 && b != 0.0
    ensures (a / n) / (b / n) == a / b
  {
  }

  /** Extending the prefix by position `i` adds its weight `j = i + 1` times its clamped length. */
  lemma WeightedSumStep(s: seq<int>, i: nat, j: nat)
    requires j == i + 1 <= |s|
    ensures WeightedSum(s[..j]) == WeightedSum(s[..i]) + j * Clamp(s[i])
  {
    PrefixOfPrefix(s, i, j);
  }

  /** One step of the engine's running weighted sum, kept divided by n. */
  lemma WeightedAccumulation(s: seq<int>, i: nat, j: nat, acc: real, length: int, weight: real)
    requires j == i + 1 <= |s|
    requires acc == WeightedSum(s[..i]) as real / |s| as real
    requires length == Clamp(s[i]) && weight == j as real / |s| as real
    ensures acc + length as real * weight == WeightedSum(s[..j]) as real / |s| as real
  {
    WeightedSumStep(s, i, j);
    AddScaled(WeightedSum(s[..i]), Clamp(s[i]), j, |s|);
  }

  /** One step of the engine's running total weight, kept divided by n. */
  lemma WeightAccumulation(i: nat, j: nat, n: nat, acc: real, weight: real)
    requires j == i + 1 && n > 0
    requires acc == TotalWeight(i) as real / n as real
    requires weight == j as real / n as real
    ensures acc + weight == TotalWeight(j) as real / n as real
  {
    AddScaled(TotalWeight(i), 1, j, n);
  }

  /** The accumulation loop with weights (i + 1) / n, as the engine runs it. */
  method ComputeWeightedAverageCycleLength(cycleLengths: seq<int>) returns (r: int)
    ensures r == WeightedAverageCycleLength(cycleLengths)
  {
    if |cycleLengths| == 0 {
      return DefaultCycleLength;
    }
    var n := |cycleLengths|;
    var weightedSum: real := 0.0;
    var weightSum: real := 0.0;
    var index := 0;
    while index < n
      invariant 0 <= index <= n
      invariant weightedSum == WeightedSum(cycleLengths[..index]) as real / n as real
      invariant weightSum == TotalWeight(index) as real / n as real
    {
      var position := index + 1;
      var weight := position as real / n as real;
      var validLength := Max(MinCycleLength, Min(MaxCycleLength, cycleLengths[index]));
      WeightedAccumulation(cycleLengths, index, position, weightedSum, validLength, weight);
      WeightAccumulation(index, position, n, weightSum, weight);
      weightedSum := weightedSum + validLength as real * weight;
      weightSum := weightSum + weight;
      index := position;
    }
    FullPrefix(cycleLengths);
    QuotientOfScaled(WeightedSum(cycleLengths) as real, TotalWeight(n) as real, n as real);
    r := Round(weightedSum / weightSum);
  }

  // ---------------------------------------------------------------------------
  // Mean, variance and standard deviation

  function Mean(s: seq<int>): real
    requires |s| > 0
  {
    Sum(s) as real / |s| as real
  }

  /** The sum of `(s[i] - m)^2`. */
  function SquaredDeviations(s: seq<int>, m: real): (d: real)
    ensures d >= 0.0
  {
    if |s| == 0 then 0.0
    else
      var x := s[|s| - 1] as real - m;
      SquaredDeviations(s[..|s| - 1], m) + x * x
  }

  datatype VarianceStats = VarianceStats(variance: real, stdDev: real, average: real)

  /** Population variance (divided by n) of the raw lengths, its square root and the
      mean; the empty history gives variance 0, deviation 0 and average 28. */
  function CycleVariance(cycleLengths: seq<int>, sqrt: RootFn): (v: VarianceStats)
    ensures |cycleLengths| == 0 ==> v == VarianceStats(0.0, 0.0, DefaultCycleLength as real)
    ensures v.variance >= 0.0 && v.stdDev >= 0.0
    ensures v.stdDev == 0.0 <==> v.variance == 0.0
    ensures |cycleLengths| > 0 ==> v.average * |cycleLengths| as real == Sum(cycleLengths) as real
  {
    if |cycleLengths| == 0 then VarianceStats(0.0, 0.0, DefaultCycleLength as real)
    else
      var average := Mean(cycleLengths);
      var variance := SquaredDeviations(cycleLengths, average) / |cycleLengths| as real;
      VarianceStats(variance, sqrt(variance), average)
  }

  ghost predicate AllEqual(s: seq<int>)
  {
    forall i, j :: 0 <= i < |s| && 0 <= j < |s| ==> s[i] == s[j]
  }

  /** The mean of lengths that all lie in [lo, hi] lies in [lo, hi] too. */
  lemma MeanWithin(s: seq<int>, lo: int, hi: int)
    requires |s| > 0 && AllWithin(s, lo, hi)
    ensures lo as real <= Mean(s) <= hi as real
  {
    SumWithin(s, lo, hi);
    QuotientWithin(Sum(s), |s|, lo, hi);
  }

  lemma {:induction false} SquaredDeviationsZero(s: seq<int>, m: real)
    ensures SquaredDeviations(s, m) == 0.0 <==> forall i :: 0 <= i < |s| ==> s[i] as real == m
  {
    if |s| > 0 {
      var init := s[..|s| - 1];
      SquaredDeviationsZero(init, m);
      var x := s[|s| - 1] as real - m;
      SquareZero(x);
      assert SquaredDeviations(s, m) == SquaredDeviations(init, m) + x * x;
      if SquaredDeviations(s, m) == 0.0 {
        if x != 0.0 {
          calc {
            SquaredDeviations(s, m);
            SquaredDeviations(init, m) + x * x;
            >= x * x;
            > 0.0;
          }
          assert false;
        }
        forall i | 0 <= i < |s|
          ensures s[i] as real == m
        {
          if i < |s| - 1 {
            assert s[i] == init[i];
          }
        }
      }
      if forall i :: 0 <= i < |s| ==> s[i] as real == m {
        forall i | 0 <= i < |init|
          ensures init[i] as real == m
        {
          assert init[i] == s[i];
        }
      }
    }
  }

  lemma SquareZero(x: real)
    ensures x * x >= 0.0
    ensures x != 0.0 ==> x * x > 0.0
  {
    if x < 0.0 {
      var y := -x;
      assert y * y > 0.0;
      assert x * x == y * y;
    }
  }

  lemma {:induction false} SumConstant(s: seq<int>, v: int)
    requires forall i :: 0 <= i < |s| ==> s[i] == v
    ensures Sum(s) == v * |s|
  {
    if |s| > 0 {
      SumConstant(s[..|s| - 1], v);
    }
  }

  /** The variance is zero exactly when every length is the same; the average of equal
      lengths is that length. */
  lemma VarianceZeroIffAllEqual(s: seq<int>, sqrt: RootFn)
    requires |s| > 0
    ensures CycleVariance(s, sqrt).variance == 0.0 <==> AllEqual(s)
    ensures AllEqual(s) ==> CycleVariance(s, sqrt).average == s[0] as real
  {
    var m := Mean(s);
    SquaredDeviationsZero(s, m);
    if AllEqual(s) {
      SumConstant(s, s[0]);
      assert (s[0] * |s|) as real == s[0] as real * |s| as real;
      assert m == s[0] as real;
    }
    if CycleVariance(s, sqrt).variance == 0.0 {
      assert SquaredDeviations(s, m) == 0.0;
    }
  }

  /** With two lengths a and b the variance is ((a − b)/2)²: the squared deviations
      divided by n = 2 and not by n − 1 = 1. */
  lemma TwoLengthsVariance(a: int, b: int, sqrt: RootFn)
    ensures CycleVariance([a, b], sqrt).variance == ((a - b) as real) * ((a - b) as real) / 4.0
  {
    var s := [a, b];
    assert s[..1] == [a] && [a][..0] == [];
    assert Sum(s) == Sum([a]) + b == a + b;
    var m := (a + b) as real / 2.0;
    assert Mean(s) == m;
    var u := a as real - m;
    var w := b as real - m;
    assert SquaredDeviations([a], m) == u * u;
    assert SquaredDeviations(s, m) == u * u + w * w;
    assert u == (a - b) as real / 2.0 && w == -u;
  }

  /** A worked instance: lengths 26, 28 and 30 have mean 28 and variance 8/3; a sample
      variance would be 4. */
  lemma VarianceExample(sqrt: RootFn)
    ensures CycleVariance([26, 28, 30], sqrt).average == 28.0
    ensures CycleVariance([26, 28, 30], sqrt).variance == 8.0 / 3.0
  {
    var s := [26, 28, 30];
    assert s[..2] == [26, 28] && [26, 28][..1] == [26];
    assert Sum(s) == 84;
    assert SquaredDeviations(s, 28.0) == 8.0;
  }

  // ---------------------------------------------------------------------------
  // Confidence

  /** The coefficient of variation divides by the mean without a guard. Where the mean
      is zero and the spread positive, the quotient is +Infinity and the clamp yields its
      floor; where every length is zero it is 0/0, which no clamp turns into a number.
      The model is defined everywhere except that last case; a non-zero total is the
      common way to be outside it. */
  predicate ConfidenceDefined(cycleLengths: seq<int>)
  {
    || |cycleLengths| == 0
    || Sum(cycleLengths) != 0
    || exists i :: 0 <= i < |cycleLengths| && cycleLengths[i] != 0
  }

  /** One minus the coefficient of variation, clamped to [0.3, 1]; a zero mean over a
      positive spread (`ZeroTotalSpread`) sends the coefficient to infinity, so the
      score is the floor. */
  function Confidence(cycleHistory: CycleHistory, sqrt: RootFn): (c: real)
    requires ConfidenceDefined(cycleHistory.cycleLengths)
    ensures 0.3 <= c <= 1.0
    ensures |cycleHistory.cycleLengths| == 0 ==> c == 1.0
    ensures |cycleHistory.cycleLengths| > 0 && Sum(cycleHistory.cycleLengths) == 0 ==> c == 0.3
  {
    var stats := CycleVariance(cycleHistory.cycleLengths, sqrt);
    if stats.average == 0.0 then 0.3
    else
      var cv := stats.stdDev / stats.average;
      var confidence := MaxReal(0.3, 1.0 - cv);
      MinReal(1.0, MaxReal(0.3, confidence))
  }

  /** Equal lengths with a zero total are all zero. */
  lemma EqualZeroTotal(s: seq<int>)
    ensures |s| > 0 && AllEqual(s) && Sum(s) == 0 ==> forall i :: 0 <= i < |s| ==> s[i] == 0
  {
    if |s| > 0 && AllEqual(s) && Sum(s) == 0 {
      SumConstant(s, s[0]);
      assert s[0] * |s| == 0;
    }
  }

  /** Lengths with a zero total that are not all zero have a positive deviation: the
      case where the source's quotient is infinite rather than undefined. */
  lemma ZeroTotalSpread(s: seq<int>, sqrt: RootFn)
    requires |s| > 0 && Sum(s) == 0 && ConfidenceDefined(s)
    ensures CycleVariance(s, sqrt).stdDev > 0.0
    ensures CycleVariance(s, sqrt).average == 0.0
  {
    EqualZeroTotal(s);
    VarianceZeroIffAllEqual(s, sqrt);
  }

  /** With a positive mean, the confidence is 1 exactly when all cycle lengths are equal. */
  lemma ConfidenceOneIffRegular(h: CycleHistory, sqrt: RootFn)
    requires |h.cycleLengths| > 0 && Sum(h.cycleLengths) > 0
    ensures Confidence(h, sqrt) == 1.0 <==> AllEqual(h.cycleLengths)
  {
    var stats := CycleVariance(h.cycleLengths, sqrt);
    VarianceZeroIffAllEqual(h.cycleLengths, sqrt);
    assert stats.average == Mean(h.cycleLengths);
    assert stats.average > 0.0;
    if stats.stdDev > 0.0 {
      assert stats.stdDev / stats.average > 0.0;
    }
  }

  // ---------------------------------------------------------------------------
  // Forward projection

  function EffectiveCycleLength(cycleLengths: seq<int>): (len: int)
    ensures MinCycleLength <= len <= MaxCycleLength
  {
    if |cycleLengths| > 0 then WeightedAverageCycleLength(cycleLengths) else DefaultCycleLength
  }

  /** Projects the next cycle from `lastPeriodStart`: the next period starts after the
      effective length and lasts five more days, ovulation is fourteen days before it,
      and the fertile window runs from five days before to one day after ovulation. */
  function CalculatePrediction(lastPeriodStart: Day, cycleHistory: CycleHistory, sqrt: RootFn): (p: PredictionResult)
    requires ConfidenceDefined(cycleHistory.cycleLengths)
    ensures p.nextPeriodStart - lastPeriodStart ==
      (if |cycleHistory.cycleLengths| == 0 then DefaultCycleLength
       else WeightedAverageCycleLength(cycleHistory.cycleLengths))
    ensures p.nextPeriodEnd == p.nextPeriodStart + PeriodDuration
    ensures p.ovulationDate == p.nextPeriodStart - OvulationDayBeforePeriod
    ensures p.fertileWindowStart == p.ovulationDate - FertileWindowBeforeOvulation
    ensures p.fertileWindowEnd == p.ovulationDate + FertileWindowAfterOvulation
    ensures p.confidence == Confidence(cycleHistory, sqrt)
    ensures lastPeriodStart < p.fertileWindowStart < p.ovulationDate < p.fertileWindowEnd
    ensures p.fertileWindowEnd < p.nextPeriodStart < p.nextPeriodEnd
  {
    var validStart := lastPeriodStart;
    var nextPeriodStart := validStart + EffectiveCycleLength(cycleHistory.cycleLengths);
    var nextPeriodEnd := nextPeriodStart + PeriodDuration;
    var ovulationDate := nextPeriodStart - OvulationDayBeforePeriod;
    var fertileWindowStart := ovulationDate - FertileWindowBeforeOvulation;
    var fertileWindowEnd := ovulationDate + FertileWindowAfterOvulation;
    PredictionResult(nextPeriodStart, nextPeriodEnd, ovulationDate, fertileWindowStart, fertileWindowEnd,
                     Confidence(cycleHistory, sqrt))
  }

  // ---------------------------------------------------------------------------
  // Most common cycle length

  function Count(s: seq<int>, v: int): nat
  {
    multiset(s)[v]
  }

  /** `r` is a value of maximal frequency in `s`, and its count reached that maximum at
      a prefix where no other value had reached it: the first value to reach the top
      count wins a tie. */
  ghost predicate IsFirstMode(s: seq<int>, r: int)
  {
    && r in s
    && (forall v :: Count(s, v) <= Count(s, r))
    && exists p :: 0 <= p <= |s| && ReachesFirst(s, p, r)
  }

  ghost predicate ReachesFirst(s: seq<int>, p: nat, r: int)
    requires p <= |s|
  {
    Count(s[..p], r) == Count(s, r) && forall v :: v != r ==> Count(s[..p], v) < Count(s, r)
  }

  lemma PrefixCountMonotone(s: seq<int>, p: nat, q: nat, v: int)
    requires p <= q <= |s|
    ensures Count(s[..p], v) <= Count(s[..q], v) <= Count(s, v)
  {
    assert s[..q] == s[..p] + s[p..q];
    assert s == s[..q] + s[q..];
  }

  /** At most one value satisfies `IsFirstMode`, so the tie-break determines the result. */
  lemma FirstModeUnique(s: seq<int>, r1: int, r2: int)
    requires IsFirstMode(s, r1) && IsFirstMode(s, r2)
    ensures r1 == r2
  {
    var p1 :| 0 <= p1 <= |s| && ReachesFirst(s, p1, r1);
    var p2 :| 0 <= p2 <= |s| && ReachesFirst(s, p2, r2);
    if r1 != r2 {
      assert Count(s, r1) == Count(s, r2);
      if p1 <= p2 {
        PrefixCountMonotone(s, p1, p2, r1);
      } else {
        PrefixCountMonotone(s, p2, p1, r2);
      }
    }
  }

  lemma PrefixMultisetStep(s: seq<int>, i: nat, j: nat)
    requires j == i + 1 <= |s|
    ensures multiset(s[..j]) == multiset(s[..i]) + multiset{s[i]}
  {
    assert s[..j] == s[..i] + [s[i]];
  }

  /** Counts with a frequency table and keeps the first value whose count exceeds the
      best count so far; the empty list gives 28. */
  method GetMostCommonCycleLength(cycleLengths: seq<int>) returns (mostCommon: int)
    ensures |cycleLengths| == 0 ==> mostCommon == DefaultCycleLength
    ensures |cycleLengths| > 0 ==> IsFirstMode(cycleLengths, mostCommon)
  {
    if |cycleLengths| == 0 {
      return DefaultCycleLength;
    }
    var frequency: map<int, nat> := map[];
    var maxFreq: nat := 0;
    mostCommon := DefaultCycleLength;
    ghost var reached: nat := 0;
    var i := 0;
    while i < |cycleLengths|
      invariant 0 <= i <= |cycleLengths|
      invariant forall v :: v in frequency <==> v in multiset(cycleLengths[..i])
      invariant forall v :: v in frequency ==> frequency[v] == Count(cycleLengths[..i], v)
      invariant forall v :: Count(cycleLengths[..i], v) <= maxFreq
      invariant i == 0 ==> maxFreq == 0
      invariant i > 0 ==> mostCommon in cycleLengths[..i] && Count(cycleLengths[..i], mostCommon) == maxFreq
      invariant reached <= i
      invariant Count(cycleLengths[..reached], mostCommon) == maxFreq
      invariant forall v :: v != mostCommon ==> Count(cycleLengths[..reached], v) < maxFreq || maxFreq == 0
    {
      var length := cycleLengths[i];
      var next := i + 1;
      PrefixMultisetStep(cycleLengths, i, next);
      var seen := if length in frequency then frequency[length] else 0;
      frequency := frequency[length := seen + 1];
      if frequency[length] > maxFreq {
        maxFreq := frequency[length];
        mostCommon := length;
        reached := next;
      }
      i := next;
    }
    FullPrefix(cycleLengths);
    assert ReachesFirst(cycleLengths, reached, mostCommon);
  }

  // ---------------------------------------------------------------------------
  // Historical accuracy

  /** The earlier entry's recorded length predicts the later entry's date within two days. */
  function AccuratePair(current: CycleEntry, next: CycleEntry): (accurate: bool)
    ensures accurate <==>
      next.lastPeriodStart - 2 <= current.lastPeriodStart + current.cycleLength <= next.lastPeriodStart + 2
  {
    Abs(current.lastPeriodStart + current.cycleLength - next.lastPeriodStart) <= 2
  }

  /** The number of accurate consecutive pairs of `s`. */
  function AccurateCount(s: seq<CycleEntry>): (k: nat)
    ensures |s| > 0 ==> k <= |s| - 1
    ensures |s| <= 1 ==> k == 0
  {
    if |s| < 2 then 0
    else AccurateCount(s[..|s| - 1]) + (if AccuratePair(s[|s| - 2], s[|s| - 1]) then 1 else 0)
  }

  /** The percentage of date-consecutive pairs whose first entry's recorded length
      predicts the second entry's date within two days; fewer than two entries give 0. */
  function HistoricalAccuracy(entries: seq<CycleEntry>): (a: real)
    ensures 0.0 <= a <= 100.0
    ensures |entries| < 2 ==> a == 0.0
  {
    if |entries| < 2 then 0.0
    else
      Percent(AccurateCount(SortByDate(entries)), |entries| - 1)
  }

  /** `k` out of `n` as a percentage, computed as the evaluator does: divide, then scale. */
  function Percent(k: nat, n: nat): (p: real)
    requires 0 < n && k <= n
    ensures 0.0 <= p <= 100.0
    ensures p == 100.0 <==> k == n
  {
    FractionFacts(k as real, n as real);
    (k as real / n as real) * 100.0
  }

  lemma FractionFacts(k: real, n: real)
    requires 0.0 <= k <= n && 0.0 < n
    ensures 0.0 <= k / n <= 1.0
    ensures k / n == 1.0 <==> k == n
  {
    var q := k / n;
    assert q * n == k;
    if q < 0.0 {
      calc { k; q * n; < 0.0 * n; }
    }
    if q > 1.0 {
      calc { k; q * n; > 1.0 * n; }
    }
    if q == 1.0 {
      calc { k; q * n; 1.0 * n; }
    }
    if k == n {
      calc { q; k / n; n / n; 1.0; }
    }
  }

  /** Every consecutive pair of `s` is accurate. */
  ghost predicate AllPairsAccurate(s: seq<CycleEntry>)
  {
    forall i :: 0 <= i < |s| - 1 ==> AccuratePair(s[i], s[i + 1])
  }

  lemma {:induction false} AccurateCountAll(s: seq<CycleEntry>)
    requires |s| >= 1
    ensures AccurateCount(s) == |s| - 1 <==> AllPairsAccurate(s)
  {
    if |s| >= 2 {
      var init := s[..|s| - 1];
      AccurateCountAll(init);
      forall i | 0 <= i < |init|
        ensures init[i] == s[i]
      {
      }
    }
  }

  lemma HistoricalAccuracyFullCount(entries: seq<CycleEntry>)
    requires |entries| >= 2
    ensures HistoricalAccuracy(entries) == 100.0 <==> AccurateCount(SortByDate(entries)) == |entries| - 1
  {
  }

  /** The score is 100 exactly when every date-consecutive pair is accurate. */
  lemma HistoricalAccuracyFull(entries: seq<CycleEntry>)
    requires |entries| >= 2
    ensures HistoricalAccuracy(entries) == 100.0 <==> AllPairsAccurate(SortByDate(entries))
  {
    HistoricalAccuracyFullCount(entries);
    AccurateCountAll(SortByDate(entries));
  }

  /** Overwrites the array with `s`. */
  method Overwrite(a: array<CycleEntry>, s: seq<CycleEntry>)
    requires |s| == a.Length
    modifies a
    ensures a[..] == s
  {
    forall k | 0 <= k < a.Length {
      a[k] := s[k];
    }
  }

  /** Extending the prefix by one entry adds the pair it closes. */
  lemma AccurateCountStep(s: seq<CycleEntry>, i: nat, j: nat, k: nat)
    requires j == i + 1 && k == j + 1 && k <= |s|
    ensures AccurateCount(s[..k]) == AccurateCount(s[..j]) + (if AccuratePair(s[i], s[j]) then 1 else 0)
  {
    PrefixOfPrefix(s, j, k);
  }

  /** Counts, over consecutive pairs of the array in its current order, the pairs whose
      projected next start is within two days of the actual one. */
  method CountAccuratePairs(entries: array<CycleEntry>) returns (accurateCount: int)
    requires entries.Length >= 1
    ensures accurateCount == AccurateCount(entries[..])
  {
    var n := entries.Length;
    ghost var s := entries[..];
    accurateCount := 0;
    var i := 0;
    while i < n - 1
      invariant 0 <= i <= n - 1
      invariant accurateCount == AccurateCount(s[..i + 1])
    {
      var j := i + 1;
      var currentEntry := entries[i];
      var nextEntry := entries[j];
      var predictedNext := currentEntry.lastPeriodStart + currentEntry.cycleLength;
      var actualNext := nextEntry.lastPeriodStart;
      var daysDiff := Abs(predictedNext - actualNext);
      AccurateCountStep(s, i, j, j + 1);
      if daysDiff <= 2 {
        accurateCount := accurateCount + 1;
      }
      i := j;
    }
    FullPrefix(s);
  }

  /** Sorts the caller's array of entries by date, in place, and scores the pairs. */
  method CalculateHistoricalAccuracy(entries: array<CycleEntry>) returns (accuracy: real)
    modifies entries
    ensures entries[..] == SortByDate(old(entries[..]))
    ensures accuracy == HistoricalAccuracy(old(entries[..]))
  {
    if entries.Length < 2 {
      SortByDateOfSorted(entries[..]);
      return 0.0;
    }
    Overwrite(entries, SortByDate(entries[..]));
    var accurateCount := CountAccuratePairs(entries);
    accuracy := Percent(accurateCount, entries.Length - 1);
  }

  // ---------------------------------------------------------------------------
  // Entry validation and fertility status

  /** A recorded length is valid when it lies in [21, 35]; the date is not inspected. */
  function ValidateCycleEntry(lastPeriodStart: Day, cycleLength: int): (ok: bool)
    ensures ok <==> MinCycleLength <= cycleLength <= MaxCycleLength
  {
    cycleLength >= MinCycleLength && cycleLength <= MaxCycleLength
  }

  /** Validation accepts exactly the lengths that clamping leaves unchanged. */
  lemma ValidateIffClampFixed(d: Day, cycleLength: int)
    ensures ValidateCycleEntry(d, cycleLength) <==> Clamp(cycleLength) == cycleLength
  {
  }

  datatype FertilityStatus = Fertile | Ovulation | Menstrual | Other

  /** First match wins: the menstrual days, then the ovulation day, then the fertile
      window, all inclusive. */
  function GetFertilityStatus(date: Day, prediction: PredictionResult): (status: FertilityStatus)
    ensures status == Menstrual <==> prediction.nextPeriodStart <= date <= prediction.nextPeriodEnd
    ensures status == Ovulation <==>
      !(prediction.nextPeriodStart <= date <= prediction.nextPeriodEnd) && date == prediction.ovulationDate
    ensures status == Fertile <==>
      && !(prediction.nextPeriodStart <= date <= prediction.nextPeriodEnd)
      && date != prediction.ovulationDate
      && prediction.fertileWindowStart <= date <= prediction.fertileWindowEnd
  {
    var checkDate := date;
    if checkDate >= prediction.nextPeriodStart && checkDate <= prediction.nextPeriodEnd then Menstrual
    else if checkDate == prediction.ovulationDate then Ovulation
    else if checkDate >= prediction.fertileWindowStart && checkDate <= prediction.fertileWindowEnd then Fertile
    else Other
  }

  /** On a projected cycle, the status of a day depends only on its offset from the next
      period start: days 0..5 are menstrual, day -14 is ovulation (never fertile), days
      -19..-13 other than -14 are fertile, and every other day is other. */
  lemma FertilityOfPrediction(start: Day, h: CycleHistory, sqrt: RootFn, date: Day)
    requires ConfidenceDefined(h.cycleLengths)
    ensures var p := CalculatePrediction(start, h, sqrt);
      var offset := date - p.nextPeriodStart;
      && (GetFertilityStatus(date, p) == Menstrual <==> 0 <= offset <= PeriodDuration)
      && (GetFertilityStatus(date, p) == Ovulation <==> offset == -OvulationDayBeforePeriod)
      && (GetFertilityStatus(date, p) == Fertile <==> -19 <= offset <= -13 && offset != -14)
      && (GetFertilityStatus(date, p) == Other <==> offset < -19 || (-13 < offset < 0) || offset > PeriodDuration)
  {
  }
}

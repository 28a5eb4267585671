/** Growing-degree-days: daily heat units above a base temperature, computed
    from a historical series of daily maximum and minimum temperatures and
    accumulated over the whole series. */
module Gdd {
  import opened Options

  /** The daily series of the historical record: parallel arrays of dates,
      daily maxima and daily minima, each of which may be missing. */
  datatype DailySeries = DailySeries(time: Option<seq<string>>, tempMax: Option<seq<real>>,
                                     tempMin: Option<seq<real>>)

  /** One day of the result: its date and its degree-days. */
  datatype GddEntry = GddEntry(date: string, gddValue: real)

  datatype GddResult =
    | GddCalculated(days: nat, totalGdd: real, details: seq<GddEntry>)
    | NoGddAccumulated(days: nat, baseTemp: real)
    | InsufficientData

  /** All three arrays are present. */
  predicate Complete(daily: Option<DailySeries>) {
    daily.Some? && daily.value.time.Some? && daily.value.tempMax.Some? && daily.value.tempMin.Some?
  }

  /** Every date has a maximum and a minimum at the same position. */
  predicate Aligned(daily: Option<DailySeries>) {
    Complete(daily) ==>
      |daily.value.tempMax.value| >= |daily.value.time.value| &&
      |daily.value.tempMin.value| >= |daily.value.time.value|
  }

  /** Degree-days of one day: the mean of maximum and minimum above the base,
      never negative. */
  function DailyGdd(tMax: real, tMin: real, baseTemp: real): (g: real)
    ensures g >= 0.0
    ensures g > 0.0 <==> (tMax + tMin) / 2.0 > baseTemp
    ensures g > 0.0 ==> g == (tMax + tMin) / 2.0 - baseTemp
  {
    var avgTemp := (tMax + tMin) / 2.0;
    if 0.0 >= avgTemp - baseTemp then 0.0 else avgTemp - baseTemp
  }

  /** Degree-days accumulated over the first n days. */
  function GddSum(tMax: seq<real>, tMin: seq<real>, baseTemp: real, n: nat): real
    requires n <= |tMax| && n <= |tMin|
  {
    if n == 0 then 0.0 else GddSum(tMax, tMin, baseTemp, n - 1) + DailyGdd(tMax[n - 1], tMin[n - 1], baseTemp)
  }

  /** The per-day details of the first n days. */
  function GddDetails(dates: seq<string>, tMax: seq<real>, tMin: seq<real>, baseTemp: real, n: nat)
    : (ds: seq<GddEntry>)
    requires n <= |dates| && n <= |tMax| && n <= |tMin|
    ensures |ds| == n
    ensures forall k :: 0 <= k < n ==> ds[k] == GddEntry(dates[k], DailyGdd(tMax[k], tMin[k], baseTemp))
  {
    seq(n, k requires 0 <= k < n => GddEntry(dates[k], DailyGdd(tMax[k], tMin[k], baseTemp)))
  }

  function GddOutcome(daily: Option<DailySeries>, baseTemp: real): GddResult
    requires Aligned(daily)
  {
    if !Complete(daily) then InsufficientData
    else
      var dates := daily.value.time.value;
      var tMax := daily.value.tempMax.value;
      var tMin := daily.value.tempMin.value;
      var total := GddSum(tMax, tMin, baseTemp, |dates|);
      if total > 0.0 then GddCalculated(|dates|, total, GddDetails(dates, tMax, tMin, baseTemp, |dates|))
      else NoGddAccumulated(|dates|, baseTemp)
  }

  /** Checks the record, then walks the dates accumulating each day's
      degree-days and recording them. */
  method CalculateGdd(daily: Option<DailySeries>, baseTemp: real) returns (r: GddResult)
    requires Aligned(daily)
    ensures r == GddOutcome(daily, baseTemp)
  {
    if daily.None? || daily.value.time.None? || daily.value.tempMax.None? || daily.value.tempMin.None? {
      return InsufficientData;
    }
    var totalGdd := 0.0;
    var gddDetails: seq<GddEntry> := [];
    var dates := daily.value.time.value;
    var tempMaxList := daily.value.tempMax.value;
    var tempMinList := daily.value.tempMin.value;
    var i := 0;
    while i < |dates|
      invariant 0 <= i <= |dates|
      invariant totalGdd == GddSum(tempMaxList, tempMinList, baseTemp, i)
      invariant gddDetails == GddDetails(dates, tempMaxList, tempMinList, baseTemp, i)
    {
      var tempMax := tempMaxList[i];
      var tempMin := tempMinList[i];
      var avgTemp := (tempMax + tempMin) / 2.0;
      var gddValue := if 0.0 >= avgTemp - baseTemp then 0.0 else avgTemp - baseTemp;
      totalGdd := totalGdd + gddValue;
      gddDetails := gddDetails + [GddEntry(dates[i], gddValue)];
      i := i + 1;
    }
    if totalGdd > 0.0 {
      r := GddCalculated(|dates|, totalGdd, gddDetails);
    } else {
      r := NoGddAccumulated(|dates|, baseTemp);
    }
  }

  // ---------------------------------------------------------------------
  // What the accumulation promises.

  /** The accumulated total is never negative. */
  lemma {:induction false} GddSumNonNegative(tMax: seq<real>, tMin: seq<real>, baseTemp: real, n: nat)
    requires n <= |tMax| && n <= |tMin|
    ensures GddSum(tMax, tMin, baseTemp, n) >= 0.0
  {
    if n > 0 {
      GddSumNonNegative(tMax, tMin, baseTemp, n - 1);
    }
  }

  /** The total is positive exactly when some day's mean exceeds the base. */
  lemma {:induction false} GddSumPositiveIff(tMax: seq<real>, tMin: seq<real>, baseTemp: real, n: nat)
    requires n <= |tMax| && n <= |tMin|
    ensures GddSum(tMax, tMin, baseTemp, n) > 0.0 <==>
            exists k :: 0 <= k < n && (tMax[k] + tMin[k]) / 2.0 > baseTemp
  {
    if n > 0 {
      GddSumPositiveIff(tMax, tMin, baseTemp, n - 1);
      GddSumNonNegative(tMax, tMin, baseTemp, n - 1);
      if exists k :: 0 <= k < n && (tMax[k] + tMin[k]) / 2.0 > baseTemp {
        var k :| 0 <= k < n && (tMax[k] + tMin[k]) / 2.0 > baseTemp;
        if k < n - 1 {
          assert GddSum(tMax, tMin, baseTemp, n - 1) > 0.0;
        }
      }
    }
  }

  /** A higher base never accumulates more. */
  lemma {:induction false} GddSumAntitone(tMax: seq<real>, tMin: seq<real>, base1: real, base2: real, n: nat)
    requires n <= |tMax| && n <= |tMin| && base1 <= base2
    ensures GddSum(tMax, tMin, base2, n) <= GddSum(tMax, tMin, base1, n)
  {
    if n > 0 {
      GddSumAntitone(tMax, tMin, base1, base2, n - 1);
    }
  }

  /** Degree-days are reported exactly when the record is complete and some
      day's mean temperature exceeds the base; a complete record without such
      a day reports its number of days and the base. */
  lemma GddCalculatedIff(daily: Option<DailySeries>, baseTemp: real)
    requires Aligned(daily)
    ensures GddOutcome(daily, baseTemp).InsufficientData? <==> !Complete(daily)
    ensures GddOutcome(daily, baseTemp).GddCalculated? <==>
            Complete(daily) &&
            exists k :: 0 <= k < |daily.value.time.value| &&
                        (daily.value.tempMax.value[k] + daily.value.tempMin.value[k]) / 2.0 > baseTemp
    ensures GddOutcome(daily, baseTemp).NoGddAccumulated? ==>
            GddOutcome(daily, baseTemp) == NoGddAccumulated(|daily.value.time.value|, baseTemp)
  {
    if Complete(daily) {
      GddSumPositiveIff(daily.value.tempMax.value, daily.value.tempMin.value, baseTemp,
                        |daily.value.time.value|);
    }
  }

  /** The reported total is positive and is the sum of the reported per-day
      values, one per date. */
  lemma {:induction false} GddDetailsSumToTotal(daily: Option<DailySeries>, baseTemp: real)
    requires Aligned(daily) && GddOutcome(daily, baseTemp).GddCalculated?
    ensures var r := GddOutcome(daily, baseTemp);
            r.totalGdd > 0.0 && |r.details| == r.days == |daily.value.time.value| &&
            r.totalGdd == SumValues(r.details)
  {
    var dates := daily.value.time.value;
    SumValuesOfDetails(dates, daily.value.tempMax.value, daily.value.tempMin.value, baseTemp, |dates|);
  }

  /** Sum of the degree-day values of a list of entries. */
  function SumValues(ds: seq<GddEntry>): real {
    if ds == [] then 0.0 else SumValues(ds[..|ds| - 1]) + ds[|ds| - 1].gddValue
  }

  lemma {:induction false} SumValuesOfDetails(dates: seq<string>, tMax: seq<real>, tMin: seq<real>,
                                              baseTemp: real, n: nat)
    requires n <= |dates| && n <= |tMax| && n <= |tMin|
    ensures SumValues(GddDetails(dates, tMax, tMin, baseTemp, n)) == GddSum(tMax, tMin, baseTemp, n)
  {
    if n > 0 {
      SumValuesOfDetails(dates, tMax, tMin, baseTemp, n - 1);
      var ds := GddDetails(dates, tMax, tMin, baseTemp, n);
      assert ds[..n - 1] == GddDetails(dates, tMax, tMin, baseTemp, n - 1);
    }
  }

  /** A day of 30 and 20 degrees against a base of 10 gives 15 degree-days; a
      day of 10 and 5 gives none, clamped at zero. */
  lemma DailyGddExamples()
    ensures DailyGdd(30.0, 20.0, 10.0) == 15.0
    ensures DailyGdd(10.0, 5.0, 10.0) == 0.0
  {
  }
}

/** The planting window: periods whose temperature is in the planting band and
    for which moisture is expected in the period itself or the next one. */
module Planting {
  import opened Weather
  import opened Selection

  /** One ideal period: its start, temperature and rain probability. */
  datatype PlantingEntry = PlantingEntry(dt: int, temp: real, rainProb: real)

  datatype PlantingAlert =
    | PlantingWindowFound(firstDt: int, details: seq<PlantingEntry>)
    | NoPlantingWindow

  /** Rain likely enough, or a precipitation code present. */
  predicate Wet(p: Period, rainThr: real) {
    RainProb(p) >= rainThr || IsRaining(p)
  }

  /** End of the look-ahead from period i: i + 2, cut at the end of the forecast. */
  function LookAheadEnd(i: nat, n: nat): (e: nat)
    ensures e == if i + 2 < n then i + 2 else n
  {
    if i + 2 < n then i + 2 else n
  }

  /** Moisture is expected at i or i + 1 (when that period exists). */
  predicate MoistureOk(ps: seq<Period>, i: nat, rainThr: real) {
    exists j :: i <= j < LookAheadEnd(i, |ps|) && Wet(ps[j], rainThr)
  }

  predicate TempOk(p: Period, tMin: real, tMax: real) {
    tMin <= p.temp <= tMax
  }

  function PlantingFlags(ps: seq<Period>, tMin: real, tMax: real, rainThr: real): (flags: seq<bool>)
    ensures |flags| == |ps|
    ensures forall i :: 0 <= i < |ps| ==>
              (flags[i] <==> TempOk(ps[i], tMin, tMax) && MoistureOk(ps, i, rainThr))
  {
    seq(|ps|, i requires 0 <= i < |ps| => TempOk(ps[i], tMin, tMax) && MoistureOk(ps, i, rainThr))
  }

  /** The entry every period would contribute to the list. */
  function PlantingRecords(ps: seq<Period>): (rs: seq<PlantingEntry>)
    ensures |rs| == |ps|
    ensures forall k :: 0 <= k < |ps| ==> rs[k] == PlantingEntry(ps[k].dt, ps[k].temp, RainProb(ps[k]))
  {
    seq(|ps|, k requires 0 <= k < |ps| => PlantingEntry(ps[k].dt, ps[k].temp, RainProb(ps[k])))
  }

  /** The ideal periods, in order. */
  function IdealPeriods(ps: seq<Period>, tMin: real, tMax: real, rainThr: real): seq<PlantingEntry> {
    Pick(PlantingRecords(ps), Selected(PlantingFlags(ps, tMin, tMax, rainThr)))
  }

  function PlantingOutcome(ps: seq<Period>, tMin: real, tMax: real, rainThr: real): PlantingAlert {
    var details := IdealPeriods(ps, tMin, tMax, rainThr);
    if details == [] then NoPlantingWindow else PlantingWindowFound(details[0].dt, details)
  }

  /** The look-ahead of one period: scans it and the next one, stopping at
      the first that is wet. */
  method MoistureAhead(ps: seq<Period>, i: nat, rainThr: real) returns (rainOk: bool)
    requires i < |ps|
    ensures rainOk <==> MoistureOk(ps, i, rainThr)
  {
    rainOk := false;
    var j := i;
    var stop := if i + 2 < |ps| then i + 2 else |ps|;
    while j < stop
      invariant i <= j <= stop
      invariant forall l :: i <= l < j ==> !Wet(ps[l], rainThr)
    {
      if RainProb(ps[j]) >= rainThr || IsRaining(ps[j]) {
        rainOk := true;
        return;
      }
      j := j + 1;
    }
  }

  /** Checks every period's temperature and looks ahead for moisture, listing
      the periods that pass both. */
  method FindPlantingWindow(ps: seq<Period>, tMin: real, tMax: real, rainThr: real)
    returns (r: PlantingAlert)
    ensures r == PlantingOutcome(ps, tMin, tMax, rainThr)
  {
    ghost var flags := PlantingFlags(ps, tMin, tMax, rainThr);
    ghost var records := PlantingRecords(ps);
    var idealPeriods: seq<PlantingEntry> := [];
    var i := 0;
    while i < |ps|
      invariant 0 <= i <= |ps|
      invariant idealPeriods == Pick(records, Selected(flags[..i]))
    {
      var temp := ps[i].temp;
      var rainProb := RainProb(ps[i]);
      var tempOk := tMin <= temp <= tMax;
      var rainOk := MoistureAhead(ps, i, rainThr);
      SelectedStep(flags, i);
      PickAppend(records, Selected(flags[..i]), if flags[i] then [i] else []);
      if tempOk && rainOk {
        idealPeriods := idealPeriods + [PlantingEntry(ps[i].dt, temp, rainProb)];
      }
      i := i + 1;
    }
    assert flags[..i] == flags;
    if idealPeriods == [] {
      r := NoPlantingWindow;
    } else {
      r := PlantingWindowFound(idealPeriods[0].dt, idealPeriods);
    }
  }

  /** A window is reported exactly when some period is in the band and has
      moisture at it or right after it. */
  lemma PlantingFoundIff(ps: seq<Period>, tMin: real, tMax: real, rainThr: real)
    ensures PlantingOutcome(ps, tMin, tMax, rainThr).PlantingWindowFound? <==>
            exists i :: 0 <= i < |ps| && TempOk(ps[i], tMin, tMax) && MoistureOk(ps, i, rainThr)
  {
    var flags := PlantingFlags(ps, tMin, tMax, rainThr);
    SelectedEmpty(flags);
    if exists i :: 0 <= i < |ps| && TempOk(ps[i], tMin, tMax) && MoistureOk(ps, i, rainThr) {
      var i :| 0 <= i < |ps| && TempOk(ps[i], tMin, tMax) && MoistureOk(ps, i, rainThr);
      assert flags[i];
    }
  }

  /** The ideal indices are exactly the periods in the band with moisture at
      them or the next one, each once, in forecast order. */
  lemma IdealPeriodsExact(ps: seq<Period>, tMin: real, tMax: real, rainThr: real)
    ensures forall i :: 0 <= i < |ps| ==>
              (TempOk(ps[i], tMin, tMax) && MoistureOk(ps, i, rainThr) <==>
               i in Selected(PlantingFlags(ps, tMin, tMax, rainThr)))
    ensures forall a, b :: 0 <= a < b < |Selected(PlantingFlags(ps, tMin, tMax, rainThr))| ==>
              Selected(PlantingFlags(ps, tMin, tMax, rainThr))[a] < Selected(PlantingFlags(ps, tMin, tMax, rainThr))[b]
  {
    SelectedExact(PlantingFlags(ps, tMin, tMax, rainThr));
  }

  /** Each listed entry is the record of a period in the band that is wet or
      followed by a wet period. */
  lemma IdealEntriesAreIdeal(ps: seq<Period>, tMin: real, tMax: real, rainThr: real, q: nat)
    requires q < |IdealPeriods(ps, tMin, tMax, rainThr)|
    ensures var i := Selected(PlantingFlags(ps, tMin, tMax, rainThr))[q];
            IdealPeriods(ps, tMin, tMax, rainThr)[q] == PlantingEntry(ps[i].dt, ps[i].temp, RainProb(ps[i])) &&
            TempOk(ps[i], tMin, tMax) &&
            (Wet(ps[i], rainThr) || (i + 1 < |ps| && Wet(ps[i + 1], rainThr)))
  {
    var i := Selected(PlantingFlags(ps, tMin, tMax, rainThr))[q];
    assert MoistureOk(ps, i, rainThr);
    var j :| i <= j < LookAheadEnd(i, |ps|) && Wet(ps[j], rainThr);
  }

  /** Without moisture in the forecast no period is ideal, however mild. */
  lemma DryForecastHasNoPlantingWindow(ps: seq<Period>, tMin: real, tMax: real, rainThr: real)
    requires forall k :: 0 <= k < |ps| ==> !Wet(ps[k], rainThr)
    ensures PlantingOutcome(ps, tMin, tMax, rainThr) == NoPlantingWindow
  {
    PlantingFoundIff(ps, tMin, tMax, rainThr);
  }

  /** The last period only looks at itself: it is ideal exactly when it is in
      the band and wet. */
  lemma LastPeriodLooksAtItself(ps: seq<Period>, tMin: real, tMax: real, rainThr: real)
    requires ps != []
    ensures var n := |ps| - 1;
            PlantingFlags(ps, tMin, tMax, rainThr)[n] <==> TempOk(ps[n], tMin, tMax) && Wet(ps[n], rainThr)
  {
    var n := |ps| - 1;
    if Wet(ps[n], rainThr) {
      assert n <= n < LookAheadEnd(n, |ps|);
    }
  }
}

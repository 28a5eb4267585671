/** Frost and heat-stress alerts: every period whose minimum temperature is at
    or below the frost threshold (respectively whose maximum is at or above
    the heat threshold) is listed, in forecast order, and the first one is
    reported. */
module TemperatureRisk {
  import opened Weather
  import opened Selection

  /** One listed period: its start and the temperature that triggered it. */
  datatype TempEntry = TempEntry(dt: int, temp: real)

  datatype FrostAlert =
    | FrostRiskFound(firstTempMin: real, firstDt: int, details: seq<TempEntry>)
    | NoFrostRisk

  datatype HeatStressAlert =
    | HeatStressFound(firstTempMax: real, firstDt: int, details: seq<TempEntry>)
    | NoHeatStress

  // ---------------------------------------------------------------------
  // Frost.

  function FrostFlags(ps: seq<Period>, frostThr: real): (flags: seq<bool>)
    ensures |flags| == |ps|
    ensures forall k :: 0 <= k < |ps| ==> (flags[k] <==> ps[k].tempMin <= frostThr)
  {
    seq(|ps|, k requires 0 <= k < |ps| => ps[k].tempMin <= frostThr)
  }

  /** The entry every period would contribute to the frost list. */
  function FrostRecords(ps: seq<Period>): (rs: seq<TempEntry>)
    ensures |rs| == |ps|
    ensures forall k :: 0 <= k < |ps| ==> rs[k] == TempEntry(ps[k].dt, ps[k].tempMin)
  {
    seq(|ps|, k requires 0 <= k < |ps| => TempEntry(ps[k].dt, ps[k].tempMin))
  }

  /** The frost periods, in order. */
  function FrostPeriods(ps: seq<Period>, frostThr: real): seq<TempEntry> {
    Pick(FrostRecords(ps), Selected(FrostFlags(ps, frostThr)))
  }

  function FrostOutcome(ps: seq<Period>, frostThr: real): FrostAlert {
    var details := FrostPeriods(ps, frostThr);
    if details == [] then NoFrostRisk
    else FrostRiskFound(details[0].temp, details[0].dt, details)
  }

  /** Lists every period at or below the frost threshold, then reports the first. */
  method FindFrostRisk(ps: seq<Period>, frostThr: real) returns (r: FrostAlert)
    ensures r == FrostOutcome(ps, frostThr)
  {
    ghost var flags := FrostFlags(ps, frostThr);
    ghost var records := FrostRecords(ps);
    var frostPeriods: seq<TempEntry> := [];
    var i := 0;
    while i < |ps|
      invariant 0 <= i <= |ps|
      invariant frostPeriods == Pick(records, Selected(flags[..i]))
    {
      var tempMin := ps[i].tempMin;
      SelectedStep(flags, i);
      PickAppend(records, Selected(flags[..i]), if flags[i] then [i] else []);
      if tempMin <= frostThr {
        frostPeriods := frostPeriods + [TempEntry(ps[i].dt, tempMin)];
      }
      i := i + 1;
    }
    assert flags[..i] == flags;
    if frostPeriods == [] {
      r := NoFrostRisk;
    } else {
      r := FrostRiskFound(frostPeriods[0].temp, frostPeriods[0].dt, frostPeriods);
    }
  }

  /** Frost is reported exactly when some period's minimum reaches the threshold. */
  lemma FrostFoundIff(ps: seq<Period>, frostThr: real)
    ensures FrostOutcome(ps, frostThr).FrostRiskFound? <==>
            exists k :: 0 <= k < |ps| && ps[k].tempMin <= frostThr
  {
    var flags := FrostFlags(ps, frostThr);
    SelectedEmpty(flags);
    if exists k :: 0 <= k < |ps| && ps[k].tempMin <= frostThr {
      var k :| 0 <= k < |ps| && ps[k].tempMin <= frostThr;
      assert flags[k];
    }
  }

  /** The list holds exactly the frost periods, each once, in forecast order. */
  lemma FrostDetailsExact(ps: seq<Period>, frostThr: real)
    ensures forall k :: 0 <= k < |ps| ==>
              (ps[k].tempMin <= frostThr <==> k in Selected(FrostFlags(ps, frostThr)))
    ensures forall a, b :: 0 <= a < b < |Selected(FrostFlags(ps, frostThr))| ==>
              Selected(FrostFlags(ps, frostThr))[a] < Selected(FrostFlags(ps, frostThr))[b]
    ensures forall j :: 0 <= j < |FrostPeriods(ps, frostThr)| ==>
              var k := Selected(FrostFlags(ps, frostThr))[j];
              FrostPeriods(ps, frostThr)[j] == TempEntry(ps[k].dt, ps[k].tempMin) && ps[k].tempMin <= frostThr
  {
    SelectedExact(FrostFlags(ps, frostThr));
  }

  /** The reported frost is the earliest period at or below the threshold. */
  lemma FrostFirstIsEarliest(ps: seq<Period>, frostThr: real, k: nat)
    requires k < |ps| && ps[k].tempMin <= frostThr
    ensures FrostOutcome(ps, frostThr).FrostRiskFound?
    ensures exists f :: 0 <= f <= k && ps[f].tempMin <= frostThr &&
              FrostOutcome(ps, frostThr).firstDt == ps[f].dt &&
              FrostOutcome(ps, frostThr).firstTempMin == ps[f].tempMin
  {
    var flags := FrostFlags(ps, frostThr);
    assert flags[k];
    SelectedFirst(flags, k);
    var f := Selected(flags)[0];
    assert flags[f];
  }

  /** Minimum temperatures 3, 1, 2 and -1 against a threshold of 2: the three
      periods at or below 2 are listed, the one at exactly 2 among them. */
  lemma FrostThresholdIsInclusive()
    ensures var ps := [ExamplePeriod(0, 3.0), ExamplePeriod(10800, 1.0),
                       ExamplePeriod(21600, 2.0), ExamplePeriod(32400, -1.0)];
            FrostOutcome(ps, 2.0) ==
            FrostRiskFound(1.0, 10800, [TempEntry(10800, 1.0), TempEntry(21600, 2.0), TempEntry(32400, -1.0)])
  {
    var ps := [ExamplePeriod(0, 3.0), ExamplePeriod(10800, 1.0),
               ExamplePeriod(21600, 2.0), ExamplePeriod(32400, -1.0)];
    var flags := FrostFlags(ps, 2.0);
    assert flags == [false, true, true, true];
    assert flags[..0] == [];
    SelectedStep(flags, 0);
    SelectedStep(flags, 1);
    SelectedStep(flags, 2);
    SelectedStep(flags, 3);
    assert flags[..4] == flags;
  }

  /** A calm period with the given start and a single temperature for all readings. */
  function ExamplePeriod(dt: int, t: real): (p: Period)
    ensures p.dt == dt && p.tempMin == t && p.tempMax == t
  {
    Period(dt, 0.0, Options.None, [800], t, t, t, 50.0)
  }

  // ---------------------------------------------------------------------
  // Heat stress.

  function HeatFlags(ps: seq<Period>, heatThr: real): (flags: seq<bool>)
    ensures |flags| == |ps|
    ensures forall k :: 0 <= k < |ps| ==> (flags[k] <==> ps[k].tempMax >= heatThr)
  {
    seq(|ps|, k requires 0 <= k < |ps| => ps[k].tempMax >= heatThr)
  }

  /** The entry every period would contribute to the heat-stress list. */
  function HeatRecords(ps: seq<Period>): (rs: seq<TempEntry>)
    ensures |rs| == |ps|
    ensures forall k :: 0 <= k < |ps| ==> rs[k] == TempEntry(ps[k].dt, ps[k].tempMax)
  {
    seq(|ps|, k requires 0 <= k < |ps| => TempEntry(ps[k].dt, ps[k].tempMax))
  }

  /** The heat-stress periods, in order. */
  function HeatPeriods(ps: seq<Period>, heatThr: real): seq<TempEntry> {
    Pick(HeatRecords(ps), Selected(HeatFlags(ps, heatThr)))
  }

  function HeatStressOutcome(ps: seq<Period>, heatThr: real): HeatStressAlert {
    var details := HeatPeriods(ps, heatThr);
    if details == [] then NoHeatStress
    else HeatStressFound(details[0].temp, details[0].dt, details)
  }

  /** Lists every period at or above the heat threshold, then reports the first. */
  method FindHeatStressRisk(ps: seq<Period>, heatThr: real) returns (r: HeatStressAlert)
    ensures r == HeatStressOutcome(ps, heatThr)
  {
    ghost var flags := HeatFlags(ps, heatThr);
    ghost var records := HeatRecords(ps);
    var heatStressPeriods: seq<TempEntry> := [];
    var i := 0;
    while i < |ps|
      invariant 0 <= i <= |ps|
      invariant heatStressPeriods == Pick(records, Selected(flags[..i]))
    {
      var tempMax := ps[i].tempMax;
      SelectedStep(flags, i);
      PickAppend(records, Selected(flags[..i]), if flags[i] then [i] else []);
      if tempMax >= heatThr {
        heatStressPeriods := heatStressPeriods + [TempEntry(ps[i].dt, tempMax)];
      }
      i := i + 1;
    }
    assert flags[..i] == flags;
    if heatStressPeriods == [] {
      r := NoHeatStress;
    } else {
      r := HeatStressFound(heatStressPeriods[0].temp, heatStressPeriods[0].dt, heatStressPeriods);
    }
  }

  /** Heat stress is reported exactly when some period's maximum reaches the threshold. */
  lemma HeatStressFoundIff(ps: seq<Period>, heatThr: real)
    ensures HeatStressOutcome(ps, heatThr).HeatStressFound? <==>
            exists k :: 0 <= k < |ps| && ps[k].tempMax >= heatThr
  {
    var flags := HeatFlags(ps, heatThr);
    SelectedEmpty(flags);
    if exists k :: 0 <= k < |ps| && ps[k].tempMax >= heatThr {
      var k :| 0 <= k < |ps| && ps[k].tempMax >= heatThr;
      assert flags[k];
    }
  }

  /** The list holds exactly the hot periods, each once, in forecast order. */
  lemma HeatDetailsExact(ps: seq<Period>, heatThr: real)
    ensures forall k :: 0 <= k < |ps| ==>
              (ps[k].tempMax >= heatThr <==> k in Selected(HeatFlags(ps, heatThr)))
    ensures forall a, b :: 0 <= a < b < |Selected(HeatFlags(ps, heatThr))| ==>
              Selected(HeatFlags(ps, heatThr))[a] < Selected(HeatFlags(ps, heatThr))[b]
    ensures forall j :: 0 <= j < |HeatPeriods(ps, heatThr)| ==>
              var k := Selected(HeatFlags(ps, heatThr))[j];
              HeatPeriods(ps, heatThr)[j] == TempEntry(ps[k].dt, ps[k].tempMax) && ps[k].tempMax >= heatThr
  {
    SelectedExact(HeatFlags(ps, heatThr));
  }

  /** The reported heat stress is the earliest period at or above the threshold. */
  lemma HeatFirstIsEarliest(ps: seq<Period>, heatThr: real, k: nat)
    requires k < |ps| && ps[k].tempMax >= heatThr
    ensures HeatStressOutcome(ps, heatThr).HeatStressFound?
    ensures exists f :: 0 <= f <= k && ps[f].tempMax >= heatThr &&
              HeatStressOutcome(ps, heatThr).firstDt == ps[f].dt &&
              HeatStressOutcome(ps, heatThr).firstTempMax == ps[f].tempMax
  {
    var flags := HeatFlags(ps, heatThr);
    assert flags[k];
    SelectedFirst(flags, k);
    var f := Selected(flags)[0];
    assert flags[f];
  }
}

/** The irrigation recommendation: every maximal run of dry, hot periods that
    lasts long enough, all of them, in forecast order. */
module Irrigation {
  import opened Weather
  import opened Runs

  /** One period of a dry, hot run: its start, temperature and rain probability. */
  datatype IrrigationEntry = IrrigationEntry(dt: int, temp: real, rainProb: real)

  datatype IrrigationAlert =
    | IrrigationRecommended(totalHours: int, firstDt: int, details: seq<seq<IrrigationEntry>>)
    | NoIrrigationNeeded

  /** Rain unlikely, no precipitation code, temperature at or above the limit. */
  predicate DryAndHot(p: Period, noRainThr: real, tempThr: real) {
    RainProb(p) < noRainThr && !IsRaining(p) && p.temp >= tempThr
  }

  function IrrigationFlags(ps: seq<Period>, noRainThr: real, tempThr: real): (flags: seq<bool>)
    ensures |flags| == |ps|
    ensures forall k :: 0 <= k < |ps| ==> flags[k] == DryAndHot(ps[k], noRainThr, tempThr)
  {
    seq(|ps|, k requires 0 <= k < |ps| => DryAndHot(ps[k], noRainThr, tempThr))
  }

  /** The entry every period would contribute to a run. */
  function IrrigationRecords(ps: seq<Period>): (rs: seq<IrrigationEntry>)
    ensures |rs| == |ps|
    ensures forall k :: 0 <= k < |ps| ==> rs[k] == IrrigationEntry(ps[k].dt, ps[k].temp, RainProb(ps[k]))
  {
    seq(|ps|, k requires 0 <= k < |ps| => IrrigationEntry(ps[k].dt, ps[k].temp, RainProb(ps[k])))
  }

  /** The dry, hot runs: the records of every qualifying run, in order. */
  function IrrigationWindows(ps: seq<Period>, noRainThr: real, tempThr: real, minHours: real)
    : seq<seq<IrrigationEntry>>
  {
    var flags := IrrigationFlags(ps, noRainThr, tempThr);
    QualifyingRunsOrdered(flags, minHours);
    Pieces(IrrigationRecords(ps), QualifyingRuns(flags, minHours))
  }

  /** No listed run is empty. */
  lemma IrrigationWindowsNonEmpty(ps: seq<Period>, noRainThr: real, tempThr: real, minHours: real)
    ensures forall q :: 0 <= q < |IrrigationWindows(ps, noRainThr, tempThr, minHours)| ==>
              IrrigationWindows(ps, noRainThr, tempThr, minHours)[q] != []
  {
    QualifyingRunsOrdered(IrrigationFlags(ps, noRainThr, tempThr), minHours);
  }

  function IrrigationOutcome(ps: seq<Period>, noRainThr: real, tempThr: real, minHours: real): IrrigationAlert {
    IrrigationWindowsNonEmpty(ps, noRainThr, tempThr, minHours);
    var windows := IrrigationWindows(ps, noRainThr, tempThr, minHours);
    if windows == [] then NoIrrigationNeeded
    else IrrigationRecommended(3 * TotalSize(windows), windows[0][0].dt, windows)
  }

  /** The scan of the forecast: collects every run of dry, hot periods that
      reaches the minimum duration, closing a run at each other period and at
      the end of the forecast. */
  method CollectDryHotRuns(ps: seq<Period>, noRainThr: real, tempThr: real, minHours: real)
    returns (neededPeriods: seq<seq<IrrigationEntry>>)
    requires minHours > 0.0
    ensures neededPeriods == IrrigationWindows(ps, noRainThr, tempThr, minHours)
  {
    ghost var flags := IrrigationFlags(ps, noRainThr, tempThr);
    ghost var records := IrrigationRecords(ps);
    neededPeriods := [];
    var current: seq<IrrigationEntry> := [];
    var i := 0;
    while i < |ps|
      invariant 0 <= i <= |ps|
      invariant neededPeriods == Scan(records, flags, minHours, i).windows
      invariant current == Scan(records, flags, minHours, i).current
    {
      var rainProb := RainProb(ps[i]);
      var isRaining := IsRaining(ps[i]);
      var temp := ps[i].temp;
      if rainProb < noRainThr && !isRaining && temp >= tempThr {
        current := current + [IrrigationEntry(ps[i].dt, temp, rainProb)];
      } else {
        if (|current| * 3) as real >= minHours {
          neededPeriods := neededPeriods + [current];
        }
        current := [];
      }
      i := i + 1;
    }
    if (|current| * 3) as real >= minHours {
      neededPeriods := neededPeriods + [current];
    }
    ScanFindsQualifyingRuns(records, flags, minHours);
  }

  /** Reports the runs: none, or the start of the first one, the total hours
      of all of them, and all of them. */
  method FindIrrigationRecommendation(ps: seq<Period>, noRainThr: real, tempThr: real, minHours: real)
    returns (r: IrrigationAlert)
    requires minHours > 0.0
    ensures r == IrrigationOutcome(ps, noRainThr, tempThr, minHours)
  {
    var neededPeriods: seq<seq<IrrigationEntry>> := CollectDryHotRuns(ps, noRainThr, tempThr, minHours);
    if neededPeriods == [] {
      r := NoIrrigationNeeded;
    } else {
      IrrigationWindowsNonEmpty(ps, noRainThr, tempThr, minHours);
      var firstPeriodTime := neededPeriods[0][0].dt;
      var totalHours := TotalSize(neededPeriods) * 3;
      r := IrrigationRecommended(totalHours, firstPeriodTime, neededPeriods);
    }
  }

  // ---------------------------------------------------------------------
  // What the recommendation promises.

  /** Irrigation is recommended exactly when some maximal run of dry, hot
      periods is long enough. */
  lemma IrrigationFoundIff(ps: seq<Period>, noRainThr: real, tempThr: real, minHours: real)
    ensures IrrigationOutcome(ps, noRainThr, tempThr, minHours).IrrigationRecommended? <==>
            exists s: nat, e: nat :: IsMaximalRun(IrrigationFlags(ps, noRainThr, tempThr), s, e) &&
                                     Long(Span(s, e), minHours)
  {
    var flags := IrrigationFlags(ps, noRainThr, tempThr);
    QualifyingRunsExact(flags, minHours);
    var runs := QualifyingRuns(flags, minHours);
    if runs != [] {
      assert runs[0] in runs;
    }
  }

  /** The q-th listed run is the records of a maximal run of dry, hot periods
      that is long enough, and the runs come in forecast order without overlap. */
  lemma IrrigationWindowIsRun(ps: seq<Period>, noRainThr: real, tempThr: real, minHours: real, q: nat)
    returns (s: nat, e: nat)
    requires q < |IrrigationWindows(ps, noRainThr, tempThr, minHours)|
    ensures IsMaximalRun(IrrigationFlags(ps, noRainThr, tempThr), s, e) && Long(Span(s, e), minHours)
    ensures IrrigationWindows(ps, noRainThr, tempThr, minHours)[q] == IrrigationRecords(ps)[s..e]
    ensures forall k :: s <= k < e ==> DryAndHot(ps[k], noRainThr, tempThr)
    ensures q + 1 < |IrrigationWindows(ps, noRainThr, tempThr, minHours)| ==>
              e < QualifyingRuns(IrrigationFlags(ps, noRainThr, tempThr), minHours)[q + 1].start
  {
    var flags := IrrigationFlags(ps, noRainThr, tempThr);
    QualifyingRunsExact(flags, minHours);
    var runs := QualifyingRuns(flags, minHours);
    s, e := runs[q].start, runs[q].end;
    assert runs[q] in runs;
  }

  /** Every maximal run of dry, hot periods that is long enough is listed. */
  lemma IrrigationRunIsListed(ps: seq<Period>, noRainThr: real, tempThr: real, minHours: real, s: nat, e: nat)
    requires IsMaximalRun(IrrigationFlags(ps, noRainThr, tempThr), s, e) && Long(Span(s, e), minHours)
    ensures IrrigationRecords(ps)[s..e] in IrrigationWindows(ps, noRainThr, tempThr, minHours)
  {
    var flags := IrrigationFlags(ps, noRainThr, tempThr);
    QualifyingRunsExact(flags, minHours);
    var runs := QualifyingRuns(flags, minHours);
    var q :| 0 <= q < |runs| && runs[q] == Span(s, e);
    assert IrrigationWindows(ps, noRainThr, tempThr, minHours)[q] == IrrigationRecords(ps)[s..e];
  }

  /** The reported total is 3 hours per listed period: at least the minimum
      run and at most the whole forecast. */
  lemma IrrigationTotalHours(ps: seq<Period>, noRainThr: real, tempThr: real, minHours: real)
    requires IrrigationOutcome(ps, noRainThr, tempThr, minHours).IrrigationRecommended?
    ensures var r := IrrigationOutcome(ps, noRainThr, tempThr, minHours);
            r.totalHours == 3 * TotalLength(QualifyingRuns(IrrigationFlags(ps, noRainThr, tempThr), minHours)) &&
            minHours <= r.totalHours as real && r.totalHours <= 3 * |ps|
  {
    var flags := IrrigationFlags(ps, noRainThr, tempThr);
    var runs := QualifyingRuns(flags, minHours);
    QualifyingRunsExact(flags, minHours);
    TotalSizeOfPieces(IrrigationRecords(ps), runs);
    TotalLengthBounds(runs, 0, |ps|);
    assert runs[0] in runs;
    TotalLengthAtLeastFirst(runs, |ps|);
  }

  /** The first reported time is the start of the earliest long-enough run. */
  lemma IrrigationFirstIsEarliest(ps: seq<Period>, noRainThr: real, tempThr: real, minHours: real, s: nat, e: nat)
    requires IsMaximalRun(IrrigationFlags(ps, noRainThr, tempThr), s, e) && Long(Span(s, e), minHours)
    ensures IrrigationOutcome(ps, noRainThr, tempThr, minHours).IrrigationRecommended?
    ensures exists f: nat, g: nat :: f <= s && IsMaximalRun(IrrigationFlags(ps, noRainThr, tempThr), f, g) &&
                                     Long(Span(f, g), minHours) &&
                                     IrrigationOutcome(ps, noRainThr, tempThr, minHours).firstDt == ps[f].dt
  {
    var flags := IrrigationFlags(ps, noRainThr, tempThr);
    FirstQualifyingIsEarliest(flags, minHours, s, e);
    QualifyingRunsExact(flags, minHours);
    var runs := QualifyingRuns(flags, minHours);
    assert runs[0] in runs;
    var f, g := runs[0].start, runs[0].end;
    assert Span(f, g) == runs[0];
    assert IrrigationOutcome(ps, noRainThr, tempThr, minHours).firstDt == ps[f].dt;
  }


  /** Rain in every period rules irrigation out, however hot. */
  lemma RainyForecastNeedsNoIrrigation(ps: seq<Period>, noRainThr: real, tempThr: real, minHours: real)
    requires forall k :: 0 <= k < |ps| ==> RainProb(ps[k]) >= noRainThr
    ensures IrrigationOutcome(ps, noRainThr, tempThr, minHours) == NoIrrigationNeeded
  {
    IrrigationFoundIff(ps, noRainThr, tempThr, minHours);
    var flags := IrrigationFlags(ps, noRainThr, tempThr);
    forall s: nat, e: nat | s < e <= |flags|
      ensures !IsMaximalRun(flags, s, e)
    {
      assert !flags[s];
    }
  }
}

/** The harvesting windows: every maximal run of dry periods with low humidity
    that lasts long enough, all of them, in forecast order. */
module Harvesting {
  import opened Weather
  import opened Runs

  /** One period of a window: its start, temperature, humidity and wind. */
  datatype HarvestEntry = HarvestEntry(dt: int, temp: real, humidity: real, windSpeed: real)

  datatype HarvestAlert =
    | HarvestWindowFound(totalHours: int, firstDt: int, details: seq<seq<HarvestEntry>>)
    | NoHarvestWindow

  /** Rain unlikely, no precipitation code, humidity below the limit. */
  predicate GoodForHarvest(p: Period, rainThr: real, humThr: real) {
    RainProb(p) < rainThr && !IsRaining(p) && p.humidity < humThr
  }

  function HarvestFlags(ps: seq<Period>, rainThr: real, humThr: real): (flags: seq<bool>)
    ensures |flags| == |ps|
    ensures forall k :: 0 <= k < |ps| ==> flags[k] == GoodForHarvest(ps[k], rainThr, humThr)
  {
    seq(|ps|, k requires 0 <= k < |ps| => GoodForHarvest(ps[k], rainThr, humThr))
  }

  /** The entry every period would contribute to a window. */
  function HarvestRecords(ps: seq<Period>): (rs: seq<HarvestEntry>)
    ensures |rs| == |ps|
    ensures forall k :: 0 <= k < |ps| ==> rs[k] == HarvestEntry(ps[k].dt, ps[k].temp, ps[k].humidity, ps[k].windSpeed)
  {
    seq(|ps|, k requires 0 <= k < |ps| => HarvestEntry(ps[k].dt, ps[k].temp, ps[k].humidity, ps[k].windSpeed))
  }

  /** The windows: the records of every qualifying run, in order. */
  function HarvestWindows(ps: seq<Period>, rainThr: real, humThr: real, minHours: real): seq<seq<HarvestEntry>> {
    var flags := HarvestFlags(ps, rainThr, humThr);
    QualifyingRunsOrdered(flags, minHours);
    Pieces(HarvestRecords(ps), QualifyingRuns(flags, minHours))
  }

  /** No window is empty. */
  lemma HarvestWindowsNonEmpty(ps: seq<Period>, rainThr: real, humThr: real, minHours: real)
    ensures forall q :: 0 <= q < |HarvestWindows(ps, rainThr, humThr, minHours)| ==>
              HarvestWindows(ps, rainThr, humThr, minHours)[q] != []
  {
    QualifyingRunsOrdered(HarvestFlags(ps, rainThr, humThr), minHours);
  }

  function HarvestOutcome(ps: seq<Period>, rainThr: real, humThr: real, minHours: real): HarvestAlert {
    HarvestWindowsNonEmpty(ps, rainThr, humThr, minHours);
    var windows := HarvestWindows(ps, rainThr, humThr, minHours);
    if windows == [] then NoHarvestWindow
    else HarvestWindowFound(3 * TotalSize(windows), windows[0][0].dt, windows)
  }

  /** The scan of the forecast: collects every run of good periods that
      reaches the minimum duration, closing a run at each bad period and at
      the end of the forecast. */
  method CollectHarvestWindows(ps: seq<Period>, rainThr: real, humThr: real, minHours: real)
    returns (idealPeriods: seq<seq<HarvestEntry>>)
    requires minHours > 0.0
    ensures idealPeriods == HarvestWindows(ps, rainThr, humThr, minHours)
  {
    ghost var flags := HarvestFlags(ps, rainThr, humThr);
    ghost var records := HarvestRecords(ps);
    idealPeriods := [];
    var current: seq<HarvestEntry> := [];
    var i := 0;
    while i < |ps|
      invariant 0 <= i <= |ps|
      invariant idealPeriods == Scan(records, flags, minHours, i).windows
      invariant current == Scan(records, flags, minHours, i).current
    {
      var rainProb := RainProb(ps[i]);
      var isRaining := IsRaining(ps[i]);
      var humidity := ps[i].humidity;
      if rainProb < rainThr && !isRaining && humidity < humThr {
        current := current + [HarvestEntry(ps[i].dt, ps[i].temp, humidity, ps[i].windSpeed)];
      } else {
        if (|current| * 3) as real >= minHours {
          idealPeriods := idealPeriods + [current];
        }
        current := [];
      }
      i := i + 1;
    }
    if (|current| * 3) as real >= minHours {
      idealPeriods := idealPeriods + [current];
    }
    ScanFindsQualifyingRuns(records, flags, minHours);
  }

  /** Reports the windows: none, or the start of the first one, the total
      hours of all of them, and all of them. */
  method FindHarvestingWindow(ps: seq<Period>, rainThr: real, humThr: real, minHours: real)
    returns (r: HarvestAlert)
    requires minHours > 0.0
    ensures r == HarvestOutcome(ps, rainThr, humThr, minHours)
  {
    var idealPeriods: seq<seq<HarvestEntry>> := CollectHarvestWindows(ps, rainThr, humThr, minHours);
    if idealPeriods == [] {
      r := NoHarvestWindow;
    } else {
      HarvestWindowsNonEmpty(ps, rainThr, humThr, minHours);
      var firstIdealTime := idealPeriods[0][0].dt;
      var totalIdealHours := TotalSize(idealPeriods) * 3;
      r := HarvestWindowFound(totalIdealHours, firstIdealTime, idealPeriods);
    }
  }

  // ---------------------------------------------------------------------
  // What the harvesting alert promises.

  /** A window is reported exactly when some maximal run of good periods is long enough. */
  lemma HarvestFoundIff(ps: seq<Period>, rainThr: real, humThr: real, minHours: real)
    ensures HarvestOutcome(ps, rainThr, humThr, minHours).HarvestWindowFound? <==>
            exists s: nat, e: nat :: IsMaximalRun(HarvestFlags(ps, rainThr, humThr), s, e) &&
                                     Long(Span(s, e), minHours)
  {
    var flags := HarvestFlags(ps, rainThr, humThr);
    QualifyingRunsExact(flags, minHours);
    var runs := QualifyingRuns(flags, minHours);
    if runs != [] {
      assert runs[0] in runs;
    }
  }

  /** The q-th listed window is the records of a maximal run of good periods
      that is long enough, and windows come in forecast order without overlap. */
  lemma HarvestWindowIsRun(ps: seq<Period>, rainThr: real, humThr: real, minHours: real, q: nat)
    returns (s: nat, e: nat)
    requires q < |HarvestWindows(ps, rainThr, humThr, minHours)|
    ensures IsMaximalRun(HarvestFlags(ps, rainThr, humThr), s, e) && Long(Span(s, e), minHours)
    ensures HarvestWindows(ps, rainThr, humThr, minHours)[q] == HarvestRecords(ps)[s..e]
    ensures forall k :: s <= k < e ==> GoodForHarvest(ps[k], rainThr, humThr)
    ensures q + 1 < |HarvestWindows(ps, rainThr, humThr, minHours)| ==>
              e < QualifyingRuns(HarvestFlags(ps, rainThr, humThr), minHours)[q + 1].start
  {
    var flags := HarvestFlags(ps, rainThr, humThr);
    QualifyingRunsExact(flags, minHours);
    var runs := QualifyingRuns(flags, minHours);
    s, e := runs[q].start, runs[q].end;
    assert runs[q] in runs;
  }

  /** Every maximal run of good periods that is long enough is listed. */
  lemma HarvestRunIsListed(ps: seq<Period>, rainThr: real, humThr: real, minHours: real, s: nat, e: nat)
    requires IsMaximalRun(HarvestFlags(ps, rainThr, humThr), s, e) && Long(Span(s, e), minHours)
    ensures HarvestRecords(ps)[s..e] in HarvestWindows(ps, rainThr, humThr, minHours)
  {
    var flags := HarvestFlags(ps, rainThr, humThr);
    QualifyingRunsExact(flags, minHours);
    var runs := QualifyingRuns(flags, minHours);
    var q :| 0 <= q < |runs| && runs[q] == Span(s, e);
    assert HarvestWindows(ps, rainThr, humThr, minHours)[q] == HarvestRecords(ps)[s..e];
  }

  /** The reported total is 3 hours per listed period: at least the minimum
      window and at most the whole forecast. */
  lemma HarvestTotalHours(ps: seq<Period>, rainThr: real, humThr: real, minHours: real)
    requires HarvestOutcome(ps, rainThr, humThr, minHours).HarvestWindowFound?
    ensures var r := HarvestOutcome(ps, rainThr, humThr, minHours);
            r.totalHours == 3 * TotalLength(QualifyingRuns(HarvestFlags(ps, rainThr, humThr), minHours)) &&
            minHours <= r.totalHours as real && r.totalHours <= 3 * |ps|
  {
    var flags := HarvestFlags(ps, rainThr, humThr);
    var runs := QualifyingRuns(flags, minHours);
    QualifyingRunsExact(flags, minHours);
    TotalSizeOfPieces(HarvestRecords(ps), runs);
    TotalLengthBounds(runs, 0, |ps|);
    assert runs[0] in runs;
    TotalLengthAtLeastFirst(runs, |ps|);
  }

  /** The first reported time is the start of the earliest long-enough run. */
  lemma HarvestFirstIsEarliest(ps: seq<Period>, rainThr: real, humThr: real, minHours: real, s: nat, e: nat)
    requires IsMaximalRun(HarvestFlags(ps, rainThr, humThr), s, e) && Long(Span(s, e), minHours)
    ensures HarvestOutcome(ps, rainThr, humThr, minHours).HarvestWindowFound?
    ensures exists f: nat, g: nat :: f <= s && IsMaximalRun(HarvestFlags(ps, rainThr, humThr), f, g) &&
                                     Long(Span(f, g), minHours) &&
                                     HarvestOutcome(ps, rainThr, humThr, minHours).firstDt == ps[f].dt
  {
    var flags := HarvestFlags(ps, rainThr, humThr);
    FirstQualifyingIsEarliest(flags, minHours, s, e);
    QualifyingRunsExact(flags, minHours);
    var runs := QualifyingRuns(flags, minHours);
    assert runs[0] in runs;
    var f, g := runs[0].start, runs[0].end;
    assert Span(f, g) == runs[0];
    assert HarvestOutcome(ps, rainThr, humThr, minHours).firstDt == ps[f].dt;
  }

}

/** The spraying window: the first contiguous run of calm, dry periods that is
    long enough. */
module Spraying {
  import opened Weather
  import opened Runs

  /** Wind below the limit, rain probability below the limit, no precipitation code. */
  predicate GoodForSpraying(p: Period, windThr: real, rainThr: real) {
    p.windSpeed < windThr && RainProb(p) < rainThr && !IsRaining(p)
  }

  function SprayFlags(ps: seq<Period>, windThr: real, rainThr: real): (flags: seq<bool>)
    ensures |flags| == |ps|
    ensures forall i :: 0 <= i < |ps| ==> flags[i] == GoodForSpraying(ps[i], windThr, rainThr)
  {
    seq(|ps|, i requires 0 <= i < |ps| => GoodForSpraying(ps[i], windThr, rainThr))
  }

  /** Metres per second to kilometres per hour. */
  function MpsToKmh(mps: real): real {
    mps * 3.6
  }

  /** The conversion loses nothing (dividing by 3.6 gives the speed back)
      and keeps the order of speeds, so a comparison in m/s holds in km/h. */
  lemma MpsToKmhPreservesOrder(a: real, b: real)
    ensures MpsToKmh(a) / 3.6 == a
    ensures a < b <==> MpsToKmh(a) < MpsToKmh(b)
    ensures a == b <==> MpsToKmh(a) == MpsToKmh(b)
  {
  }

  /** Sum of the wind speeds of the periods. */
  function WindSum(ps: seq<Period>): real {
    if ps == [] then 0.0 else ps[0].windSpeed + WindSum(ps[1..])
  }

  /** Mean wind speed of a non-empty list of periods. */
  function MeanWind(w: seq<Period>): real
    requires w != []
  {
    WindSum(w) / |w| as real
  }

  datatype SprayingAlert =
    | SprayWindowFound(durationHours: int, startDt: int, endDt: int, avgWindKmh: real)
    | NoSprayWindow(minWindowHours: real)

  /** The periods of the earliest qualifying run, or none. */
  function SprayWindow(ps: seq<Period>, windThr: real, rainThr: real, minHours: real): seq<Period> {
    var flags := SprayFlags(ps, windThr, rainThr);
    QualifyingRunsOrdered(flags, minHours);
    var runs := QualifyingRuns(flags, minHours);
    if runs == [] then [] else ps[runs[0].start..runs[0].end]
  }

  /** The alert for the earliest qualifying run: its hours, its first period's
      start, the end of its last period, and its mean wind in km/h. */
  function SprayingOutcome(ps: seq<Period>, windThr: real, rainThr: real, minHours: real): SprayingAlert {
    var w := SprayWindow(ps, windThr, rainThr, minHours);
    if w == [] then NoSprayWindow(minHours)
    else
      SprayWindowFound(3 * |w|, w[0].dt, w[|w| - 1].dt + PeriodSeconds,
                       MpsToKmh(MeanWind(w)))
  }

  /** The scan of the forecast: extends the current run while periods are
      good and stops at the first run that reaches the minimum duration. */
  method FirstSprayWindow(ps: seq<Period>, windThr: real, rainThr: real, minHours: real)
    returns (best: seq<Period>)
    requires minHours > 0.0
    ensures best == SprayWindow(ps, windThr, rainThr, minHours)
  {
    ghost var flags := SprayFlags(ps, windThr, rainThr);
    best := [];
    var current: seq<Period> := [];
    var i := 0;
    while i < |ps|
      invariant 0 <= i <= |ps|
      invariant Scan(ps, flags, minHours, i).windows == []
      invariant current == Scan(ps, flags, minHours, i).current
      invariant best == []
    {
      var windSpeed := ps[i].windSpeed;
      var rainProb := RainProb(ps[i]);
      var isRaining := IsRaining(ps[i]);
      if windSpeed < windThr && rainProb < rainThr && !isRaining {
        current := current + [ps[i]];
      } else {
        if (|current| * 3) as real >= minHours {
          best := current;
          break;
        }
        current := [];
      }
      i := i + 1;
    }
    // Out of the loop, `current` holds the run that ends at i: either the
    // first long run (after a break) or the run that reaches the end.
    if best == [] && (|current| * 3) as real >= minHours {
      best := current;
    }
    FirstRunFound(ps, windThr, rainThr, minHours, i, best);
  }

  /** What the scan has found when it stops at i, before or at the end. */
  lemma FirstRunFound(ps: seq<Period>, windThr: real, rainThr: real, minHours: real, i: nat,
                      best: seq<Period>)
    requires minHours > 0.0 && i <= |ps|
    requires Scan(ps, SprayFlags(ps, windThr, rainThr), minHours, i).windows == []
    requires i < |ps| ==> !GoodForSpraying(ps[i], windThr, rainThr)
    requires var current := Scan(ps, SprayFlags(ps, windThr, rainThr), minHours, i).current;
             best == if (|current| * 3) as real >= minHours then current else []
    requires i < |ps| ==> best != []
    ensures best == SprayWindow(ps, windThr, rainThr, minHours)
  {
    var flags := SprayFlags(ps, windThr, rainThr);
    var start, done := ScanTracksRuns(ps, flags, minHours, i);
    assert done == [];
    if i < |ps| {
      LongIsNonEmpty(Span(start, i), minHours);
      CloseLongRun(flags, start, i, minHours);
    } else {
      CloseLastRun(flags, start, minHours);
    }
  }

  /** Reports the window: none when the scan found none, otherwise its hours,
      its start, its end and its mean wind. */
  method FindSprayingWindow(ps: seq<Period>, windThr: real, rainThr: real, minHours: real)
    returns (r: SprayingAlert)
    requires minHours > 0.0
    ensures r == SprayingOutcome(ps, windThr, rainThr, minHours)
  {
    var bestWindow: seq<Period> := FirstSprayWindow(ps, windThr, rainThr, minHours);
    SprayWindowFoundIff(ps, windThr, rainThr, minHours);
    var durationHours := |bestWindow| * 3;
    if (durationHours as real) < minHours {
      r := NoSprayWindow(minHours);
      return;
    }
    var avgWind := MpsToKmh(MeanWind(bestWindow));
    r := SprayWindowFound(durationHours, bestWindow[0].dt, bestWindow[|bestWindow| - 1].dt + PeriodSeconds, avgWind);
  }

  // ---------------------------------------------------------------------
  // What the spraying alert promises.

  /** The window, when there is one, is the records of a maximal run of good
      periods that is long enough. */
  lemma SprayWindowIsRun(ps: seq<Period>, windThr: real, rainThr: real, minHours: real)
    returns (s: nat, e: nat)
    requires SprayWindow(ps, windThr, rainThr, minHours) != []
    ensures IsMaximalRun(SprayFlags(ps, windThr, rainThr), s, e) && Long(Span(s, e), minHours)
    ensures SprayWindow(ps, windThr, rainThr, minHours) == ps[s..e]
    ensures s == QualifyingRuns(SprayFlags(ps, windThr, rainThr), minHours)[0].start
  {
    var flags := SprayFlags(ps, windThr, rainThr);
    QualifyingRunsExact(flags, minHours);
    var runs := QualifyingRuns(flags, minHours);
    s, e := runs[0].start, runs[0].end;
    assert runs[0] in runs;
  }

  /** No maximal run of good periods that is long enough starts before the window. */
  lemma SprayWindowIsEarliest(ps: seq<Period>, windThr: real, rainThr: real, minHours: real, s': nat, e': nat)
    requires IsMaximalRun(SprayFlags(ps, windThr, rainThr), s', e') && Long(Span(s', e'), minHours)
    ensures SprayWindow(ps, windThr, rainThr, minHours) != []
    ensures exists s, e :: 0 <= s <= s' && s <= e <= |ps| && SprayWindow(ps, windThr, rainThr, minHours) == ps[s..e] &&
                           IsMaximalRun(SprayFlags(ps, windThr, rainThr), s, e)
  {
    var flags := SprayFlags(ps, windThr, rainThr);
    FirstQualifyingIsEarliest(flags, minHours, s', e');
    QualifyingRunsOrdered(flags, minHours);
    var r0 := QualifyingRuns(flags, minHours)[0];
    assert |ps[r0.start..r0.end]| > 0;
    var s, e := SprayWindowIsRun(ps, windThr, rainThr, minHours);
  }

  /** The window is empty exactly when no maximal run of good periods is long
      enough; otherwise it reaches the minimum duration. */
  lemma SprayWindowFoundIff(ps: seq<Period>, windThr: real, rainThr: real, minHours: real)
    ensures SprayWindow(ps, windThr, rainThr, minHours) != [] <==>
            exists s: nat, e: nat :: IsMaximalRun(SprayFlags(ps, windThr, rainThr), s, e) &&
                                     Long(Span(s, e), minHours)
    ensures SprayWindow(ps, windThr, rainThr, minHours) != [] ==>
            (3 * |SprayWindow(ps, windThr, rainThr, minHours)|) as real >= minHours
  {
    var flags := SprayFlags(ps, windThr, rainThr);
    if SprayWindow(ps, windThr, rainThr, minHours) != [] {
      var s, e := SprayWindowIsRun(ps, windThr, rainThr, minHours);
    } else if exists s: nat, e: nat :: IsMaximalRun(flags, s, e) && Long(Span(s, e), minHours) {
      var s: nat, e: nat :| IsMaximalRun(flags, s, e) && Long(Span(s, e), minHours);
      SprayWindowIsEarliest(ps, windThr, rainThr, minHours, s, e);
    }
  }

  /** A window is reported exactly when some maximal run of good periods is long enough. */
  lemma SprayingFoundIff(ps: seq<Period>, windThr: real, rainThr: real, minHours: real)
    ensures SprayingOutcome(ps, windThr, rainThr, minHours).SprayWindowFound? <==>
            exists s: nat, e: nat :: IsMaximalRun(SprayFlags(ps, windThr, rainThr), s, e) &&
                                     Long(Span(s, e), minHours)
  {
    SprayWindowFoundIff(ps, windThr, rainThr, minHours);
  }

  /** The report describes the window's periods ps[s..e): 3 hours per
      period, from the start of its first period to 3 hours after the start of
      its last, with the mean wind of its periods. */
  lemma SprayingReportDescribesRun(ps: seq<Period>, windThr: real, rainThr: real, minHours: real)
    returns (s: nat, e: nat)
    requires SprayingOutcome(ps, windThr, rainThr, minHours).SprayWindowFound?
    ensures s < e <= |ps| && SprayWindow(ps, windThr, rainThr, minHours) == ps[s..e]
    ensures var r := SprayingOutcome(ps, windThr, rainThr, minHours);
            r.durationHours == 3 * (e - s) && r.startDt == ps[s].dt && r.endDt == ps[e - 1].dt + PeriodSeconds &&
            r.avgWindKmh == MpsToKmh(MeanWind(ps[s..e]))
  {
    var w := SprayWindow(ps, windThr, rainThr, minHours);
    assert w != [];
    s, e := SprayWindowSpan(ps, windThr, rainThr, minHours);
    assert w[0] == ps[s] && w[|w| - 1] == ps[e - 1];
  }

  /** A non-empty window is a slice of the forecast. */
  lemma SprayWindowSpan(ps: seq<Period>, windThr: real, rainThr: real, minHours: real)
    returns (s: nat, e: nat)
    requires SprayWindow(ps, windThr, rainThr, minHours) != []
    ensures s < e <= |ps| && SprayWindow(ps, windThr, rainThr, minHours) == ps[s..e]
  {
    s, e := SprayWindowIsRun(ps, windThr, rainThr, minHours);
  }

  lemma {:induction false} WindSumBelow(w: seq<Period>, windThr: real)
    requires forall k :: 0 <= k < |w| ==> w[k].windSpeed < windThr
    ensures w != [] ==> WindSum(w) < |w| as real * windThr
    ensures WindSum(w) <= |w| as real * windThr
  {
    if w != [] {
      WindSumBelow(w[1..], windThr);
    }
  }

  /** Every period of the window is good for spraying. */
  lemma SprayWindowAllGood(ps: seq<Period>, windThr: real, rainThr: real, minHours: real)
    ensures var w := SprayWindow(ps, windThr, rainThr, minHours);
            forall k :: 0 <= k < |w| ==> GoodForSpraying(w[k], windThr, rainThr)
  {
    var w := SprayWindow(ps, windThr, rainThr, minHours);
    if w != [] {
      var s, e := SprayWindowIsRun(ps, windThr, rainThr, minHours);
      forall k | 0 <= k < |w| ensures GoodForSpraying(w[k], windThr, rainThr) {
        assert w[k] == ps[s + k];
      }
    }
  }

  /** The reported mean wind is below the spraying wind limit, in km/h. */
  lemma SprayingWindBelowLimit(ps: seq<Period>, windThr: real, rainThr: real, minHours: real)
    requires SprayingOutcome(ps, windThr, rainThr, minHours).SprayWindowFound?
    ensures SprayingOutcome(ps, windThr, rainThr, minHours).avgWindKmh < MpsToKmh(windThr)
  {
    var w := SprayWindow(ps, windThr, rainThr, minHours);
    assert forall k :: 0 <= k < |w| ==> w[k].windSpeed < windThr by {
      SprayWindowAllGood(ps, windThr, rainThr, minHours);
    }
    WindSumBelow(w, windThr);
    DivBelow(WindSum(w), |w| as real, windThr);
    assert MeanWind(w) < windThr;
    MpsToKmhPreservesOrder(MeanWind(w), windThr);
  }

  lemma DivBelow(a: real, n: real, t: real)
    requires n > 0.0 && a < n * t
    ensures a / n < t
  {
    assert a / n * n == a;
  }
}

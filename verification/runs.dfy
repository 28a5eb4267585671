/** Contiguous runs of "good" forecast periods.

    A scanner marks every period good or bad (a sequence of flags) and is
    interested in the maximal runs of consecutive good periods whose duration,
    3 hours per period, reaches a minimum.  This module defines those runs
    declaratively and proves what the window scanners rely on. */
module Runs {

  /** The half-open index interval [start, end) of a run of periods. */
  datatype Span = Span(start: nat, end: nat)

  /** Hours covered by a run: 3 per period. */
  function Hours(sp: Span): int {
    3 * (sp.end - sp.start)
  }

  /** A run is long enough when its hours reach the minimum window. */
  predicate Long(sp: Span, minHours: real) {
    Hours(sp) as real >= minHours
  }

  /** With a positive minimum, a long run is not empty. */
  lemma LongIsNonEmpty(sp: Span, minHours: real)
    requires minHours > 0.0 && Long(sp, minHours)
    ensures sp.start < sp.end
  {
  }

  /** flags[s..e] is a non-empty run of true flags that cannot be extended on
      either side. */
  ghost predicate IsMaximalRun(flags: seq<bool>, s: nat, e: nat) {
    && s < e <= |flags|
    && (forall k :: s <= k < e ==> flags[k])
    && (s == 0 || !flags[s - 1])
    && (e == |flags| || !flags[e])
  }

  /** The spans lie inside `flags`, each is non-empty, and they come in
      chronological order with at least one bad period between neighbours. */
  ghost predicate Ordered(spans: seq<Span>, n: nat) {
    && (forall k :: 0 <= k < |spans| ==> spans[k].start < spans[k].end <= n)
    && (forall k, l :: 0 <= k < l < |spans| ==> spans[k].end < spans[l].start)
  }

  /** Number of consecutive true flags starting at index i. */
  function RunLength(flags: seq<bool>, i: nat): (n: nat)
    requires i <= |flags|
    ensures i + n <= |flags|
    ensures forall k :: i <= k < i + n ==> flags[k]
    ensures i + n == |flags| || !flags[i + n]
    decreases |flags| - i
  {
    if i < |flags| && flags[i] then 1 + RunLength(flags, i + 1) else 0
  }

  /** The maximal runs of true flags lying in flags[i..], in order. */
  function RunsFrom(flags: seq<bool>, i: nat): seq<Span>
    requires i <= |flags|
    decreases |flags| - i
  {
    if i == |flags| then []
    else if !flags[i] then RunsFrom(flags, i + 1)
    else
      var n := RunLength(flags, i);
      [Span(i, i + n)] + RunsFrom(flags, i + n)
  }

  /** The spans that are long enough, in their original order. */
  function Qualifying(spans: seq<Span>, minHours: real): seq<Span> {
    if spans == [] then []
    else (if Long(spans[0], minHours) then [spans[0]] else []) + Qualifying(spans[1..], minHours)
  }

  /** All maximal runs of the whole sequence that reach the minimum duration. */
  function QualifyingRuns(flags: seq<bool>, minHours: real): seq<Span> {
    Qualifying(RunsFrom(flags, 0), minHours)
  }

  /** Total number of periods covered by the spans. */
  function TotalLength(spans: seq<Span>): int {
    if spans == [] then 0 else (spans[0].end - spans[0].start) + TotalLength(spans[1..])
  }

  /** The slices of `xs` that the spans select, one slice per span. */
  function Pieces<T>(xs: seq<T>, spans: seq<Span>): (r: seq<seq<T>>)
    requires forall k :: 0 <= k < |spans| ==> spans[k].start <= spans[k].end <= |xs|
    ensures |r| == |spans|
    ensures forall k :: 0 <= k < |r| ==> r[k] == xs[spans[k].start..spans[k].end]
  {
    seq(|spans|, k requires 0 <= k < |spans| => xs[spans[k].start..spans[k].end])
  }

  /** Sum of the lengths of a list of windows. */
  function TotalSize<T>(windows: seq<seq<T>>): int {
    if windows == [] then 0 else |windows[0]| + TotalSize(windows[1..])
  }

  // ---------------------------------------------------------------------
  // What the run list is: exactly the maximal runs, in order.

  /** i does not lie strictly inside a run of true flags. */
  ghost predicate AtBoundary(flags: seq<bool>, i: nat) {
    i == 0 || i >= |flags| || !flags[i - 1] || !flags[i]
  }

  /** Every run found from index i lies inside flags[i..] and is non-empty. */
  lemma {:induction false} RunsFromBounds(flags: seq<bool>, i: nat)
    requires i <= |flags|
    ensures forall k :: 0 <= k < |RunsFrom(flags, i)| ==>
              i <= RunsFrom(flags, i)[k].start < RunsFrom(flags, i)[k].end <= |flags|
    decreases |flags| - i
  {
    if i == |flags| {
    } else if !flags[i] {
      RunsFromBounds(flags, i + 1);
    } else {
      RunsFromBounds(flags, i + RunLength(flags, i));
    }
  }

  lemma {:induction false} RunsFromSound(flags: seq<bool>, i: nat)
    requires i <= |flags| && AtBoundary(flags, i)
    ensures Ordered(RunsFrom(flags, i), |flags|)
    ensures forall k :: 0 <= k < |RunsFrom(flags, i)| ==>
              IsMaximalRun(flags, RunsFrom(flags, i)[k].start, RunsFrom(flags, i)[k].end)
    decreases |flags| - i
  {
    if i == |flags| {
    } else if !flags[i] {
      RunsFromSound(flags, i + 1);
    } else {
      var n := RunLength(flags, i);
      RunsFromSound(flags, i + n);
      RunsFromBounds(flags, i + n);
      var rest := RunsFrom(flags, i + n);
      assert RunsFrom(flags, i) == [Span(i, i + n)] + rest;
      assert IsMaximalRun(flags, i, i + n);
      forall k | 0 <= k < |rest| ensures i + n < rest[k].start {
        assert flags[rest[k].start];
      }
    }
  }

  lemma {:induction false} RunsFromComplete(flags: seq<bool>, i: nat, s: nat, e: nat)
    requires i <= s && IsMaximalRun(flags, s, e)
    requires AtBoundary(flags, i)
    ensures Span(s, e) in RunsFrom(flags, i)
    decreases |flags| - i
  {
    if !flags[i] {
      RunsFromComplete(flags, i + 1, s, e);
    } else {
      var n := RunLength(flags, i);
      if s != i {
        assert flags[s];
        RunsFromComplete(flags, i + n, s, e);
      }
    }
  }

  lemma {:induction false} QualifyingMembership(spans: seq<Span>, minHours: real, sp: Span)
    ensures sp in Qualifying(spans, minHours) <==> sp in spans && Long(sp, minHours)
  {
    if spans != [] {
      QualifyingMembership(spans[1..], minHours, sp);
      if sp != spans[0] {
        assert sp in spans <==> sp in spans[1..];
      }
    }
  }

  lemma {:induction false} QualifyingOrdered(spans: seq<Span>, minHours: real, n: nat)
    requires Ordered(spans, n)
    ensures Ordered(Qualifying(spans, minHours), n)
  {
    if spans != [] {
      var tail := spans[1..];
      assert Ordered(tail, n);
      QualifyingOrdered(tail, minHours, n);
      var rest := Qualifying(tail, minHours);
      forall k | 0 <= k < |rest| ensures spans[0].end < rest[k].start {
        QualifyingMembership(tail, minHours, rest[k]);
        var j :| 0 <= j < |tail| && tail[j] == rest[k];
        assert spans[j + 1] == rest[k];
      }
      assert Qualifying(spans, minHours) == (if Long(spans[0], minHours) then [spans[0]] else []) + rest;
    }
  }

  lemma {:induction false} QualifyingAppend(a: seq<Span>, b: seq<Span>, minHours: real)
    ensures Qualifying(a + b, minHours) == Qualifying(a, minHours) + Qualifying(b, minHours)
  {
    if a != [] {
      assert (a + b)[1..] == a[1..] + b;
      QualifyingAppend(a[1..], b, minHours);
    } else {
      assert a + b == b;
    }
  }

  /** The qualifying runs lie inside `flags`, non-empty and in order. */
  lemma QualifyingRunsOrdered(flags: seq<bool>, minHours: real)
    ensures Ordered(QualifyingRuns(flags, minHours), |flags|)
  {
    RunsFromSound(flags, 0);
    QualifyingOrdered(RunsFrom(flags, 0), minHours, |flags|);
  }

  /** The run list of a scanner: ordered, disjoint, each a maximal run of good
      periods that is long enough, and no such run missing. */
  lemma QualifyingRunsExact(flags: seq<bool>, minHours: real)
    ensures Ordered(QualifyingRuns(flags, minHours), |flags|)
    ensures forall s: nat, e: nat ::
              Span(s, e) in QualifyingRuns(flags, minHours) <==>
              IsMaximalRun(flags, s, e) && Long(Span(s, e), minHours)
  {
    var all := RunsFrom(flags, 0);
    QualifyingRunsOrdered(flags, minHours);
    RunsFromSound(flags, 0);
    forall s: nat, e: nat
      ensures Span(s, e) in QualifyingRuns(flags, minHours) <==>
              IsMaximalRun(flags, s, e) && Long(Span(s, e), minHours)
    {
      QualifyingMembership(all, minHours, Span(s, e));
      if IsMaximalRun(flags, s, e) {
        RunsFromComplete(flags, 0, s, e);
      }
    }
  }

  /** The first qualifying run is the earliest maximal run that is long enough. */
  lemma FirstQualifyingIsEarliest(flags: seq<bool>, minHours: real, s: nat, e: nat)
    requires IsMaximalRun(flags, s, e) && Long(Span(s, e), minHours)
    ensures QualifyingRuns(flags, minHours) != []
    ensures QualifyingRuns(flags, minHours)[0].start <= s
  {
    QualifyingRunsExact(flags, minHours);
    var r := QualifyingRuns(flags, minHours);
    assert Span(s, e) in r;
    var l :| 0 <= l < |r| && r[l] == Span(s, e);
    if l > 0 {
      assert r[0].end < r[l].start;
    }
  }

  // ---------------------------------------------------------------------
  // What a left-to-right scan sees.

  /** Meeting a bad flag at i closes the run that started at `start`. */
  lemma RunsFromAtBadFlag(flags: seq<bool>, start: nat, i: nat)
    requires start <= i < |flags| && !flags[i]
    requires forall k :: start <= k < i ==> flags[k]
    ensures RunsFrom(flags, start) ==
            (if start < i then [Span(start, i)] else []) + RunsFrom(flags, i + 1)
  {
    if start < i {
      assert RunLength(flags, start) == i - start;
      assert RunsFrom(flags, start) == [Span(start, i)] + RunsFrom(flags, i);
    }
  }

  /** At the end of the sequence the run that started at `start` is the last one. */
  lemma RunsFromAtEnd(flags: seq<bool>, start: nat)
    requires start <= |flags|
    requires forall k :: start <= k < |flags| ==> flags[k]
    ensures RunsFrom(flags, start) == if start < |flags| then [Span(start, |flags|)] else []
  {
    if start < |flags| {
      assert RunLength(flags, start) == |flags| - start;
    }
  }

  /** A scan meets a bad flag at i while its current run started at `start`:
      if that run is too short, nothing qualifying is passed over. */
  lemma CloseShortRun(flags: seq<bool>, start: nat, i: nat, minHours: real)
    requires start <= i < |flags| && !flags[i]
    requires forall k :: start <= k < i ==> flags[k]
    requires !Long(Span(start, i), minHours) || start == i
    ensures Qualifying(RunsFrom(flags, start), minHours) == Qualifying(RunsFrom(flags, i + 1), minHours)
  {
    RunsFromAtBadFlag(flags, start, i);
    QualifyingAppend(if start < i then [Span(start, i)] else [], RunsFrom(flags, i + 1), minHours);
  }

  /** A scan meets a bad flag at i while its current run started at `start`:
      if that run is long enough, it is the next qualifying run. */
  lemma CloseLongRun(flags: seq<bool>, start: nat, i: nat, minHours: real)
    requires start < i < |flags| && !flags[i]
    requires forall k :: start <= k < i ==> flags[k]
    requires Long(Span(start, i), minHours)
    ensures Qualifying(RunsFrom(flags, start), minHours) ==
            [Span(start, i)] + Qualifying(RunsFrom(flags, i + 1), minHours)
  {
    RunsFromAtBadFlag(flags, start, i);
    QualifyingAppend([Span(start, i)], RunsFrom(flags, i + 1), minHours);
  }

  /** The qualifying runs seen by a scan that reaches the end of the sequence. */
  lemma CloseLastRun(flags: seq<bool>, start: nat, minHours: real)
    requires start <= |flags|
    requires forall k :: start <= k < |flags| ==> flags[k]
    ensures Qualifying(RunsFrom(flags, start), minHours) ==
            if Long(Span(start, |flags|), minHours) && start < |flags| then [Span(start, |flags|)] else []
  {
    RunsFromAtEnd(flags, start);
  }

  /** Ordered spans starting at or after `lo` cover at most n - lo periods. */
  lemma {:induction false} TotalLengthBounds(spans: seq<Span>, lo: nat, n: nat)
    requires Ordered(spans, n)
    requires forall k :: 0 <= k < |spans| ==> lo <= spans[k].start
    ensures 0 <= TotalLength(spans)
    ensures spans != [] ==> TotalLength(spans) <= n - lo
  {
    if spans != [] {
      var tail := spans[1..];
      assert Ordered(tail, n);
      assert forall k :: 0 <= k < |tail| ==> spans[0].end + 1 <= tail[k].start by {
        forall k | 0 <= k < |tail| ensures spans[0].end + 1 <= tail[k].start {
          assert tail[k] == spans[k + 1];
        }
      }
      TotalLengthBounds(tail, spans[0].end + 1, n);
    }
  }

  /** The first span counts towards the total. */
  lemma TotalLengthAtLeastFirst(spans: seq<Span>, n: nat)
    requires spans != [] && Ordered(spans, n)
    ensures TotalLength(spans) >= spans[0].end - spans[0].start
  {
    assert Ordered(spans[1..], n);
    TotalLengthBounds(spans[1..], 0, n);
  }

  /** Adding a span adds its slice. */
  lemma PiecesSnoc<T>(xs: seq<T>, spans: seq<Span>, sp: Span)
    requires forall k :: 0 <= k < |spans| ==> spans[k].start <= spans[k].end <= |xs|
    requires sp.start <= sp.end <= |xs|
    ensures Pieces(xs, spans + [sp]) == Pieces(xs, spans) + [xs[sp.start..sp.end]]
  {
  }

  /** Total size of the pieces equals the total length of the spans. */
  lemma {:induction false} TotalSizeOfPieces<T>(xs: seq<T>, spans: seq<Span>)
    requires forall k :: 0 <= k < |spans| ==> spans[k].start <= spans[k].end <= |xs|
    ensures TotalSize(Pieces(xs, spans)) == TotalLength(spans)
  {
    if spans != [] {
      TotalSizeOfPieces(xs, spans[1..]);
      assert Pieces(xs, spans)[1..] == Pieces(xs, spans[1..]);
    }
  }

  // ---------------------------------------------------------------------
  // The scan itself.

  /** What a left-to-right scan holds after some periods: the windows it has
      closed and the records of the run it is extending. */
  datatype ScanState<T> = ScanState(windows: seq<seq<T>>, current: seq<T>)

  /** The state after the first i periods: a good period extends the current
      run; a bad one closes it, keeping it when its 3 hours per period reach
      the minimum. */
  function Scan<T>(records: seq<T>, flags: seq<bool>, minHours: real, i: nat): ScanState<T>
    requires |records| == |flags| && i <= |flags|
  {
    if i == 0 then ScanState([], [])
    else
      var st := Scan(records, flags, minHours, i - 1);
      if flags[i - 1] then ScanState(st.windows, st.current + [records[i - 1]])
      else if (|st.current| * 3) as real >= minHours then ScanState(st.windows + [st.current], [])
      else ScanState(st.windows, [])
  }

  /** After i periods the scan's current run is [start, i), the windows it
      closed are the records of the spans `done`, and `done` followed by the
      qualifying runs from `start` on are all the qualifying runs. */
  ghost predicate Tracks<T>(records: seq<T>, flags: seq<bool>, minHours: real, i: nat, start: nat, done: seq<Span>)
    requires |records| == |flags| && i <= |flags|
  {
    && start <= i
    && Scan(records, flags, minHours, i).current == records[start..i]
    && (forall k :: start <= k < i ==> flags[k])
    && (forall k :: 0 <= k < |done| ==> done[k].start <= done[k].end <= start)
    && Scan(records, flags, minHours, i).windows == Pieces(records, done)
    && done + Qualifying(RunsFrom(flags, start), minHours) == QualifyingRuns(flags, minHours)
  }

  lemma {:induction false} ScanTracksRuns<T>(records: seq<T>, flags: seq<bool>, minHours: real, i: nat)
    returns (start: nat, done: seq<Span>)
    requires minHours > 0.0 && |records| == |flags| && i <= |flags|
    ensures Tracks(records, flags, minHours, i, start, done)
  {
    if i == 0 {
      start, done := 0, [];
    } else {
      var s, d := ScanTracksRuns(records, flags, minHours, i - 1);
      var j := i - 1;
      if flags[j] {
        start, done := s, d;
        ScanExtendsRun(records, flags, minHours, j, s, d);
      } else if (|Scan(records, flags, minHours, j).current| * 3) as real >= minHours {
        start, done := i, d + [Span(s, j)];
        ScanKeepsRun(records, flags, minHours, j, s, d);
      } else {
        start, done := i, d;
        ScanDropsRun(records, flags, minHours, j, s, d);
      }
    }
  }

  /** A good period at j extends the current run. */
  lemma ScanExtendsRun<T>(records: seq<T>, flags: seq<bool>, minHours: real, j: nat, s: nat, done: seq<Span>)
    requires |records| == |flags| && j < |flags| && flags[j]
    requires Tracks(records, flags, minHours, j, s, done)
    ensures Tracks(records, flags, minHours, j + 1, s, done)
  {
    assert records[s..j + 1] == records[s..j] + [records[j]];
  }

  /** A bad period at j after a run too short to keep: the run is dropped and
      no qualifying run is passed over. */
  lemma ScanDropsRun<T>(records: seq<T>, flags: seq<bool>, minHours: real, j: nat, s: nat, done: seq<Span>)
    requires minHours > 0.0 && |records| == |flags| && j < |flags| && !flags[j]
    requires (|Scan(records, flags, minHours, j).current| * 3) as real < minHours
    requires Tracks(records, flags, minHours, j, s, done)
    ensures Tracks(records, flags, minHours, j + 1, j + 1, done)
  {
    CloseShortRun(flags, s, j, minHours);
  }

  /** A bad period at j after a run long enough: the run [s, j) moves from the
      runs still ahead of the scan to the runs it has kept. */
  lemma ScanKeepsRun<T>(records: seq<T>, flags: seq<bool>, minHours: real, j: nat, s: nat, done: seq<Span>)
    requires minHours > 0.0 && |records| == |flags| && j < |flags| && !flags[j]
    requires (|Scan(records, flags, minHours, j).current| * 3) as real >= minHours
    requires Tracks(records, flags, minHours, j, s, done)
    ensures Tracks(records, flags, minHours, j + 1, j + 1, done + [Span(s, j)])
  {
    var st := Scan(records, flags, minHours, j);
    assert |st.current| == j - s;
    assert Long(Span(s, j), minHours);
    var kept := done + [Span(s, j)];
    assert kept + Qualifying(RunsFrom(flags, j + 1), minHours) == QualifyingRuns(flags, minHours) by {
      LongIsNonEmpty(Span(s, j), minHours);
      CloseLongRun(flags, s, j, minHours);
      assert kept + Qualifying(RunsFrom(flags, j + 1), minHours) ==
             done + ([Span(s, j)] + Qualifying(RunsFrom(flags, j + 1), minHours));
    }
    assert Scan(records, flags, minHours, j + 1).windows == Pieces(records, kept) by {
      PiecesSnoc(records, done, Span(s, j));
    }
  }

  /** A complete scan, with its last run closed at the end of the sequence,
      yields the records of exactly the qualifying runs. */
  lemma ScanFindsQualifyingRuns<T>(records: seq<T>, flags: seq<bool>, minHours: real)
    requires minHours > 0.0 && |records| == |flags|
    ensures Ordered(QualifyingRuns(flags, minHours), |flags|)
    ensures var st := Scan(records, flags, minHours, |flags|);
            (if (|st.current| * 3) as real >= minHours then st.windows + [st.current] else st.windows) ==
            Pieces(records, QualifyingRuns(flags, minHours))
  {
    QualifyingRunsOrdered(flags, minHours);
    var start, done := ScanTracksRuns(records, flags, minHours, |flags|);
    CloseLastRun(flags, start, minHours);
    if Long(Span(start, |flags|), minHours) {
      LongIsNonEmpty(Span(start, |flags|), minHours);
      PiecesSnoc(records, done, Span(start, |flags|));
    }
  }
}

/** Order-preserving selection of the periods that pass a per-period test,
    as the point scanners (frost, heat stress, planting) collect them. */
module Selection {

  /** Indices of the true flags, in increasing order. */
  function Selected(flags: seq<bool>): (r: seq<nat>)
    ensures forall k :: 0 <= k < |r| ==> r[k] < |flags| && flags[r[k]]
    decreases |flags|
  {
    if flags == [] then []
    else
      var n := |flags| - 1;
      Selected(flags[..n]) + (if flags[n] then [n] else [])
  }

  /** The elements of `xs` at the given indices. */
  function Pick<T>(xs: seq<T>, idx: seq<nat>): (r: seq<T>)
    requires forall k :: 0 <= k < |idx| ==> idx[k] < |xs|
    ensures |r| == |idx|
    ensures forall k :: 0 <= k < |r| ==> r[k] == xs[idx[k]]
  {
    seq(|idx|, k requires 0 <= k < |idx| => xs[idx[k]])
  }

  /** Selecting over one more flag appends that index when its flag is set. */
  lemma SelectedStep(flags: seq<bool>, i: nat)
    requires i < |flags|
    ensures Selected(flags[..i + 1]) == Selected(flags[..i]) + (if flags[i] then [i] else [])
  {
    assert flags[..i + 1][..i] == flags[..i];
  }

  /** Every index whose flag is set is selected, and the selection is strictly
      increasing: the selection is exactly the true flags, in order. */
  lemma {:induction false} SelectedExact(flags: seq<bool>)
    ensures forall i :: 0 <= i < |flags| ==> (flags[i] <==> i in Selected(flags))
    ensures forall k, l :: 0 <= k < l < |Selected(flags)| ==> Selected(flags)[k] < Selected(flags)[l]
    decreases |flags|
  {
    if flags != [] {
      var n := |flags| - 1;
      SelectedExact(flags[..n]);
      assert forall i :: 0 <= i < n ==> flags[..n][i] == flags[i];
    }
  }

  /** Nothing is selected exactly when no flag is set. */
  lemma SelectedEmpty(flags: seq<bool>)
    ensures Selected(flags) == [] <==> forall i :: 0 <= i < |flags| ==> !flags[i]
  {
    SelectedExact(flags);
  }

  /** The first selected index is the first set flag. */
  lemma SelectedFirst(flags: seq<bool>, i: nat)
    requires i < |flags| && flags[i]
    ensures Selected(flags) != [] && Selected(flags)[0] <= i
  {
    SelectedExact(flags);
    var r := Selected(flags);
    var l :| 0 <= l < |r| && r[l] == i;
    if l > 0 {
      assert r[0] < r[l];
    }
  }

  lemma PickAppend<T>(xs: seq<T>, a: seq<nat>, b: seq<nat>)
    requires forall k :: 0 <= k < |a| ==> a[k] < |xs|
    requires forall k :: 0 <= k < |b| ==> b[k] < |xs|
    ensures Pick(xs, a + b) == Pick(xs, a) + Pick(xs, b)
  {
  }
}

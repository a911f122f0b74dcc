/**
 * Removing dropped positions from the aligned axes of a collection
 * (`_update_aligned_axes`).
 *
 * `aligned` holds the members' tuples of aligned axis numbers in the key
 * order of the collection's dictionary, and `first` the place of the first
 * key in that order. The drop positions live in a numpy integer array that
 * the function decrements in place: the caller's array changes, and the
 * changes made while processing one member are what the next member sees.
 */
module AlignedAxesUpdate {
  import opened Wrappers

  /** Every entry greater than d lowered by one (`s[np.where(s > d)] -= 1`). */
  function Decrement(s: seq<int>, d: int): (r: seq<int>)
    ensures |r| == |s|
    ensures forall i :: 0 <= i < |s| ==> r[i] == if s[i] > d then s[i] - 1 else s[i]
  {
    seq(|s|, i requires 0 <= i < |s| => if s[i] > d then s[i] - 1 else s[i])
  }

  /** `np.delete(s, p)` */
  function Delete(s: seq<int>, p: nat): (r: seq<int>)
    requires p < |s|
    ensures |r| == |s| - 1
    ensures forall i :: 0 <= i < |r| ==> r[i] == if i < p then s[i] else s[i + 1]
  {
    s[..p] + s[p + 1..]
  }

  /** Removing the axis at position p of a tuple, and renumbering the axes above it. */
  function DropAxis(t: seq<int>, p: nat): (r: seq<int>)
    requires p < |t|
    ensures |r| == |t| - 1
  {
    Decrement(Delete(t, p), t[p])
  }

  /**
   * The drop positions still to be processed, from the k-th on, fit the
   * tuple: all positions are non-negative, and the i-th leaves room for the
   * |P| - i - 1 positions after it.
   */
  predicate StepFits(t: seq<int>, P: seq<int>, k: nat)
  {
    && k <= |P|
    && (forall i :: 0 <= i < |P| ==> P[i] >= 0)
    && (forall i :: k <= i < |P| ==> P[i] + (|P| - i) <= |t|)
  }

  /** One drop step keeps the remaining positions fitting. */
  lemma StepKeepsFit(t: seq<int>, P: seq<int>, k: nat)
    requires StepFits(t, P, k) && k < |P|
    ensures P[k] < |t|
    ensures StepFits(DropAxis(t, P[k]), Decrement(P, P[k]), k + 1)
  {
    var P' := Decrement(P, P[k]);
    forall i | k + 1 <= i < |P|
      ensures P'[i] + (|P| - i) <= |t| - 1
    {
      if P[i] <= P[k] {
        assert P[k] + (|P| - k) <= |t|;
      }
    }
  }

  /**
   * The inner loop over the drop positions for one tuple, from step k on:
   * step k reads position P[k] of the current array, removes that axis from
   * the tuple and renumbers the axes above it, then lowers every drop
   * position greater than P[k]. Yields the final tuple and drop array.
   */
  function Run(t: seq<int>, P: seq<int>, k: nat): (r: (seq<int>, seq<int>))
    requires StepFits(t, P, k)
    ensures |r.0| == |t| - (|P| - k)
    ensures |r.1| == |P|
    ensures forall i :: 0 <= i < |P| ==> 0 <= r.1[i] <= P[i]
    decreases |P| - k
  {
    if k == |P| then (t, P)
    else
      StepKeepsFit(t, P, k);
      Run(DropAxis(t, P[k]), Decrement(P, P[k]), k + 1)
  }

  /** Drop positions that fit every tuple of length L from the start. */
  predicate StartFits(P: seq<int>, L: nat)
  {
    && |P| <= L
    && (forall i :: 0 <= i < |P| ==> P[i] >= 0)
    && (forall i :: 0 <= i < |P| ==> P[i] + (|P| - i) <= L)
  }

  predicate AllOfLength(aligned: seq<seq<int>>, L: nat)
  {
    forall j :: 0 <= j < |aligned| ==> |aligned[j]| == L
  }

  /**
   * The outer loop over the members from the i-th on, threading the one
   * shared drop array through them. Yields the new tuples and the final
   * drop array.
   */
  function Members(aligned: seq<seq<int>>, P: seq<int>, L: nat, i: nat): (r: (seq<seq<int>>, seq<int>))
    requires i <= |aligned| && AllOfLength(aligned, L) && StartFits(P, L)
    ensures |r.0| == |aligned| - i && AllOfLength(r.0, L - |P|)
    ensures |r.1| == |P| && StartFits(r.1, L)
    decreases |aligned| - i
  {
    if i == |aligned| then ([], P)
    else
      var step := Run(aligned[i], P, 0);
      var rest := Members(aligned, step.1, L, i + 1);
      ([step.0] + rest.0, rest.1)
  }

  /** The outer loop at member j runs the inner loop on it, then goes on with the array it leaves. */
  lemma MembersStep(aligned: seq<seq<int>>, P: seq<int>, L: nat, j: nat)
    requires j < |aligned| && AllOfLength(aligned, L) && StartFits(P, L)
    ensures StepFits(aligned[j], P, 0)
    ensures StartFits(Run(aligned[j], P, 0).1, L)
    ensures var step := Run(aligned[j], P, 0);
            var rest := Members(aligned, step.1, L, j + 1);
            Members(aligned, P, L, j) == ([step.0] + rest.0, rest.1)
  {
    assert |aligned[j]| == L;
  }

  /** What the caller provides when some but not all positions are dropped. */
  predicate Droppable(P: seq<int>, aligned: seq<seq<int>>, first: nat)
    requires first < |aligned|
  {
    && AllOfLength(aligned, |aligned[first]|)
    && (forall i, j :: 0 <= i < j < |P| ==> P[i] < P[j])
    && (forall i :: 0 <= i < |P| ==> 0 <= P[i] < |aligned[first]|)
  }

  /** Ascending distinct positions lie at least as far apart as their places. */
  lemma {:induction false} AscendingGap(P: seq<int>, i: nat, j: nat)
    requires forall a, b :: 0 <= a < b < |P| ==> P[a] < P[b]
    requires i <= j < |P|
    ensures P[i] + (j - i) <= P[j]
    decreases j - i
  {
    if i < j {
      AscendingGap(P, i + 1, j);
    }
  }

  /** Ascending distinct positions below L fit from the start. */
  lemma DroppableFits(P: seq<int>, aligned: seq<seq<int>>, first: nat)
    requires first < |aligned| && Droppable(P, aligned, first)
    ensures StartFits(P, |aligned[first]|)
  {
    if |P| > 0 {
      AscendingGap(P, 0, |P| - 1);
    }
    forall i | 0 <= i < |P|
      ensures P[i] + (|P| - i) <= |aligned[first]|
    {
      AscendingGap(P, i, |P| - 1);
    }
  }

  /** `drop_aligned_axes_indices[np.where(drop_aligned_axes_indices > d)] -= 1`, in place. */
  method DecrementAbove(a: array<int>, d: int)
    modifies a
    ensures a[..] == Decrement(old(a[..]), d)
  {
    for i := 0 to a.Length
      invariant forall t :: 0 <= t < i ==> a[t] == if old(a[t]) > d then old(a[t]) - 1 else old(a[t])
      invariant forall t :: i <= t < a.Length ==> a[t] == old(a[t])
    {
      if a[i] > d {
        a[i] := a[i] - 1;
      }
    }
  }

  /** Step k of the inner loop keeps the positions fitting and leaves the rest of the run to do. */
  lemma RunStep(t: seq<int>, P: seq<int>, k: nat, t0: seq<int>, P0: seq<int>)
    requires StepFits(t, P, k) && k < |P| && StepFits(t0, P0, 0)
    requires Run(t, P, k) == Run(t0, P0, 0)
    ensures 0 <= P[k] < |t|
    ensures StepFits(DropAxis(t, P[k]), Decrement(P, P[k]), k + 1)
    ensures Run(DropAxis(t, P[k]), Decrement(P, P[k]), k + 1) == Run(t0, P0, 0)
  {
    StepKeepsFit(t, P, k);
  }

  /** Once every position has been read, the run is over. */
  lemma RunDone(t: seq<int>, P: seq<int>, t0: seq<int>, P0: seq<int>)
    requires StepFits(t, P, |P|) && StepFits(t0, P0, 0)
    requires Run(t, P, |P|) == Run(t0, P0, 0)
    ensures (t, P) == Run(t0, P0, 0)
  {
  }

  /**
   * One pass of the inner loop: read position k of the drop array, delete
   * that axis from the tuple and renumber the axes above it, then lower the
   * drop positions above position `drop_axis_index`.
   */
  method DropStep(drop: array<int>, cubeAlignedAxes: seq<int>, k: nat) returns (next: seq<int>)
    requires k < drop.Length && 0 <= drop[k] < |cubeAlignedAxes|
    modifies drop
    ensures next == DropAxis(cubeAlignedAxes, old(drop[k]))
    ensures drop[..] == Decrement(old(drop[..]), old(drop[k]))
  {
    var dropAxisIndex := drop[k];
    var dropAxis := cubeAlignedAxes[dropAxisIndex];
    next := Delete(cubeAlignedAxes, dropAxisIndex);
    next := Decrement(next, dropAxis);
    DecrementAbove(drop, dropAxisIndex);
  }

  /**
   * The inner loop of `_update_aligned_axes` for one member's tuple t: for
   * each drop position, read live from the shared array, remove that axis
   * and renumber, then lower the pending positions in place.
   */
  method DropFromMember(drop: array<int>, t: seq<int>) returns (cubeAlignedAxes: seq<int>)
    requires StepFits(t, drop[..], 0)
    modifies drop
    ensures cubeAlignedAxes == Run(t, old(drop[..]), 0).0
    ensures drop[..] == Run(t, old(drop[..]), 0).1
  {
    ghost var P := drop[..];
    ghost var pending := P;
    cubeAlignedAxes := t;
    for k := 0 to drop.Length
      invariant pending == drop[..] && |pending| == drop.Length
      invariant StepFits(cubeAlignedAxes, pending, k)
      invariant Run(cubeAlignedAxes, pending, k) == Run(t, P, 0)
    {
      RunStep(cubeAlignedAxes, pending, k, t, P);
      cubeAlignedAxes := DropStep(drop, cubeAlignedAxes, k);
      pending := Decrement(pending, pending[k]);
    }
    RunDone(cubeAlignedAxes, pending, t, P);
  }

  /**
   * `_update_aligned_axes`: the members' tuples with the dropped positions
   * removed, or None when every aligned position is dropped. The drop array
   * is shared by all members and is left as the last member's loop left it.
   */
  method UpdateAlignedAxes(drop: array<int>, aligned: seq<seq<int>>, first: nat) returns (r: Option<seq<seq<int>>>)
    requires drop.Length > 0 ==> first < |aligned|
    requires drop.Length > 0 && drop.Length != |aligned[first]| ==> Droppable(drop[..], aligned, first)
    modifies drop
    ensures drop.Length == 0 ==> r == Some(aligned)
    ensures drop.Length > 0 && drop.Length == |aligned[first]| ==> r == None && drop[..] == old(drop[..])
    ensures drop.Length > 0 && drop.Length != |aligned[first]| ==>
              && StartFits(old(drop[..]), |aligned[first]|)
              && var m := Members(aligned, old(drop[..]), |aligned[first]|, 0);
                 r == Some(m.0) && drop[..] == m.1
  {
    if drop.Length <= 0 {
      return Some(aligned);
    }
    if drop.Length == |aligned[first]| {
      return None;
    }
    var L := |aligned[first]|;
    DroppableFits(drop[..], aligned, first);
    ghost var P0 := drop[..];
    ghost var pending := P0;
    var newAlignedAxes: seq<seq<int>> := [];
    assert newAlignedAxes + Members(aligned, P0, L, 0).0 == Members(aligned, P0, L, 0).0;
    for j := 0 to |aligned|
      invariant pending == drop[..]
      invariant StartFits(pending, L)
      invariant Members(aligned, P0, L, 0)
                == (newAlignedAxes + Members(aligned, pending, L, j).0, Members(aligned, pending, L, j).1)
    {
      MembersStep(aligned, pending, L, j);
      ghost var step := Run(aligned[j], pending, 0);
      ghost var rest := Members(aligned, step.1, L, j + 1);
      var cubeAlignedAxes := DropFromMember(drop, aligned[j]);
      assert cubeAlignedAxes == step.0;
      assert newAlignedAxes + ([cubeAlignedAxes] + rest.0) == (newAlignedAxes + [cubeAlignedAxes]) + rest.0;
      newAlignedAxes := newAlignedAxes + [cubeAlignedAxes];
      pending := drop[..];
    }
    assert newAlignedAxes + [] == newAlignedAxes;
    r := Some(newAlignedAxes);
  }

  /** Axis numbers of a tuple are pairwise different. */
  predicate Distinct(t: seq<int>)
  {
    forall i, j :: 0 <= i < j < |t| ==> t[i] != t[j]
  }

  predicate NonNegative(t: seq<int>)
  {
    forall i :: 0 <= i < |t| ==> t[i] >= 0
  }

  /** Removing an axis and renumbering keeps distinct non-negative axis numbers distinct and non-negative. */
  lemma DropAxisKeepsAxes(t: seq<int>, p: nat)
    requires p < |t|
    ensures Distinct(t) ==> Distinct(DropAxis(t, p))
    ensures NonNegative(t) ==> NonNegative(DropAxis(t, p))
  {
    if Distinct(t) {
      DropAxisDistinct(t, p);
    }
  }

  lemma DropAxisDistinct(t: seq<int>, p: nat)
    requires p < |t| && Distinct(t)
    ensures Distinct(DropAxis(t, p))
  {
    var D := Delete(t, p);
    var r := DropAxis(t, p);
    forall i, j | 0 <= i < j < |r|
      ensures r[i] != r[j]
    {
      var a := if i < p then i else i + 1;
      var b := if j < p then j else j + 1;
      assert D[i] == t[a] && D[j] == t[b] && a < b;
      assert t[a] != t[p] && t[b] != t[p];
    }
  }

  /** The inner loop keeps distinct non-negative axis numbers distinct and non-negative. */
  lemma {:induction false} RunKeepsAxes(t: seq<int>, P: seq<int>, k: nat)
    requires StepFits(t, P, k)
    ensures Distinct(t) ==> Distinct(Run(t, P, k).0)
    ensures NonNegative(t) ==> NonNegative(Run(t, P, k).0)
    decreases |P| - k
  {
    if k < |P| {
      StepKeepsFit(t, P, k);
      DropAxisKeepsAxes(t, P[k]);
      RunKeepsAxes(DropAxis(t, P[k]), Decrement(P, P[k]), k + 1);
    }
  }

  /**
   * Every member's tuple that held distinct non-negative axis numbers still
   * does after the update.
   */
  lemma {:induction false} MembersKeepAxes(aligned: seq<seq<int>>, P: seq<int>, L: nat, i: nat)
    requires i <= |aligned| && AllOfLength(aligned, L) && StartFits(P, L)
    ensures forall j :: i <= j < |aligned| && Distinct(aligned[j]) ==> Distinct(Members(aligned, P, L, i).0[j - i])
    ensures forall j :: i <= j < |aligned| && NonNegative(aligned[j]) ==> NonNegative(Members(aligned, P, L, i).0[j - i])
    decreases |aligned| - i
  {
    if i < |aligned| {
      var step := Run(aligned[i], P, 0);
      RunKeepsAxes(aligned[i], P, 0);
      MembersKeepAxes(aligned, step.1, L, i + 1);
    }
  }
}

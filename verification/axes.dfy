/**
 * The correspondence between WCS axes and data axes of an NDCube.
 *
 * A cube's `missing_axis` mask is in WCS order and marks with `true` the WCS
 * axes that have no data axis. Data axes run in the reverse of WCS order, so
 * data axis 0 belongs to the present WCS axis with the highest index.
 */
module Axes {

  /** Number of `false` (present) entries of a missing-axis mask. */
  function Present(m: seq<bool>): nat
  {
    if m == [] then 0 else (if m[0] then 0 else 1) + Present(m[1..])
  }

  /**
   * The present WCS axes with index in [lo, hi), highest first: the list the
   * transform loops collect while walking the WCS axes from last to first.
   */
  function PresentDesc(m: seq<bool>, lo: nat, hi: nat): (r: seq<nat>)
    requires lo <= hi <= |m|
    ensures forall k :: 0 <= k < |r| ==> lo <= r[k] < hi && !m[r[k]]
    decreases hi - lo
  {
    if lo == hi then [] else PresentDesc(m, lo + 1, hi) + (if m[lo] then [] else [lo])
  }

  /** The collected axes run strictly downwards. */
  lemma {:induction false} PresentDescDescending(m: seq<bool>, lo: nat, hi: nat)
    requires lo <= hi <= |m|
    ensures forall a, b :: 0 <= a < b < |PresentDesc(m, lo, hi)| ==> PresentDesc(m, lo, hi)[a] > PresentDesc(m, lo, hi)[b]
    decreases hi - lo
  {
    if lo < hi {
      PresentDescDescending(m, lo + 1, hi);
    }
  }

  /** The present WCS axes in data order: entry k is the WCS axis of data axis k. */
  function WcsAxes(m: seq<bool>): (r: seq<nat>)
    ensures |r| == Present(m)
  {
    PresentDescCount(m, 0, |m|);
    assert m[0..|m|] == m;
    PresentDesc(m, 0, |m|)
  }

  /** The data axis of WCS axis j: the number of present WCS axes above j. */
  function DataIndex(m: seq<bool>, j: nat): nat
    requires j < |m|
  {
    |PresentDesc(m, j + 1, |m|)|
  }

  /** `lst[::-1]` */
  function Reversed<T>(s: seq<T>): (r: seq<T>)
    ensures |r| == |s|
    ensures forall i :: 0 <= i < |s| ==> r[i] == s[|s| - 1 - i]
  {
    seq(|s|, i requires 0 <= i < |s| => s[|s| - 1 - i])
  }

  /** The list of present axes has one entry per `false` flag. */
  lemma {:induction false} PresentDescCount(m: seq<bool>, lo: nat, hi: nat)
    requires lo <= hi <= |m|
    ensures |PresentDesc(m, lo, hi)| == Present(m[lo..hi])
    decreases hi - lo
  {
    if lo < hi {
      PresentDescCount(m, lo + 1, hi);
      assert m[lo..hi][1..] == m[lo + 1..hi];
    }
  }

  /** Extending the scanned range by one axis at the top puts that axis first. */
  lemma {:induction false} PresentDescExtend(m: seq<bool>, lo: nat, hi: nat)
    requires lo <= hi < |m|
    ensures PresentDesc(m, lo, hi + 1) == (if m[hi] then [] else [hi]) + PresentDesc(m, lo, hi)
    decreases hi - lo
  {
    if lo < hi {
      PresentDescExtend(m, lo + 1, hi);
      var x := if m[lo] then [] else [lo];
      var y := if m[hi] then [] else [hi];
      assert PresentDesc(m, lo, hi + 1) == (y + PresentDesc(m, lo + 1, hi)) + x;
      assert (y + PresentDesc(m, lo + 1, hi)) + x == y + (PresentDesc(m, lo + 1, hi) + x);
    }
  }

  /** Scanning from a higher starting axis finds no more present axes. */
  lemma {:induction false} PresentDescShrink(m: seq<bool>, a: nat, b: nat)
    requires a <= b <= |m|
    ensures |PresentDesc(m, b, |m|)| <= |PresentDesc(m, a, |m|)|
    decreases b - a
  {
    if a < b {
      PresentDescShrink(m, a + 1, b);
    }
  }

  /** A present WCS axis j sits at position DataIndex(m, j) of the present-axis list. */
  lemma {:induction false} PresentDescAt(m: seq<bool>, lo: nat, j: nat)
    requires lo <= j < |m| && !m[j]
    ensures |PresentDesc(m, j + 1, |m|)| < |PresentDesc(m, lo, |m|)|
    ensures PresentDesc(m, lo, |m|)[|PresentDesc(m, j + 1, |m|)|] == j
    decreases j - lo
  {
    if lo < j {
      PresentDescAt(m, lo + 1, j);
    }
  }

  /** The data axis of a present WCS axis is a valid data axis, and maps back to that WCS axis. */
  lemma WcsOfDataOfWcs(m: seq<bool>, j: nat)
    requires j < |m| && !m[j]
    ensures DataIndex(m, j) < |WcsAxes(m)|
    ensures WcsAxes(m)[DataIndex(m, j)] == j
  {
    PresentDescAt(m, 0, j);
  }

  /** The WCS axis of a data axis maps back to that data axis. */
  lemma DataOfWcsOfData(m: seq<bool>, k: nat)
    requires k < |WcsAxes(m)|
    ensures WcsAxes(m)[k] < |m| && !m[WcsAxes(m)[k]]
    ensures DataIndex(m, WcsAxes(m)[k]) == k
  {
    WcsOfDataOfWcs(m, WcsAxes(m)[k]);
    PresentDescDescending(m, 0, |m|);
  }

}

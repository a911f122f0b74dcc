/**
 * What dropping positions from an aligned-axes tuple is meant to produce,
 * stated without the step-by-step renumbering: keep the entries at the
 * positions not dropped, and lower each kept axis number by the number of
 * removed axis numbers below it. The per-step procedure of
 * `_update_aligned_axes` meets this when every member starts from the
 * original drop positions; with the shared, decremented array it does not.
 */
module AlignedAxesIntended {
  import opened Wrappers
  import opened AlignedAxesUpdate

  /** Entries whose mask flag is false. */
  function Keep(t: seq<int>, mask: seq<bool>): (r: seq<int>)
    requires |mask| == |t|
  {
    if |t| == 0 then [] else (if mask[0] then [] else [t[0]]) + Keep(t[1..], mask[1..])
  }

  /** Entries whose mask flag is true. */
  function Removed(t: seq<int>, mask: seq<bool>): (r: seq<int>)
    requires |mask| == |t|
  {
    if |t| == 0 then [] else (if mask[0] then [t[0]] else []) + Removed(t[1..], mask[1..])
  }

  /** Filtering only ever picks entries of the tuple. */
  lemma {:induction false} FilterWithin(t: seq<int>, mask: seq<bool>)
    requires |mask| == |t|
    ensures forall x :: x in Keep(t, mask) ==> x in t
    ensures forall x :: x in Removed(t, mask) ==> x in t
  {
    if |t| > 0 {
      FilterWithin(t[1..], mask[1..]);
      assert forall x :: x in t[1..] ==> x in t;
    }
  }

  /** The mask of the positions listed in Q. */
  function MaskOf(n: nat, Q: seq<int>): (m: seq<bool>)
    ensures |m| == n && forall i :: 0 <= i < n ==> m[i] == (i in Q)
  {
    seq(n, i => i in Q)
  }

  /** The number of entries of rs below x. */
  function CountBelow(rs: seq<int>, x: int): nat
  {
    if |rs| == 0 then 0 else (if rs[0] < x then 1 else 0) + CountBelow(rs[1..], x)
  }

  /** The intended result of dropping positions Q from tuple t. */
  function Reference(t: seq<int>, Q: seq<int>): (r: seq<int>)
  {
    var kept := Keep(t, MaskOf(|t|, Q));
    var removed := Removed(t, MaskOf(|t|, Q));
    seq(|kept|, i requires 0 <= i < |kept| => kept[i] - CountBelow(removed, kept[i]))
  }

  predicate Ascending(Q: seq<int>)
  {
    forall i, j :: 0 <= i < j < |Q| ==> Q[i] < Q[j]
  }

  lemma {:induction false} KeepSplit(a: seq<int>, ma: seq<bool>, b: seq<int>, mb: seq<bool>)
    requires |ma| == |a| && |mb| == |b|
    ensures Keep(a + b, ma + mb) == Keep(a, ma) + Keep(b, mb)
    ensures Removed(a + b, ma + mb) == Removed(a, ma) + Removed(b, mb)
  {
    if |a| > 0 {
      assert (a + b)[1..] == a[1..] + b;
      assert (ma + mb)[1..] == ma[1..] + mb;
      KeepSplit(a[1..], ma[1..], b, mb);
    } else {
      assert a + b == b && ma + mb == mb;
    }
  }

  lemma {:induction false} CountBelowSplit(a: seq<int>, b: seq<int>, x: int)
    ensures CountBelow(a + b, x) == CountBelow(a, x) + CountBelow(b, x)
  {
    if |a| > 0 {
      assert (a + b)[1..] == a[1..] + b;
      CountBelowSplit(a[1..], b, x);
    } else {
      assert a + b == b;
    }
  }

  lemma DecrementSplit(a: seq<int>, b: seq<int>, d: int)
    ensures Decrement(a + b, d) == Decrement(a, d) + Decrement(b, d)
  {
  }

  /** Filtering by a mask commutes with renumbering by Decrement. */
  lemma {:induction false} KeepDecrement(s: seq<int>, m: seq<bool>, d: int)
    requires |m| == |s|
    ensures Keep(Decrement(s, d), m) == Decrement(Keep(s, m), d)
    ensures Removed(Decrement(s, d), m) == Decrement(Removed(s, m), d)
  {
    if |s| > 0 {
      var s' := Decrement(s, d);
      assert s'[1..] == Decrement(s[1..], d);
      KeepDecrement(s[1..], m[1..], d);
      var h := if m[0] then [] else [s[0]];
      var g := if m[0] then [s[0]] else [];
      assert Keep(s', m) == Decrement(h, d) + Keep(s'[1..], m[1..]);
      assert Removed(s', m) == Decrement(g, d) + Removed(s'[1..], m[1..]);
      DecrementSplit(h, Keep(s[1..], m[1..]), d);
      DecrementSplit(g, Removed(s[1..], m[1..]), d);
    }
  }

  /**
   * Removing a masked position from both the tuple and the mask keeps the
   * kept entries, and takes that one entry out of the removed ones.
   */
  lemma DeleteMasked(t: seq<int>, m: seq<bool>, p: nat)
    requires |m| == |t| && p < |t| && m[p]
    ensures Keep(Delete(t, p), m[..p] + m[p + 1..]) == Keep(t, m)
    ensures Removed(t, m) == Removed(t[..p], m[..p]) + ([t[p]] + Removed(t[p + 1..], m[p + 1..]))
    ensures Removed(Delete(t, p), m[..p] + m[p + 1..]) == Removed(t[..p], m[..p]) + Removed(t[p + 1..], m[p + 1..])
  {
    var A, B := t[..p], t[p + 1..];
    var ma, mb := m[..p], m[p + 1..];
    MaskedSplit(A, t[p], B, ma, mb);
    SplitAround(t, m, p);
    assert [m[p]] == [true];
  }

  /** Filtering a tuple is filtering it cut into the parts before, at and after p. */
  lemma SplitAround(t: seq<int>, m: seq<bool>, p: nat)
    requires |m| == |t| && p < |t|
    ensures Keep(t, m) == Keep(t[..p] + ([t[p]] + t[p + 1..]), m[..p] + ([m[p]] + m[p + 1..]))
    ensures Removed(t, m) == Removed(t[..p] + ([t[p]] + t[p + 1..]), m[..p] + ([m[p]] + m[p + 1..]))
  {
    assert t == t[..p] + ([t[p]] + t[p + 1..]);
    assert m == m[..p] + ([m[p]] + m[p + 1..]);
  }

  /** DeleteMasked for a tuple given as its parts around the masked entry x. */
  lemma MaskedSplit(A: seq<int>, x: int, B: seq<int>, ma: seq<bool>, mb: seq<bool>)
    requires |ma| == |A| && |mb| == |B|
    ensures Keep(A + B, ma + mb) == Keep(A + ([x] + B), ma + ([true] + mb))
    ensures Removed(A + ([x] + B), ma + ([true] + mb)) == Removed(A, ma) + ([x] + Removed(B, mb))
    ensures Removed(A + B, ma + mb) == Removed(A, ma) + Removed(B, mb)
  {
    HeadMasked(x, B, mb);
    KeepSplit(A, ma, [x] + B, [true] + mb);
    KeepSplit(A, ma, B, mb);
  }

  /** A masked head entry is removed, not kept. */
  lemma HeadMasked(x: int, B: seq<int>, mb: seq<bool>)
    requires |mb| == |B|
    ensures Keep([x] + B, [true] + mb) == Keep(B, mb)
    ensures Removed([x] + B, [true] + mb) == [x] + Removed(B, mb)
  {
    assert ([x] + B)[1..] == B && ([true] + mb)[1..] == mb;
  }

  /** The removed entries with one more entry d have one more below every x above d. */
  lemma RemovedCount(a: seq<int>, d: int, b: seq<int>, x: int)
    ensures CountBelow(a + ([d] + b), x) == CountBelow(a + b, x) + (if d < x then 1 else 0)
  {
    CountBelowSplit(a, [d] + b, x);
    CountBelowSplit([d], b, x);
    CountBelowSplit(a, b, x);
  }

  /** Above d, Decrement by d shifts membership down by one. */
  lemma DecrementIn(R: seq<int>, d: int, i: int)
    requires forall a :: 0 <= a < |R| ==> d < R[a]
    requires d <= i
    ensures (i in Decrement(R, d)) <==> (i + 1 in R)
  {
    var D := Decrement(R, d);
    if i in D {
      var a :| 0 <= a < |D| && D[a] == i;
      assert R[a] == i + 1;
    }
    if i + 1 in R {
      var a :| 0 <= a < |R| && R[a] == i + 1;
      assert D[a] == i;
    }
  }

  /** Below d, neither R nor its decrement by d holds anything. */
  lemma DecrementBelow(R: seq<int>, d: int, i: int)
    requires forall a :: 0 <= a < |R| ==> d < R[a]
    requires i < d
    ensures i !in Decrement(R, d) && i !in R
  {
    var D := Decrement(R, d);
    assert forall a :: 0 <= a < |D| ==> D[a] == R[a] - 1;
  }

  /** After position Q[0] is deleted, the other positions move down by one. */
  lemma MaskStep(n: nat, Q: seq<int>)
    requires |Q| > 0 && Ascending(Q) && 0 <= Q[0] < n
    ensures MaskOf(n, Q)[Q[0]]
    ensures MaskOf(n, Q)[..Q[0]] + MaskOf(n, Q)[Q[0] + 1..] == MaskOf(n - 1, Decrement(Q[1..], Q[0]))
  {
    var p := Q[0];
    var R := Q[1..];
    var m := MaskOf(n, Q);
    var lhs := m[..p] + m[p + 1..];
    var rhs := MaskOf(n - 1, Decrement(R, p));
    assert forall a :: 0 <= a < |R| ==> p < R[a] by {
      forall a | 0 <= a < |R|
        ensures p < R[a]
      {
        assert R[a] == Q[a + 1];
      }
    }
    assert Q == [p] + R;
    forall i | 0 <= i < n - 1
      ensures lhs[i] == rhs[i]
    {
      if i < p {
        DecrementBelow(R, p, i);
        assert lhs[i] == m[i];
      } else {
        DecrementIn(R, p, i);
        assert lhs[i] == m[i + 1];
      }
    }
    assert lhs == rhs;
  }

  /**
   * Decrement by d is strictly increasing away from d, so it does not change
   * how many of the other removed axis numbers lie below a kept one.
   */
  lemma {:induction false} CountBelowDecrement(rs: seq<int>, d: int, x: int)
    requires x != d && forall r :: r in rs ==> r != d
    ensures CountBelow(Decrement(rs, d), if x > d then x - 1 else x) == CountBelow(rs, x)
  {
    if |rs| > 0 {
      assert Decrement(rs, d)[1..] == Decrement(rs[1..], d);
      assert rs[0] in rs;
      assert forall r :: r in rs[1..] ==> r in rs;
      CountBelowDecrement(rs[1..], d, x);
    }
  }

  /** In a tuple of distinct axes, deleting a position removes its axis number entirely. */
  lemma DeleteOmits(t: seq<int>, p: nat)
    requires Distinct(t) && p < |t|
    ensures forall x :: x in Delete(t, p) ==> x != t[p]
  {
    var D := Delete(t, p);
    forall x | x in D
      ensures x != t[p]
    {
      var a :| 0 <= a < |D| && D[a] == x;
      if a < p {
        assert D[a] == t[a];
      } else {
        assert D[a] == t[a + 1];
      }
    }
  }

  /** One drop step leaves the intended result of the remaining drops unchanged. */
  lemma ReferenceStep(t: seq<int>, Q: seq<int>)
    requires Distinct(t) && |Q| > 0 && Ascending(Q) && 0 <= Q[0] && Q[|Q| - 1] < |t|
    ensures Q[0] < |t|
    ensures Reference(DropAxis(t, Q[0]), Decrement(Q[1..], Q[0])) == Reference(t, Q)
  {
    assert Q[0] <= Q[|Q| - 1];
    var p := Q[0];
    var d := t[p];
    var M := MaskOf(|t|, Q);
    var D := Delete(t, p);
    var Q' := Decrement(Q[1..], p);
    var t' := DropAxis(t, p);
    MaskStep(|t|, Q);
    var Dm := M[..p] + M[p + 1..];
    assert Dm == MaskOf(|t'|, Q');
    DeleteMasked(t, M, p);
    KeepDecrement(D, Dm, d);
    var K := Keep(t, M);
    var R0 := Removed(D, Dm);
    assert K == Keep(D, Dm);
    assert Keep(t', Dm) == Decrement(K, d);
    assert Removed(t', Dm) == Decrement(R0, d);
    DeleteOmits(t, p);
    FilterWithin(D, Dm);
    var lhs := Reference(t', Q');
    var rhs := Reference(t, Q);
    assert |lhs| == |K| == |rhs|;
    forall i | 0 <= i < |K|
      ensures lhs[i] == rhs[i]
    {
      assert K[i] in K;
      CountBelowDecrement(R0, d, K[i]);
      RemovedCount(Removed(t[..p], M[..p]), d, Removed(t[p + 1..], M[p + 1..]), K[i]);
    }
  }

  /** Dropping nothing keeps the tuple as it is. */
  lemma {:induction false} KeepAll(t: seq<int>)
    ensures Keep(t, MaskOf(|t|, [])) == t && Removed(t, MaskOf(|t|, [])) == []
  {
    if |t| > 0 {
      assert MaskOf(|t|, [])[1..] == MaskOf(|t| - 1, []);
      KeepAll(t[1..]);
    }
  }

  /**
   * For a tuple of distinct axis numbers and ascending drop positions, the
   * inner loop of `_update_aligned_axes` computes the intended result.
   */
  lemma {:induction false} RunMeetsReference(t: seq<int>, P: seq<int>, k: nat)
    requires StepFits(t, P, k) && Distinct(t)
    requires Ascending(P[k..]) && forall i :: k <= i < |P| ==> P[i] < |t|
    ensures Run(t, P, k).0 == Reference(t, P[k..])
    decreases |P| - k
  {
    if k == |P| {
      NoDropsMeetReference(t, P, k);
    } else {
      StepPreserves(t, P, k);
      RunMeetsReference(DropAxis(t, P[k]), Decrement(P, P[k]), k + 1);
      StepMeetsReference(t, P, k);
    }
  }

  /** With no positions left, the run and the reference both leave the member alone. */
  lemma NoDropsMeetReference(t: seq<int>, P: seq<int>, k: nat)
    requires StepFits(t, P, k) && k == |P|
    ensures Run(t, P, k).0 == Reference(t, P[k..])
  {
    KeepAll(t);
    assert P[k..] == [];
  }

  /** If the rest of the inner loop meets the intended result, so does the loop from step k. */
  lemma StepMeetsReference(t: seq<int>, P: seq<int>, k: nat)
    requires StepFits(t, P, k) && Distinct(t) && k < |P|
    requires Ascending(P[k..]) && forall i :: k <= i < |P| ==> P[i] < |t|
    requires P[k] < |t| && StepFits(DropAxis(t, P[k]), Decrement(P, P[k]), k + 1)
    requires Run(DropAxis(t, P[k]), Decrement(P, P[k]), k + 1).0 == Reference(DropAxis(t, P[k]), Decrement(P, P[k])[k + 1..])
    ensures Run(t, P, k).0 == Reference(t, P[k..])
  {
    StepPreserves(t, P, k);
    ReferenceStep(t, P[k..]);
  }

  /**
   * One step of the inner loop keeps the conditions of RunMeetsReference,
   * and the remaining positions are the renumbered tail of the current ones.
   */
  lemma StepPreserves(t: seq<int>, P: seq<int>, k: nat)
    requires StepFits(t, P, k) && Distinct(t) && k < |P|
    requires Ascending(P[k..]) && forall i :: k <= i < |P| ==> P[i] < |t|
    ensures P[k] < |t|
    ensures StepFits(DropAxis(t, P[k]), Decrement(P, P[k]), k + 1) && Distinct(DropAxis(t, P[k]))
    ensures Ascending(Decrement(P, P[k])[k + 1..])
    ensures forall i :: k + 1 <= i < |P| ==> Decrement(P, P[k])[i] < |DropAxis(t, P[k])|
    ensures Decrement(P, P[k])[k + 1..] == Decrement(P[k..][1..], P[k..][0])
    ensures Run(t, P, k) == Run(DropAxis(t, P[k]), Decrement(P, P[k]), k + 1)
  {
    var Q := P[k..];
    assert forall i :: 0 <= i < |Q| ==> Q[i] == P[k + i];
    StepKeepsFit(t, P, k);
    var P' := Decrement(P, P[k]);
    DropAxisKeepsAxes(t, P[k]);
    DecrementTail(Q, |t|);
    assert P'[k + 1..] == Decrement(Q[1..], Q[0]);
    assert forall i :: k + 1 <= i < |P| ==> P'[i] == P'[k + 1..][i - k - 1];
  }

  /** The positions after the first, renumbered by it, stay ascending and below n - 1. */
  lemma DecrementTail(Q: seq<int>, n: int)
    requires |Q| > 0 && Ascending(Q) && forall i :: 0 <= i < |Q| ==> Q[i] < n
    ensures Ascending(Decrement(Q[1..], Q[0]))
    ensures forall i :: 0 <= i < |Q| - 1 ==> Decrement(Q[1..], Q[0])[i] < n - 1
  {
    var D := Decrement(Q[1..], Q[0]);
    assert forall i :: 0 <= i < |D| ==> D[i] == Q[i + 1] - 1;
  }

  /**
   * The inner loop run on a fresh copy of the drop positions: the member
   * loses as many axes as there are positions, distinct axes are renumbered
   * as intended, and the caller's array is left alone.
   */
  method DropFromCopy(drop: array<int>, t: seq<int>) returns (cubeAlignedAxes: seq<int>)
    requires StepFits(t, drop[..], 0) && Ascending(drop[..])
    ensures |cubeAlignedAxes| == |t| - drop.Length
    ensures Distinct(t) ==> cubeAlignedAxes == Reference(t, drop[..])
  {
    var pending := new int[drop.Length](i requires 0 <= i < drop.Length reads drop => drop[i]);
    assert pending[..] == drop[..];
    cubeAlignedAxes := DropFromMember(pending, t);
    if Distinct(t) {
      assert drop[..][0..] == drop[..];
      assert forall i :: 0 <= i < drop.Length ==> drop[i] + (drop.Length - i) <= |t|;
      RunMeetsReference(t, drop[..], 0);
    }
  }

  /**
   * `_update_aligned_axes` with each member starting from its own copy of
   * the drop positions (`drop_aligned_axes_indices.copy()`): every member's
   * tuple loses the dropped positions and is renumbered as intended, and the
   * caller's array is left alone.
   */
  method UpdateAlignedAxesPerMember(drop: array<int>, aligned: seq<seq<int>>, first: nat)
    returns (r: Option<seq<seq<int>>>)
    requires drop.Length > 0 ==> first < |aligned|
    requires drop.Length > 0 && drop.Length != |aligned[first]| ==> Droppable(drop[..], aligned, first)
    ensures drop.Length == 0 ==> r == Some(aligned)
    ensures drop.Length > 0 && drop.Length == |aligned[first]| ==> r == None
    ensures drop.Length > 0 && drop.Length != |aligned[first]| ==>
              && r.Some? && |r.value| == |aligned|
              && (forall j :: 0 <= j < |aligned| ==> |r.value[j]| == |aligned[first]| - drop.Length)
              && (forall j :: 0 <= j < |aligned| && Distinct(aligned[j]) ==> r.value[j] == Reference(aligned[j], drop[..]))
  {
    if drop.Length <= 0 {
      return Some(aligned);
    }
    if drop.Length == |aligned[first]| {
      return None;
    }
    var L := |aligned[first]|;
    DroppableFits(drop[..], aligned, first);
    var newAlignedAxes: seq<seq<int>> := [];
    for j := 0 to |aligned|
      invariant |newAlignedAxes| == j
      invariant forall i :: 0 <= i < j ==> |newAlignedAxes[i]| == L - drop.Length
      invariant forall i :: 0 <= i < j && Distinct(aligned[i]) ==> newAlignedAxes[i] == Reference(aligned[i], drop[..])
    {
      var cubeAlignedAxes := DropFromCopy(drop, aligned[j]);
      newAlignedAxes := newAlignedAxes + [cubeAlignedAxes];
    }
    r := Some(newAlignedAxes);
  }

  /** With the shared array, the first member in key order still gets the intended tuple. */
  lemma FirstMemberAsIntended(aligned: seq<seq<int>>, P: seq<int>, L: nat)
    requires 0 < |aligned| && AllOfLength(aligned, L) && StartFits(P, L)
    requires Ascending(P) && Distinct(aligned[0])
    ensures Members(aligned, P, L, 0).0[0] == Reference(aligned[0], P)
  {
    assert P[0..] == P;
    RunMeetsReference(aligned[0], P, 0);
  }

  /** A single drop position is never shifted, so every member gets the intended tuple. */
  lemma {:induction false} SingleDropAsIntended(aligned: seq<seq<int>>, p: int, L: nat, i: nat)
    requires i <= |aligned| && AllOfLength(aligned, L) && StartFits([p], L)
    ensures Members(aligned, [p], L, i).1 == [p]
    ensures forall j :: i <= j < |aligned| && Distinct(aligned[j]) ==>
              Members(aligned, [p], L, i).0[j - i] == Reference(aligned[j], [p])
    decreases |aligned| - i
  {
    if i < |aligned| {
      SingleRun(aligned[i], p);
      SingleDropAsIntended(aligned, p, L, i + 1);
      var here := Run(aligned[i], [p], 0);
      var rest := Members(aligned, [p], L, i + 1);
      var all := Members(aligned, [p], L, i);
      assert all == ([here.0] + rest.0, rest.1);
      forall j | i <= j < |aligned| && Distinct(aligned[j])
        ensures all.0[j - i] == Reference(aligned[j], [p])
      {
        if j > i {
          assert all.0[j - i] == rest.0[j - i - 1];
        }
      }
    }
  }

  /** One drop position: the array comes back as it was, and the tuple is as intended. */
  lemma SingleRun(t: seq<int>, p: int)
    requires StepFits(t, [p], 0)
    ensures Run(t, [p], 0).1 == [p]
    ensures Distinct(t) ==> Run(t, [p], 0).0 == Reference(t, [p])
  {
    StepKeepsFit(t, [p], 0);
    assert Decrement([p], p) == [p];
    assert Run(t, [p], 0) == Run(DropAxis(t, p), [p], 1);
    if Distinct(t) {
      assert [p][0..] == [p];
      RunMeetsReference(t, [p], 0);
    }
  }

  /**
   * The shared array goes wrong with two non-adjacent drops: dropping
   * positions 0 and 2 from members (0, 1, 2, 3) and (0, 1, 3, 2), the second
   * member sees positions 0 and 0 and loses axes 0 and 1 instead of 0 and 3.
   */
  lemma SharedDropArrayMisnumbers()
    ensures StartFits([0, 2], 4)
    ensures Members([[0, 1, 2, 3], [0, 1, 3, 2]], [0, 2], 4, 0).0 == [[0, 1], [1, 0]]
    ensures Reference([0, 1, 3, 2], [0, 2]) == [0, 1]
  {
    SharedDropArrayRuns();
    var t1 := [0, 1, 3, 2];
    var aligned := [[0, 1, 2, 3], t1];
    assert aligned[0] == [0, 1, 2, 3] && aligned[1] == t1;
    assert Members(aligned, [0, 0], 4, 2) == ([], [0, 0]);
    assert [[1, 0]] + [] == [[1, 0]];
    assert Members(aligned, [0, 1], 4, 1) == ([[1, 0]], [0, 0]);
    assert [[0, 1]] + [[1, 0]] == [[0, 1], [1, 0]];
    ReferenceExample();
  }

  /** The two inner loops of the example: the second starts from positions 0 and 1. */
  lemma SharedDropArrayRuns()
    ensures StartFits([0, 2], 4)
    ensures Run([0, 1, 2, 3], [0, 2], 0) == ([0, 1], [0, 1])
    ensures Run([0, 1, 3, 2], [0, 1], 0) == ([1, 0], [0, 0])
  {
    FirstMemberRun();
    SecondMemberRun();
  }

  /** The first member drops axes 0 and 2, and leaves positions 0 and 1 behind. */
  lemma FirstMemberRun()
    ensures Run([0, 1, 2, 3], [0, 2], 0) == ([0, 1], [0, 1])
  {
    FirstMemberDrops();
    assert Run([0, 1, 2, 3], [0, 2], 0) == Run([0, 1, 2], [0, 1], 1);
    assert Run([0, 1, 2], [0, 1], 1) == Run([0, 1], [0, 1], 2);
  }

  lemma FirstMemberDrops()
    ensures DropAxis([0, 1, 2, 3], 0) == [0, 1, 2] && Decrement([0, 2], 0) == [0, 1]
    ensures DropAxis([0, 1, 2], 1) == [0, 1] && Decrement([0, 1], 1) == [0, 1]
  {
    assert Delete([0, 1, 2, 3], 0) == [1, 2, 3];
    assert Delete([0, 1, 2], 1) == [0, 2];
  }

  /** The second member, starting from positions 0 and 1, drops axes 0 and 1. */
  lemma SecondMemberRun()
    ensures Run([0, 1, 3, 2], [0, 1], 0) == ([1, 0], [0, 0])
  {
    SecondMemberDrops();
    assert Run([0, 1, 3, 2], [0, 1], 0) == Run([0, 2, 1], [0, 0], 1);
    assert Run([0, 2, 1], [0, 0], 1) == Run([1, 0], [0, 0], 2);
  }

  lemma SecondMemberDrops()
    ensures DropAxis([0, 1, 3, 2], 0) == [0, 2, 1] && Decrement([0, 1], 0) == [0, 0]
    ensures DropAxis([0, 2, 1], 0) == [1, 0] && Decrement([0, 0], 0) == [0, 0]
  {
    assert Delete([0, 1, 3, 2], 0) == [1, 3, 2];
    assert Delete([0, 2, 1], 0) == [2, 1];
  }

  /** The intended result for the second member of the example. */
  lemma ReferenceExample()
    ensures Reference([0, 1, 3, 2], [0, 2]) == [0, 1]
  {
    var t1 := [0, 1, 3, 2];
    var M := MaskOf(4, [0, 2]);
    assert M == [true, false, true, false];
    assert Keep(t1, M) == [1, 2];
    assert Removed(t1, M) == [0, 3];
    assert CountBelow([0, 3], 1) == 1 && CountBelow([0, 3], 2) == 1;
  }
}

/**
 * Normalising and validating the `aligned_axes` argument of a collection of
 * cubes (`_sanitize_aligned_axes`).
 *
 * The argument is one of: a bare int, a tuple whose entries are ints or
 * per-member tuples, or some other indexable object (a list). Each member of
 * the collection contributes the extents of its data axes (its
 * `dimensions`). Python's negative indexing is written out: an index k into
 * a sequence of length n is valid when -n <= k < n and picks entry n + k
 * when negative.
 */
module AlignedAxes {
  import opened Wrappers

  /** What a member's `dimensions` is: a Quantity, a tuple, or anything else. */
  datatype DimsKind = QuantityDims | TupleDims | OtherDims

  /** A member of the collection, reduced to the extents of its data axes. */
  datatype Member = Member(kind: DimsKind, extents: seq<int>)

  /** An entry of a per-member tuple: an int, or a value `max` cannot order against ints. */
  datatype Item = ItemInt(n: int) | ItemOther

  /**
   * An entry of the top-level tuple: a Python int, a tuple, some other value
   * numpy turns into an integer index array (a list of ints, or a numpy
   * integer as a one-element list), or a value numpy cannot index with.
   */
  datatype Entry = Int(k: int) | Tuple(items: seq<Item>) | IntArrayLike(ks: seq<int>) | OtherEntry

  /** The `aligned_axes` argument as supplied. */
  datatype AlignedSpec =
    | Bare(k: int)                  // a single int
    | AsTuple(entries: seq<Entry>)  // a tuple
    | AsList(entries: seq<Entry>)   // an indexable non-tuple, such as a list
    | Unindexable                   // anything else (None, a float, ...)

  /** The exception raised; RuntimeFailure is an IndexError or TypeError from Python itself. */
  datatype AlignError =
    | UnsupportedCubeType   // TypeError, 0th cube of unsupported type
    | InvalidAlignedAxes    // ValueError, not ints or a tuple of ints per member
    | WrongMemberCount      // ValueError, not one tuple per member
    | UnequalTupleLengths   // ValueError, tuples of different lengths
    | TooFewCubeAxes        // ValueError, a member has too few axes
    | AxisLengthMismatch    // ValueError, an aligned extent differs from member 0's
    | AlignedLengthsDiffer  // ValueError, final check across all members
    | RuntimeFailure

  predicate ValidIndex(n: nat, k: int)
  {
    -(n as int) <= k < n
  }

  /** `s[k]` with Python's negative indexing. */
  function At(s: seq<int>, k: int): int
    requires ValidIndex(|s|, k)
  {
    if k < 0 then s[|s| + k] else s[k]
  }

  function Max(a: int, b: int): int
  {
    if a < b then b else a
  }

  predicate AllInts(es: seq<Entry>)
  {
    forall i :: 0 <= i < |es| ==> es[i].Int?
  }

  predicate AllTuples(es: seq<Entry>)
  {
    forall i :: 0 <= i < |es| ==> es[i].Tuple?
  }

  predicate AllItemInts(items: seq<Item>)
  {
    forall j :: 0 <= j < |items| ==> items[j].ItemInt?
  }

  predicate AllTrue(flags: seq<bool>)
  {
    forall i :: 0 <= i < |flags| ==> flags[i]
  }

  /** The axis numbers of an all-int top-level tuple. */
  function IntsOf(es: seq<Entry>): (r: seq<int>)
    requires AllInts(es)
    ensures |r| == |es| && forall i :: 0 <= i < |es| ==> r[i] == es[i].k
  {
    seq(|es|, i requires 0 <= i < |es| => es[i].k)
  }

  /** The axis numbers of an all-int per-member tuple. */
  function ItemValues(items: seq<Item>): (r: seq<int>)
    requires AllItemInts(items)
    ensures |r| == |items| && forall j :: 0 <= j < |items| ==> r[j] == items[j].n
  {
    seq(|items|, j requires 0 <= j < |items| => items[j].n)
  }

  /** `max` of a non-empty tuple of ints. */
  function MaxOf(s: seq<int>): (r: int)
    requires |s| > 0
    ensures forall j :: 0 <= j < |s| ==> s[j] <= r
  {
    if |s| == 1 then s[0]
    else
      var rest := MaxOf(s[1..]);
      assert forall j :: 1 <= j < |s| ==> s[j] == s[1..][j - 1];
      if s[0] < rest then rest else s[0]
  }

  /** The maximum is one of the values. */
  lemma {:induction false} MaxOfAttained(s: seq<int>)
    requires |s| > 0
    ensures MaxOf(s) in s
  {
    if |s| > 1 {
      MaxOfAttained(s[1..]);
    }
  }

  /**
   * Whether `aligned_axes[0]` can index member 0's dimensions: an int in
   * range, or a non-empty tuple of ints in range (an empty tuple becomes a
   * float array, which numpy refuses as an index).
   */
  predicate IndexesFirst(spec: AlignedSpec, ext: seq<int>)
  {
    match spec
    case AsTuple(es) => |es| > 0 && EntryIndexes(es[0], ext)
    case AsList(es) => |es| > 0 && EntryIndexes(es[0], ext)
    case _ => false
  }

  predicate EntryIndexes(e: Entry, ext: seq<int>)
  {
    match e
    case Int(k) => ValidIndex(|ext|, k)
    case Tuple(items) =>
      |items| > 0 && AllItemInts(items) && forall j :: 0 <= j < |items| ==> ValidIndex(|ext|, items[j].n)
    case IntArrayLike(ks) => |ks| > 0 && forall j :: 0 <= j < |ks| ==> ValidIndex(|ext|, ks[j])
    case OtherEntry => false
  }

  /** `cube0_dims`: member 0's extents at the axes of a per-member tuple. */
  function FirstDims(items: seq<Item>, ext: seq<int>): (r: seq<int>)
    requires AllItemInts(items) && forall j :: 0 <= j < |items| ==> ValidIndex(|ext|, items[j].n)
    ensures |r| == |items| && forall j :: 0 <= j < |items| ==> r[j] == At(ext, items[j].n)
  {
    seq(|items|, j requires 0 <= j < |items| => At(ext, items[j].n))
  }

  /** Every member's axis number at each of the first n aligned positions indexes its extents. */
  predicate IndexesValid(data: seq<Member>, aligned: seq<seq<int>>, n: nat)
    requires |data| == |aligned|
    requires forall i :: 0 <= i < |aligned| ==> |aligned[i]| >= n
  {
    forall i, j :: 0 <= i < |data| && 0 <= j < n ==> ValidIndex(|data[i].extents|, aligned[i][j])
  }

  /** Every member has the same extent at each of the first n aligned positions. */
  predicate ExtentsAgree(data: seq<Member>, aligned: seq<seq<int>>, n: nat)
    requires |data| == |aligned| > 0
    requires forall i :: 0 <= i < |aligned| ==> |aligned[i]| >= n
  {
    && IndexesValid(data, aligned, n)
    && (forall i, j :: 0 <= i < |data| && 0 <= j < n ==>
          At(data[i].extents, aligned[i][j]) == At(data[0].extents, aligned[0][j]))
  }

  /** The members' extents at aligned position j: the inner `set(...)` of the closing check. */
  function ExtentsAt(data: seq<Member>, aligned: seq<seq<int>>, n: nat, j: nat): set<int>
    requires |data| == |aligned| && j < n
    requires forall i :: 0 <= i < |aligned| ==> |aligned[i]| >= n
    requires IndexesValid(data, aligned, n)
  {
    set i | 0 <= i < |data| :: At(data[i].extents, aligned[i][j])
  }

  /** `check_dimensions`: the sizes of those sets, over the first n aligned positions. */
  function ExtentCounts(data: seq<Member>, aligned: seq<seq<int>>, n: nat): set<int>
    requires |data| == |aligned|
    requires forall i :: 0 <= i < |aligned| ==> |aligned[i]| >= n
    requires IndexesValid(data, aligned, n)
  {
    set j | 0 <= j < n :: |ExtentsAt(data, aligned, n, j)|
  }

  /** A set of size one that holds x is {x}. */
  lemma SingletonIs(S: set<int>, x: int)
    requires x in S && |S| == 1
    ensures S == {x}
  {
    var rest := S - {x};
    assert S == rest + {x};
    assert |rest| == 0;
  }

  /** The members' extents at position j form a one-element set iff they all equal member 0's. */
  lemma ExtentsAtOne(data: seq<Member>, aligned: seq<seq<int>>, n: nat, j: nat)
    requires |data| == |aligned| > 0 && j < n
    requires forall i :: 0 <= i < |aligned| ==> |aligned[i]| >= n
    requires IndexesValid(data, aligned, n)
    ensures |ExtentsAt(data, aligned, n, j)| == 1 <==>
              forall i :: 0 <= i < |data| ==> At(data[i].extents, aligned[i][j]) == At(data[0].extents, aligned[0][j])
  {
    var S := ExtentsAt(data, aligned, n, j);
    var x := At(data[0].extents, aligned[0][j]);
    assert x in S;
    if |S| == 1 {
      SingletonIs(S, x);
      forall i | 0 <= i < |data|
        ensures At(data[i].extents, aligned[i][j]) == x
      {
        assert At(data[i].extents, aligned[i][j]) in S;
      }
    }
    if forall i :: 0 <= i < |data| ==> At(data[i].extents, aligned[i][j]) == x {
      assert S == {x};
    }
  }

  /**
   * The closing comparison `check_dimensions != {1}` fails exactly when there
   * is no aligned position or some member's extent differs from member 0's.
   */
  lemma ExtentCountsMeaning(data: seq<Member>, aligned: seq<seq<int>>, n: nat)
    requires |data| == |aligned| > 0
    requires forall i :: 0 <= i < |aligned| ==> |aligned[i]| >= n
    requires IndexesValid(data, aligned, n)
    ensures ExtentCounts(data, aligned, n) == {1} <==> n > 0 && ExtentsAgree(data, aligned, n)
  {
    var C := ExtentCounts(data, aligned, n);
    if n == 0 {
      assert C == {};
    }
    if C == {1} {
      forall i, j | 0 <= i < |data| && 0 <= j < n
        ensures At(data[i].extents, aligned[i][j]) == At(data[0].extents, aligned[0][j])
      {
        assert |ExtentsAt(data, aligned, n, j)| in C;
        ExtentsAtOne(data, aligned, n, j);
      }
    }
    if n > 0 && ExtentsAgree(data, aligned, n) {
      forall j | 0 <= j < n
        ensures |ExtentsAt(data, aligned, n, j)| == 1
      {
        ExtentsAtOne(data, aligned, n, j);
      }
      assert |ExtentsAt(data, aligned, n, 0)| in C;
      assert C == {1};
    }
  }

  /**
   * The closing check: for each aligned position, the set of the members'
   * extents there must have exactly one element, and the set of those set
   * sizes must be {1}, which also fails when there are no aligned positions.
   * An axis number out of range for its member raises IndexError while the
   * sets are built.
   */
  function FinalCheck(data: seq<Member>, aligned: seq<seq<int>>, n: nat): (r: Result<seq<seq<int>>, AlignError>)
    requires |data| == |aligned| > 0
    requires forall i :: 0 <= i < |aligned| ==> |aligned[i]| >= n
    ensures r.Success? <==> n > 0 && ExtentsAgree(data, aligned, n)
    ensures r.Success? ==> r.value == aligned
    ensures r.Failure? ==> r.error == RuntimeFailure || r.error == AlignedLengthsDiffer
    ensures r.Failure? ==> (r.error == RuntimeFailure <==> !IndexesValid(data, aligned, n))
  {
    if !IndexesValid(data, aligned, n) then
      Failure(RuntimeFailure)
    else
      ExtentCountsMeaning(data, aligned, n);
      if ExtentCounts(data, aligned, n) != {1} then Failure(AlignedLengthsDiffer)
      else Success(aligned)
  }

  /** A member's tuple holds only ints, fits its rank, and indexes its dimensions. */
  predicate MemberPasses(ext: seq<int>, items: seq<Item>, n: nat)
    requires |items| == n > 0
  {
    && AllItemInts(items)
    && Max(MaxOf(ItemValues(items)), n) <= |ext|
    && forall j :: 0 <= j < n ==> ValidIndex(|ext|, items[j].n)
  }

  /**
   * The checks made on one member of a tuple-of-tuples: `max` of its axis
   * numbers (which raises on a non-int entry), the rank check, then the
   * extent lookups, each compared with member 0's. Yields the member's
   * `cube_lengths_equal` verdict.
   */
  function MemberCheck(ext: seq<int>, items: seq<Item>, n: nat, cube0: seq<int>): (r: Result<bool, AlignError>)
    requires |items| == n == |cube0| && n > 0
    ensures r.Success? <==> MemberPasses(ext, items, n)
    ensures r.Success? ==> (r.value <==> forall j :: 0 <= j < n ==> At(ext, items[j].n) == cube0[j])
    ensures r.Failure? ==> r.error == RuntimeFailure || r.error == TooFewCubeAxes
  {
    if !AllItemInts(items) then Failure(RuntimeFailure)
    else if |ext| < Max(MaxOf(ItemValues(items)), n) then Failure(TooFewCubeAxes)
    else if !forall j :: 0 <= j < n ==> ValidIndex(|ext|, items[j].n) then Failure(RuntimeFailure)
    else Success(forall j :: 0 <= j < n ==> At(ext, items[j].n) == cube0[j])
  }

  /** Per-member tuples all of length n. */
  predicate TuplesOfLength(es: seq<Entry>, n: nat)
  {
    forall i :: 0 <= i < |es| ==> es[i].Tuple? && |es[i].items| == n
  }

  /** The member loop over the first k members: the first failure, or the verdicts so far. */
  function MemberScan(data: seq<Member>, es: seq<Entry>, n: nat, cube0: seq<int>, k: nat): (r: Result<seq<bool>, AlignError>)
    requires k <= |data| == |es| && TuplesOfLength(es, n) && |cube0| == n > 0
    ensures r.Success? ==> |r.value| == k
  {
    if k == 0 then Success([])
    else
      match MemberScan(data, es, n, cube0, k - 1)
      case Failure(e) => Failure(e)
      case Success(flags) =>
        match MemberCheck(data[k - 1].extents, es[k - 1].items, n, cube0)
        case Failure(e) => Failure(e)
        case Success(b) => Success(flags + [b])
  }

  /** The axis numbers of every per-member tuple. */
  function TupleValues(es: seq<Entry>): (r: seq<seq<int>>)
    requires forall i :: 0 <= i < |es| ==> es[i].Tuple? && AllItemInts(es[i].items)
    ensures |r| == |es| && forall i :: 0 <= i < |es| ==> r[i] == ItemValues(es[i].items)
  {
    seq(|es|, i requires 0 <= i < |es| => ItemValues(es[i].items))
  }

  /** The tuple-of-tuples branch, once member 0's tuple is known to index its dimensions. */
  function TupleBranch(data: seq<Member>, es: seq<Entry>): (r: Result<seq<seq<int>>, AlignError>)
    requires |data| > 0 && |es| > 0 && AllTuples(es)
    requires EntryIndexes(es[0], data[0].extents)
  {
    if |es| != |data| then Failure(WrongMemberCount)
    else
      var n := |es[0].items|;
      if !TuplesOfLength(es, n) then Failure(UnequalTupleLengths)
      else
        var cube0 := FirstDims(es[0].items, data[0].extents);
        match MemberScan(data, es, n, cube0, |data|)
        case Failure(e) => Failure(e)
        case Success(flags) =>
          if !AllTrue(flags) then Failure(AxisLengthMismatch)
          else
            MemberScanInts(data, es, n, cube0, |data|);
            FinalCheck(data, TupleValues(es), n)
  }

  /** A member loop that ran to the end met only int entries. */
  lemma {:induction false} MemberScanInts(data: seq<Member>, es: seq<Entry>, n: nat, cube0: seq<int>, k: nat)
    requires k <= |data| == |es| && TuplesOfLength(es, n) && |cube0| == n > 0
    requires MemberScan(data, es, n, cube0, k).Success?
    ensures forall i :: 0 <= i < k ==> AllItemInts(es[i].items)
  {
    if k > 0 {
      MemberScanInts(data, es, n, cube0, k - 1);
    }
  }

  /**
   * `_sanitize_aligned_axes`: one tuple of axis numbers per member, whose
   * extents agree position by position, or the exception raised.
   */
  function Sanitized(data: seq<Member>, spec: AlignedSpec): (r: Result<seq<seq<int>>, AlignError>)
    ensures r.Success? ==> |r.value| == |data| > 0 && |r.value[0]| > 0
    ensures r.Success? ==> forall i :: 0 <= i < |data| ==> |r.value[i]| == |r.value[0]|
    ensures r.Success? ==> ExtentsAgree(data, r.value, |r.value[0]|)
  {
    if |data| == 0 then Failure(RuntimeFailure)
    else if data[0].kind == OtherDims then Failure(UnsupportedCubeType)
    else if !IndexesFirst(spec, data[0].extents) then Failure(RuntimeFailure)
    else if !spec.AsTuple? then Failure(InvalidAlignedAxes)
    else if AllInts(spec.entries) then
      FinalCheck(data, seq(|data|, _ => IntsOf(spec.entries)), |spec.entries|)
    else if AllTuples(spec.entries) then
      TupleBranch(data, spec.entries)
    else
      Failure(InvalidAlignedAxes)
  }

  /**
   * The body of the member loop for one member: `max` of its axis numbers,
   * the rank check, then the inner loop filling `subtuple_types` and
   * `cube_lengths_equal`. Yields both flags' `all(...)`.
   */
  method CheckMember(ext: seq<int>, items: seq<Item>, n: nat, cube0: seq<int>) returns (r: Result<(bool, bool), AlignError>)
    requires |items| == n == |cube0| && n > 0
    ensures r.Success? ==> r.value.0 && MemberCheck(ext, items, n, cube0) == Success(r.value.1)
    ensures r.Failure? ==> MemberCheck(ext, items, n, cube0) == Failure(r.error)
  {
    if !AllItemInts(items) {
      return Failure(RuntimeFailure);
    }
    var maxAlignedAxis := MaxOf(ItemValues(items));
    if |ext| < Max(maxAlignedAxis, n) {
      return Failure(TooFewCubeAxes);
    }
    var subtupleTypes := seq(n, _ => false);
    var cubeLengthsEqual := seq(n, _ => false);
    for j := 0 to n
      invariant |subtupleTypes| == |cubeLengthsEqual| == n
      invariant forall t :: 0 <= t < j ==> subtupleTypes[t] && ValidIndex(|ext|, items[t].n)
      invariant forall t :: 0 <= t < j ==> cubeLengthsEqual[t] == (At(ext, items[t].n) == cube0[t])
    {
      subtupleTypes := subtupleTypes[j := items[j].ItemInt?];
      if !ValidIndex(|ext|, items[j].n) {
        return Failure(RuntimeFailure);
      }
      cubeLengthsEqual := cubeLengthsEqual[j := At(ext, items[j].n) == cube0[j]];
    }
    r := Success((AllTrue(subtupleTypes), AllTrue(cubeLengthsEqual)));
  }

  /** One more member: the scan fails with its error, or records its verdict. */
  lemma MemberScanStep(data: seq<Member>, es: seq<Entry>, n: nat, cube0: seq<int>, i: nat)
    requires i < |data| == |es| && TuplesOfLength(es, n) && |cube0| == n > 0
    requires MemberScan(data, es, n, cube0, i).Success?
    ensures var c := MemberCheck(data[i].extents, es[i].items, n, cube0);
            MemberScan(data, es, n, cube0, i + 1)
            == if c.Failure? then Failure(c.error) else Success(MemberScan(data, es, n, cube0, i).value + [c.value])
  {
  }

  /**
   * The member loop of `_sanitize_aligned_axes`, filling the
   * `subtuples_are_ints` and `aligned_axes_same_lengths` flags.
   */
  method ScanMembers(data: seq<Member>, es: seq<Entry>, n: nat, cube0: seq<int>)
    returns (r: Result<(seq<bool>, seq<bool>), AlignError>)
    requires |data| == |es| && TuplesOfLength(es, n) && |cube0| == n > 0
    ensures r.Success? ==> AllTrue(r.value.0) && MemberScan(data, es, n, cube0, |data|) == Success(r.value.1)
    ensures r.Failure? ==> MemberScan(data, es, n, cube0, |data|) == Failure(r.error)
  {
    var nCubes := |data|;
    var subtuplesAreInts := seq(nCubes, _ => false);
    var alignedAxesSameLengths := seq(nCubes, _ => false);
    for i := 0 to nCubes
      invariant |subtuplesAreInts| == |alignedAxesSameLengths| == nCubes
      invariant forall k :: 0 <= k < i ==> subtuplesAreInts[k]
      invariant forall k :: 0 <= k < i ==> MemberCheck(data[k].extents, es[k].items, n, cube0).Success?
      invariant forall k :: 0 <= k < i ==> alignedAxesSameLengths[k] == MemberCheck(data[k].extents, es[k].items, n, cube0).value
    {
      var verdicts := CheckMember(data[i].extents, es[i].items, n, cube0);
      if verdicts.Failure? {
        MemberScanAll(data, es, n, cube0, i);
        MemberScanStep(data, es, n, cube0, i);
        ScanFailureStays(data, es, n, cube0, i + 1, nCubes);
        return Failure(verdicts.error);
      }
      subtuplesAreInts := subtuplesAreInts[i := verdicts.value.0];
      alignedAxesSameLengths := alignedAxesSameLengths[i := verdicts.value.1];
    }
    MemberScanAll(data, es, n, cube0, nCubes);
    assert MemberScan(data, es, n, cube0, nCubes).value == alignedAxesSameLengths;
    r := Success((subtuplesAreInts, alignedAxesSameLengths));
  }

  /** Once a member fails its checks, the member loop ends with that failure. */
  lemma {:induction false} ScanFailureStays(data: seq<Member>, es: seq<Entry>, n: nat, cube0: seq<int>, k: nat, l: nat)
    requires k <= l <= |data| == |es| && TuplesOfLength(es, n) && |cube0| == n > 0
    requires MemberScan(data, es, n, cube0, k).Failure?
    ensures MemberScan(data, es, n, cube0, l) == MemberScan(data, es, n, cube0, k)
    decreases l - k
  {
    if k < l {
      ScanFailureStays(data, es, n, cube0, k, l - 1);
    }
  }

  /** `_sanitize_aligned_axes`, step by step. */
  method SanitizeAlignedAxes(data: seq<Member>, spec: AlignedSpec) returns (r: Result<seq<seq<int>>, AlignError>)
    ensures r == Sanitized(data, spec)
    ensures r.Success? ==> |r.value| == |data|
  {
    if |data| == 0 {
      return Failure(RuntimeFailure);
    }
    if data[0].kind == OtherDims {
      return Failure(UnsupportedCubeType);
    }
    if !IndexesFirst(spec, data[0].extents) {
      return Failure(RuntimeFailure);
    }
    if !spec.AsTuple? {
      return Failure(InvalidAlignedAxes);
    }
    var es := spec.entries;
    var nCubes := |data|;
    var aligned: seq<seq<int>>;
    var nAlignedAxes: nat;
    if AllInts(es) {
      nAlignedAxes := |es|;
      aligned := seq(nCubes, _ => IntsOf(es));
    } else if AllTuples(es) {
      if |es| != nCubes {
        return Failure(WrongMemberCount);
      }
      nAlignedAxes := |es[0].items|;
      if !TuplesOfLength(es, nAlignedAxes) {
        return Failure(UnequalTupleLengths);
      }
      var cube0Dims := FirstDims(es[0].items, data[0].extents);
      var flags := ScanMembers(data, es, nAlignedAxes, cube0Dims);
      if flags.Failure? {
        return Failure(flags.error);
      }
      var (subtuplesAreInts, alignedAxesSameLengths) := flags.value;
      if !AllTrue(subtuplesAreInts) {
        return Failure(InvalidAlignedAxes);
      }
      if !AllTrue(alignedAxesSameLengths) {
        return Failure(AxisLengthMismatch);
      }
      MemberScanInts(data, es, nAlignedAxes, cube0Dims, nCubes);
      aligned := TupleValues(es);
    } else {
      return Failure(InvalidAlignedAxes);
    }
    r := FinalCheck(data, aligned, nAlignedAxes);
  }

  /**
   * A bare int is never wrapped into a 1-tuple: `aligned_axes[0]` is taken
   * before the wrapping, and an int cannot be indexed.
   */
  lemma BareIntRejected(data: seq<Member>, k: int)
    ensures Sanitized(data, Bare(k)).Failure?
    ensures |data| > 0 && data[0].kind != OtherDims ==> Sanitized(data, Bare(k)).error == RuntimeFailure
  {
  }

  /** A list, or a tuple mixing ints and tuples, is refused with the generic ValueError. */
  lemma NonTupleOrMixedRejected(data: seq<Member>, spec: AlignedSpec)
    requires |data| > 0 && data[0].kind != OtherDims && IndexesFirst(spec, data[0].extents)
    requires spec.AsList? || (!AllInts(spec.entries) && !AllTuples(spec.entries))
    ensures Sanitized(data, spec) == Failure(InvalidAlignedAxes)
  {
  }

  /** Member 0's dimensions must be a Quantity or a tuple, whatever the argument. */
  lemma UnsupportedFirstMemberRejected(data: seq<Member>, spec: AlignedSpec)
    requires |data| > 0 && data[0].kind == OtherDims
    ensures Sanitized(data, spec) == Failure(UnsupportedCubeType)
  {
  }

  /** A tuple of ints is replicated: every member gets the same tuple. */
  lemma IntsReplicated(data: seq<Member>, es: seq<Entry>)
    requires AllInts(es)
    requires Sanitized(data, AsTuple(es)).Success?
    ensures var r := Sanitized(data, AsTuple(es)).value;
            |r| == |data| && forall i :: 0 <= i < |r| ==> r[i] == IntsOf(es)
  {
  }

  /**
   * A tuple of ints succeeds exactly when every member has every listed axis
   * and the members' extents agree along each of them.
   */
  lemma IntsAccepted(data: seq<Member>, es: seq<Entry>)
    requires |data| > 0 && data[0].kind != OtherDims && |es| > 0 && AllInts(es)
    ensures Sanitized(data, AsTuple(es)).Success? <==>
              && (forall i, j :: 0 <= i < |data| && 0 <= j < |es| ==> ValidIndex(|data[i].extents|, es[j].k))
              && (forall i, j :: 0 <= i < |data| && 0 <= j < |es| ==>
                    At(data[i].extents, es[j].k) == At(data[0].extents, es[j].k))
  {
    var aligned := seq(|data|, _ => IntsOf(es));
    assert forall i :: 0 <= i < |data| ==> aligned[i] == IntsOf(es);
  }

  /** A tuple of tuples needs one tuple per member. */
  lemma TupleCountChecked(data: seq<Member>, es: seq<Entry>)
    requires |data| > 0 && data[0].kind != OtherDims && IndexesFirst(AsTuple(es), data[0].extents)
    requires AllTuples(es) && |es| != |data|
    ensures Sanitized(data, AsTuple(es)) == Failure(WrongMemberCount)
  {
  }

  /** The per-member tuples must all have the length of member 0's. */
  lemma UnequalTuplesRejected(data: seq<Member>, es: seq<Entry>, i: nat)
    requires |data| > 0 && data[0].kind != OtherDims && IndexesFirst(AsTuple(es), data[0].extents)
    requires AllTuples(es) && |es| == |data|
    requires i < |es| && |es[i].items| != |es[0].items|
    ensures Sanitized(data, AsTuple(es)) == Failure(UnequalTupleLengths)
  {
    assert !TuplesOfLength(es, |es[0].items|);
  }

  /** The per-member check results, member by member. */
  function Checks(data: seq<Member>, es: seq<Entry>, n: nat, cube0: seq<int>): (r: seq<Result<bool, AlignError>>)
    requires |data| == |es| && TuplesOfLength(es, n) && |cube0| == n > 0
    ensures |r| == |data|
    ensures forall i :: 0 <= i < |data| ==> r[i] == MemberCheck(data[i].extents, es[i].items, n, cube0)
  {
    seq(|data|, i requires 0 <= i < |data| => MemberCheck(data[i].extents, es[i].items, n, cube0))
  }

  /** Stop at the first failed result, or collect the verdicts. */
  function ScanResults(cs: seq<Result<bool, AlignError>>): (r: Result<seq<bool>, AlignError>)
    ensures r.Success? ==> |r.value| == |cs|
  {
    if |cs| == 0 then Success([])
    else
      match ScanResults(cs[..|cs| - 1])
      case Failure(e) => Failure(e)
      case Success(flags) =>
        match cs[|cs| - 1]
        case Failure(e) => Failure(e)
        case Success(b) => Success(flags + [b])
  }

  lemma {:induction false} ScanResultsAll(cs: seq<Result<bool, AlignError>>)
    ensures ScanResults(cs).Success? <==> forall i :: 0 <= i < |cs| ==> cs[i].Success?
    ensures ScanResults(cs).Success? ==> forall i :: 0 <= i < |cs| ==> ScanResults(cs).value[i] == cs[i].value
  {
    if |cs| > 0 {
      var init := cs[..|cs| - 1];
      ScanResultsAll(init);
      assert forall i :: 0 <= i < |init| ==> init[i] == cs[i];
    }
  }

  /** The member loop is the scan of the per-member check results. */
  lemma {:induction false} MemberScanIsScan(data: seq<Member>, es: seq<Entry>, n: nat, cube0: seq<int>, k: nat)
    requires k <= |data| == |es| && TuplesOfLength(es, n) && |cube0| == n > 0
    ensures MemberScan(data, es, n, cube0, k) == ScanResults(Checks(data, es, n, cube0)[..k])
  {
    if k > 0 {
      MemberScanIsScan(data, es, n, cube0, k - 1);
      var cs := Checks(data, es, n, cube0);
      var c := MemberCheck(data[k - 1].extents, es[k - 1].items, n, cube0);
      assert cs[..k][..k - 1] == cs[..k - 1];
      assert cs[..k][k - 1] == c;
    }
  }

  /** The member loop succeeds exactly when every member passes its checks, and records their verdicts. */
  lemma MemberScanAll(data: seq<Member>, es: seq<Entry>, n: nat, cube0: seq<int>, k: nat)
    requires k <= |data| == |es| && TuplesOfLength(es, n) && |cube0| == n > 0
    ensures MemberScan(data, es, n, cube0, k).Success? <==>
              forall i :: 0 <= i < k ==> MemberCheck(data[i].extents, es[i].items, n, cube0).Success?
    ensures MemberScan(data, es, n, cube0, k).Success? ==>
              forall i :: 0 <= i < k ==>
                MemberScan(data, es, n, cube0, k).value[i] == MemberCheck(data[i].extents, es[i].items, n, cube0).value
  {
    var cs := Checks(data, es, n, cube0)[..k];
    assert forall i :: 0 <= i < k ==> cs[i] == MemberCheck(data[i].extents, es[i].items, n, cube0);
    MemberScanIsScan(data, es, n, cube0, k);
    ScanResultsAll(cs);
  }

  /**
   * What a tuple of per-member tuples must satisfy: one tuple per member,
   * all of one non-zero length n, of ints only; every member has at least
   * max(highest axis number, n) axes; and along each position every axis
   * number indexes its member, with the same extent as member 0's.
   */
  predicate TuplesFit(data: seq<Member>, es: seq<Entry>)
    requires |es| > 0 && AllTuples(es)
  {
    var n := |es[0].items|;
    && |es| == |data| && n > 0 && TuplesOfLength(es, n)
    && (forall i :: 0 <= i < |es| ==> AllItemInts(es[i].items))
    && (forall i :: 0 <= i < |es| ==> Max(MaxOf(ItemValues(es[i].items)), n) <= |data[i].extents|)
    && ExtentsAgree(data, TupleValues(es), n)
  }

  /** A tuple of per-member tuples that is accepted fits, and is returned as given. */
  lemma TuplesAcceptedOnlyIfFit(data: seq<Member>, es: seq<Entry>)
    requires |data| > 0 && data[0].kind != OtherDims && |es| > 0 && AllTuples(es)
    requires Sanitized(data, AsTuple(es)).Success?
    ensures TuplesFit(data, es)
    ensures Sanitized(data, AsTuple(es)).value == TupleValues(es)
  {
    var n := |es[0].items|;
    var cube0 := FirstDims(es[0].items, data[0].extents);
    MemberScanAll(data, es, n, cube0, |data|);
    MemberScanInts(data, es, n, cube0, |data|);
    forall i | 0 <= i < |es|
      ensures Max(MaxOf(ItemValues(es[i].items)), n) <= |data[i].extents|
    {
      assert MemberCheck(data[i].extents, es[i].items, n, cube0).Success?;
    }
  }

  /** A tuple of per-member tuples that fits is accepted and returned as given. */
  lemma TuplesAcceptedIfFit(data: seq<Member>, es: seq<Entry>)
    requires |data| > 0 && data[0].kind != OtherDims && |es| > 0 && AllTuples(es)
    requires TuplesFit(data, es)
    ensures Sanitized(data, AsTuple(es)) == Success(TupleValues(es))
  {
    var n := |es[0].items|;
    var aligned := TupleValues(es);
    forall j | 0 <= j < n
      ensures ValidIndex(|data[0].extents|, es[0].items[j].n)
    {
      assert aligned[0][j] == es[0].items[j].n;
    }
    assert EntryIndexes(es[0], data[0].extents);
    var cube0 := FirstDims(es[0].items, data[0].extents);
    forall i | 0 <= i < |es|
      ensures MemberCheck(data[i].extents, es[i].items, n, cube0) == Success(true)
    {
      forall j | 0 <= j < n
        ensures ValidIndex(|data[i].extents|, es[i].items[j].n)
        ensures At(data[i].extents, es[i].items[j].n) == cube0[j]
      {
        assert aligned[i][j] == es[i].items[j].n;
        assert aligned[0][j] == es[0].items[j].n;
      }
    }
    MemberScanAll(data, es, n, cube0, |data|);
    assert AllTrue(MemberScan(data, es, n, cube0, |data|).value);
  }

  /**
   * The member loop stops at the first member that fails its checks, with
   * that member's error: a non-int axis number makes `max` or the lookup
   * raise, too few cube axes raise the rank ValueError, and an axis number
   * past the end makes the lookup raise IndexError.
   */
  lemma FirstFailingMember(data: seq<Member>, es: seq<Entry>, i: nat)
    requires |data| > 0 && data[0].kind != OtherDims && IndexesFirst(AsTuple(es), data[0].extents)
    requires AllTuples(es) && |es| == |data| && TuplesOfLength(es, |es[0].items|)
    requires i < |data|
    requires forall k :: 0 <= k < i ==> MemberPasses(data[k].extents, es[k].items, |es[0].items|)
    requires !MemberPasses(data[i].extents, es[i].items, |es[0].items|)
    ensures Sanitized(data, AsTuple(es))
            == Failure(if AllItemInts(es[i].items) && |data[i].extents| < Max(MaxOf(ItemValues(es[i].items)), |es[0].items|)
                       then TooFewCubeAxes else RuntimeFailure)
  {
    var n := |es[0].items|;
    var cube0 := FirstDims(es[0].items, data[0].extents);
    MemberScanAll(data, es, n, cube0, i);
    MemberScanStep(data, es, n, cube0, i);
    ScanFailureStays(data, es, n, cube0, i + 1, |data|);
    var c := MemberCheck(data[i].extents, es[i].items, n, cube0);
    assert MemberScan(data, es, n, cube0, |data|) == Failure(c.error);
    assert Sanitized(data, AsTuple(es)) == TupleBranch(data, es);
  }

  /**
   * When every member passes its checks but one extent along an aligned
   * position differs from member 0's, the "same length" ValueError is raised.
   */
  lemma UnequalExtentsRejected(data: seq<Member>, es: seq<Entry>, i: nat, j: nat)
    requires |data| > 0 && data[0].kind != OtherDims && IndexesFirst(AsTuple(es), data[0].extents)
    requires AllTuples(es) && |es| == |data| && TuplesOfLength(es, |es[0].items|)
    requires forall k :: 0 <= k < |data| ==> MemberPasses(data[k].extents, es[k].items, |es[0].items|)
    requires i < |data| && j < |es[0].items|
    requires MemberPasses(data[i].extents, es[i].items, |es[0].items|) && MemberPasses(data[0].extents, es[0].items, |es[0].items|)
             && At(data[i].extents, es[i].items[j].n) != At(data[0].extents, es[0].items[j].n)
    ensures Sanitized(data, AsTuple(es)) == Failure(AxisLengthMismatch)
  {
    var n := |es[0].items|;
    var cube0 := FirstDims(es[0].items, data[0].extents);
    MemberScanAll(data, es, n, cube0, |data|);
    var flags := MemberScan(data, es, n, cube0, |data|).value;
    assert !flags[i];
  }

  /** A tuple of ints naming an axis some member lacks raises IndexError in the closing check. */
  lemma IntsOutOfRangeRejected(data: seq<Member>, es: seq<Entry>, i: nat, j: nat)
    requires |data| > 0 && data[0].kind != OtherDims && IndexesFirst(AsTuple(es), data[0].extents)
    requires AllInts(es) && i < |data| && j < |es|
    requires !ValidIndex(|data[i].extents|, es[j].k)
    ensures Sanitized(data, AsTuple(es)) == Failure(RuntimeFailure)
  {
    var aligned := seq(|data|, _ => IntsOf(es));
    assert aligned[i][j] == es[j].k;
  }

  /**
   * A tuple of ints whose axes every member has, but along which two
   * members' extents differ, fails the closing check with its ValueError.
   */
  lemma IntsUnequalRejected(data: seq<Member>, es: seq<Entry>, i: nat, j: nat)
    requires |data| > 0 && data[0].kind != OtherDims && AllInts(es) && i < |data| && j < |es|
    requires forall k, l :: 0 <= k < |data| && 0 <= l < |es| ==> ValidIndex(|data[k].extents|, es[l].k)
    requires At(data[i].extents, es[j].k) != At(data[0].extents, es[j].k)
    ensures Sanitized(data, AsTuple(es)) == Failure(AlignedLengthsDiffer)
  {
    var aligned := seq(|data|, _ => IntsOf(es));
    assert forall k :: 0 <= k < |data| ==> aligned[k] == IntsOf(es);
    assert aligned[i][j] == es[j].k && aligned[0][j] == es[j].k;
  }

  /**
   * An indexable first entry that is neither an int nor a tuple, such as a
   * list of ints, gets through the lookup in member 0 and is then refused
   * with the generic ValueError.
   */
  lemma ListEntriesRejected(data: seq<Member>)
    requires |data| > 0 && data[0].kind != OtherDims && |data[0].extents| > 0
    ensures Sanitized(data, AsTuple([IntArrayLike([0]), IntArrayLike([0])])) == Failure(InvalidAlignedAxes)
  {
    assert EntryIndexes(IntArrayLike([0]), data[0].extents);
  }

  /**
   * The rank check lets an axis number equal to the member's rank through;
   * the extent lookup then raises IndexError.
   */
  lemma RankCheckAdmitsAxisEqualToRank()
    ensures var data := [Member(TupleDims, [5, 5, 5]), Member(TupleDims, [5, 5])];
            var items := [ItemInt(2)];
            && Max(MaxOf(ItemValues(items)), 1) <= |data[1].extents|
            && Sanitized(data, AsTuple([Tuple(items), Tuple(items)])) == Failure(RuntimeFailure)
  {
    var data := [Member(TupleDims, [5, 5, 5]), Member(TupleDims, [5, 5])];
    var items := [ItemInt(2)];
    var es := [Tuple(items), Tuple(items)];
    var cube0 := FirstDims(items, data[0].extents);
    assert ItemValues(items) == [2];
    assert MemberCheck(data[0].extents, items, 1, cube0) == Success(true);
    assert MemberScan(data, es, 1, cube0, 0) == Success([]);
    assert es[0].items == items && data[0].extents == [5, 5, 5];
    assert [] + [true] == [true];
    assert MemberScan(data, es, 1, cube0, 1) == Success([true]);
    assert MemberCheck(data[1].extents, items, 1, cube0) == Failure(RuntimeFailure);
    assert MemberScan(data, es, 1, cube0, 2) == Failure(RuntimeFailure);
  }
}

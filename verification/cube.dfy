/**
 * NDCube: a data array of rank R together with a WCS of `naxis` >= R axes,
 * and the coordinate conversions, dimension report, cropping and extra
 * coordinates that depend on the cube's missing-axis mask.
 *
 * The WCS solver (`all_pix2world` / `all_world2pix`), astropy's unit
 * conversion (`q.to(unit)`) and numpy's `rint` are foreign code; they appear
 * here as function-typed values that the model never looks inside.
 */
module Cube {
  import opened Wrappers
  import opened Axes

  type Unit = string

  /** astropy's pixel unit `u.pix`. */
  const Pix: Unit := "pix"

  /** An astropy Quantity holding one value. */
  datatype Quantity = Quantity(value: real, unit: Unit)

  /** `q.to(unit).value`, or None where astropy raises UnitConversionError. */
  type Converter = (Quantity, Unit) -> Option<real>

  /** The exceptions the modelled code raises. */
  datatype Error =
    | RankMismatch          // ValueError in __init__
    | IndexOutOfRange       // IndexError from indexing a too-short list
    | UnitConversion        // astropy UnitConversionError
    | CornerLengthMismatch  // ValueError in crop_by_coords

  /**
   * The parts of the WCS object the core reads: per-axis reference pixel,
   * reference value, unit and type, and the two solver directions. A solver
   * maps a vector of `naxis` values to a vector of `naxis` values; it is
   * written here by components, `allPix2World(args, origin, j)` being entry
   * j of the vector `all_pix2world(*args, origin)` returns.
   */
  datatype Wcs = Wcs(
    naxis: nat,
    crpix: seq<real>,
    crval: seq<real>,
    cunit: seq<Unit>,
    ctype: seq<string>,
    allPix2World: (seq<real>, int, nat) -> real,
    allWorld2Pix: (seq<real>, int, nat) -> real)
  {
    /** One entry per axis. */
    predicate Valid()
    {
      |crpix| == naxis && |crval| == naxis && |cunit| == naxis && |ctype| == naxis
    }
  }

  /** Number of WCS axes that have a data axis. */
  method CountPresentAxes(m: seq<bool>) returns (count: nat)
    ensures count == Present(m)
  {
    count := 0;
    for i := 0 to |m|
      invariant count + Present(m[i..]) == Present(m)
    {
      assert m[i..][1..] == m[i + 1..];
      if !m[i] {
        count := count + 1;
      }
    }
  }

  /** The mask used when no `missing_axis` is given: every WCS axis is present. */
  function DefaultMissingAxis(naxis: nat): (m: seq<bool>)
    ensures |m| == naxis && Present(m) == naxis
    ensures forall j :: 0 <= j < naxis ==> !m[j]
  {
    AllPresent(naxis);
    seq(naxis, _ => false)
  }

  lemma {:induction false} AllPresent(n: nat)
    ensures Present(seq(n, _ => false)) == n
  {
    if n > 0 {
      AllPresent(n - 1);
      assert seq(n, _ => false)[1..] == seq(n - 1, _ => false);
    }
  }

  /**
   * The rank check of the constructor: when the data rank differs from
   * `naxis`, the number of present axes must equal the data rank; when they
   * are equal nothing is checked.
   */
  predicate RankAccepted(ndim: nat, naxis: nat, m: seq<bool>)
  {
    ndim == naxis || Present(m) == ndim
  }

  /** With the default mask the constructor accepts exactly the cubes whose rank is `naxis`. */
  lemma DefaultMaskRankCheck(ndim: nat, naxis: nat)
    ensures RankAccepted(ndim, naxis, DefaultMissingAxis(naxis)) <==> ndim == naxis
  {
  }

  /**
   * Because the count is skipped when the rank equals `naxis`, a cube can be
   * accepted with fewer present axes than data axes.
   */
  lemma AcceptedRankMayExceedPresentAxes()
    ensures RankAccepted(2, 2, [true, false]) && Present([true, false]) == 1
  {
    assert [true, false][1..] == [false];
  }

  /** The anchor a missing axis gets: `crpix-1+origin` forward, `crval+1-origin` inverse. */
  function Anchors(w: Wcs, forward: bool, origin: int): (r: seq<real>)
    requires w.Valid()
    ensures |r| == w.naxis
  {
    seq(w.naxis, j requires 0 <= j < w.naxis =>
      if forward then w.crpix[j] - 1.0 + origin as real else w.crval[j] + 1.0 - origin as real)
  }

  /** The vector the solver returns: `all_pix2world` forward, `all_world2pix` inverse. */
  function Solve(w: Wcs, forward: bool, args: seq<real>, origin: int): (out: seq<real>)
    ensures |out| == w.naxis
  {
    seq(w.naxis, (j: nat) => if forward then w.allPix2World(args, origin, j) else w.allWorld2Pix(args, origin, j))
  }

  /** The unit a caller value for WCS axis j is converted to: pixels forward, `cunit[j]` inverse. */
  function TargetUnit(w: Wcs, forward: bool, j: nat): Unit
    requires w.Valid() && j < w.naxis
  {
    if forward then Pix else w.cunit[j]
  }

  /** The unit a solver output for WCS axis j is tagged with: `cunit[j]` forward, pixels inverse. */
  function OutUnit(w: Wcs, forward: bool, j: nat): Unit
    requires w.Valid() && j < w.naxis
  {
    if forward then w.cunit[j] else Pix
  }

  /** Conversion targets of the caller's values, in data order. */
  function InputUnits(w: Wcs, m: seq<bool>, forward: bool): (r: seq<Unit>)
    requires w.Valid() && |m| == w.naxis
    ensures |r| == |WcsAxes(m)|
  {
    seq(|WcsAxes(m)|, k requires 0 <= k < |WcsAxes(m)| => TargetUnit(w, forward, WcsAxes(m)[k]))
  }

  /**
   * Converting the caller's values one by one, in data order, as the loop
   * consumes them: too few values raise IndexError, a failed conversion
   * raises UnitConversionError, whichever the loop meets first; surplus
   * values are never read.
   */
  function ConvertInputs(q: seq<Quantity>, units: seq<Unit>, to: Converter): (r: Result<seq<real>, Error>)
    ensures r.Success? <==> |q| >= |units| && forall k :: 0 <= k < |units| ==> to(q[k], units[k]).Some?
    ensures r.Success? ==> |r.value| == |units| && forall k :: 0 <= k < |units| ==> to(q[k], units[k]) == Some(r.value[k])
    ensures r.Failure? ==> r.error == UnitConversion || r.error == IndexOutOfRange
  {
    if units == [] then Success([])
    else if q == [] then Failure(IndexOutOfRange)
    else match to(q[0], units[0])
      case None => Failure(UnitConversion)
      case Some(v) =>
        match ConvertInputs(q[1..], units[1..], to)
        case Failure(e) => Failure(e)
        case Success(vs) => Success([v] + vs)
  }

  /** The solver argument for WCS axis j. */
  function SlotArg(m: seq<bool>, anchors: seq<real>, inputs: seq<real>, j: nat): real
    requires j < |m| == |anchors| && |inputs| == |WcsAxes(m)|
  {
    if m[j] then anchors[j] else WcsOfDataOfWcs(m, j); inputs[DataIndex(m, j)]
  }

  /**
   * The solver's argument vector, in WCS order: missing slots hold their
   * anchor, and the slot of data axis k holds caller value k.
   */
  function SolverArgs(m: seq<bool>, anchors: seq<real>, inputs: seq<real>): (r: seq<real>)
    requires |m| == |anchors| && |inputs| == |WcsAxes(m)|
    ensures |r| == |m|
    ensures forall j :: 0 <= j < |m| && m[j] ==> r[j] == anchors[j]
    ensures forall k :: 0 <= k < |inputs| ==> WcsAxes(m)[k] < |m| && r[WcsAxes(m)[k]] == inputs[k]
  {
    var r := seq(|m|, j requires 0 <= j < |m| => SlotArg(m, anchors, inputs, j));
    assert forall k :: 0 <= k < |inputs| ==> WcsAxes(m)[k] < |m| && r[WcsAxes(m)[k]] == inputs[k] by {
      forall k | 0 <= k < |inputs|
        ensures WcsAxes(m)[k] < |m| && r[WcsAxes(m)[k]] == inputs[k]
      {
        DataOfWcsOfData(m, k);
      }
    }
    r
  }

  /**
   * The argument list the transform loop has built after visiting the WCS
   * axes from the last one down to `lo`, given the converted caller values.
   */
  function ArgsFrom(m: seq<bool>, anchors: seq<real>, vals: seq<real>, lo: nat): (r: seq<real>)
    requires lo <= |m| == |anchors| && |PresentDesc(m, lo, |m|)| <= |vals|
    ensures |r| == |m| - lo
    decreases |m| - lo
  {
    if lo == |m| then []
    else
      PresentDescShrink(m, lo, lo + 1);
      ArgsFrom(m, anchors, vals, lo + 1) + [if m[lo] then anchors[lo] else vals[|PresentDesc(m, lo + 1, |m|)|]]
  }

  /** Values converted beyond those the visited axes consume do not change the list. */
  lemma {:induction false} ArgsFromExtend(m: seq<bool>, anchors: seq<real>, vals: seq<real>, v: real, lo: nat)
    requires lo <= |m| == |anchors| && |PresentDesc(m, lo, |m|)| <= |vals|
    ensures ArgsFrom(m, anchors, vals + [v], lo) == ArgsFrom(m, anchors, vals, lo)
    decreases |m| - lo
  {
    if lo < |m| {
      PresentDescShrink(m, lo, lo + 1);
      ArgsFromExtend(m, anchors, vals, v, lo + 1);
    }
  }

  /** Read backwards, the finished list is the solver's argument vector. */
  lemma ArgsFromSlots(m: seq<bool>, anchors: seq<real>, vals: seq<real>)
    requires |m| == |anchors| && |vals| == |WcsAxes(m)|
    ensures Reversed(ArgsFrom(m, anchors, vals, 0)) == SolverArgs(m, anchors, vals)
  {
    assert WcsAxes(m) == PresentDesc(m, 0, |m|);
    forall j | 0 <= j < |m|
      ensures Reversed(ArgsFrom(m, anchors, vals, 0))[j] == SolverArgs(m, anchors, vals)[j]
    {
      ArgsFromAt(m, anchors, vals, 0, j);
    }
  }

  /** Slot j of the solver vector sits |m| - 1 - j places into the loop's list. */
  lemma {:induction false} ArgsFromAt(m: seq<bool>, anchors: seq<real>, vals: seq<real>, lo: nat, j: nat)
    requires lo <= j < |m| == |anchors| && |vals| == |WcsAxes(m)|
    requires |PresentDesc(m, lo, |m|)| <= |vals|
    ensures ArgsFrom(m, anchors, vals, lo)[|m| - 1 - j] == SlotArg(m, anchors, vals, j)
    decreases |m| - lo
  {
    if lo < j {
      PresentDescShrink(m, lo, lo + 1);
      ArgsFromAt(m, anchors, vals, lo + 1, j);
    }
  }

  /** `vals` are the conversions of the first |vals| caller values. */
  predicate ConvertedPrefix(q: seq<Quantity>, units: seq<Unit>, to: Converter, vals: seq<real>)
  {
    |vals| <= |units| && |vals| <= |q| && forall k :: 0 <= k < |vals| ==> to(q[k], units[k]) == Some(vals[k])
  }

  lemma ConvertedPrefixExtend(q: seq<Quantity>, units: seq<Unit>, to: Converter, vals: seq<real>, v: real)
    requires ConvertedPrefix(q, units, to, vals)
    requires |vals| < |units| && |vals| < |q| && to(q[|vals|], units[|vals|]) == Some(v)
    ensures ConvertedPrefix(q, units, to, vals + [v])
  {
  }

  /**
   * Which error the conversion raises: UnitConversionError when some value
   * the loop reads fails to convert, otherwise IndexError for running out of
   * values.
   */
  lemma {:induction false} ConvertInputsError(q: seq<Quantity>, units: seq<Unit>, to: Converter)
    requires ConvertInputs(q, units, to).Failure?
    ensures ConvertInputs(q, units, to).error
            == if exists k :: 0 <= k < |units| && k < |q| && to(q[k], units[k]).None? then UnitConversion else IndexOutOfRange
  {
    if units != [] && q != [] && to(q[0], units[0]).Some? {
      ConvertInputsError(q[1..], units[1..], to);
      if exists k :: 0 <= k < |units| - 1 && k < |q| - 1 && to(q[1..][k], units[1..][k]).None? {
        var k :| 0 <= k < |units| - 1 && k < |q| - 1 && to(q[1..][k], units[1..][k]).None?;
        assert to(q[k + 1], units[k + 1]).None?;
      } else {
        forall k | 0 <= k < |units| && k < |q|
          ensures to(q[k], units[k]).Some?
        {
          if k > 0 {
            assert to(q[1..][k - 1], units[1..][k - 1]) == to(q[k], units[k]);
          }
        }
      }
    }
  }

  /** Where every value converts, ConvertInputs yields exactly the converted values. */
  lemma {:induction false} ConvertInputsSuccess(q: seq<Quantity>, units: seq<Unit>, to: Converter, vals: seq<real>)
    requires |vals| == |units| <= |q|
    requires forall k :: 0 <= k < |units| ==> to(q[k], units[k]) == Some(vals[k])
    ensures ConvertInputs(q, units, to) == Success(vals)
  {
    if units != [] {
      ConvertInputsSuccess(q[1..], units[1..], to, vals[1..]);
      assert vals == [vals[0]] + vals[1..];
    }
  }

  /** Where the loop stops early, ConvertInputs fails with the same error. */
  lemma {:induction false} ConvertInputsFailure(q: seq<Quantity>, units: seq<Unit>, to: Converter, k: nat)
    requires k < |units|
    requires forall i :: 0 <= i < k ==> i < |q| && to(q[i], units[i]).Some?
    requires k >= |q| || to(q[k], units[k]).None?
    ensures ConvertInputs(q, units, to).Failure?
    ensures ConvertInputs(q, units, to).error == if k < |q| then UnitConversion else IndexOutOfRange
  {
    ConvertInputsError(q, units, to);
    if k < |q| {
      assert to(q[k], units[k]).None?;
    }
  }

  /** Visiting a missing WCS axis appends its anchor and collects nothing. */
  lemma ArgsFromMissing(m: seq<bool>, anchors: seq<real>, vals: seq<real>, j: nat)
    requires j < |m| == |anchors| && m[j] && |PresentDesc(m, j + 1, |m|)| <= |vals|
    ensures PresentDesc(m, j, |m|) == PresentDesc(m, j + 1, |m|)
    ensures ArgsFrom(m, anchors, vals, j) == ArgsFrom(m, anchors, vals, j + 1) + [anchors[j]]
  {
  }

  /**
   * Visiting a present WCS axis collects it, and consumes the caller value
   * of its data axis, converted to that axis's unit.
   */
  lemma ArgsFromPresent(w: Wcs, m: seq<bool>, forward: bool, anchors: seq<real>, vals: seq<real>, j: nat)
    requires w.Valid() && j < |m| == |anchors| == w.naxis && !m[j] && |PresentDesc(m, j + 1, |m|)| == |vals|
    ensures PresentDesc(m, j, |m|) == PresentDesc(m, j + 1, |m|) + [j]
    ensures |vals| < |InputUnits(w, m, forward)| && InputUnits(w, m, forward)[|vals|] == TargetUnit(w, forward, j)
    ensures forall v :: ArgsFrom(m, anchors, vals + [v], j) == ArgsFrom(m, anchors, vals, j + 1) + [v]
  {
    WcsOfDataOfWcs(m, j);
    forall v {
      ArgsFromExtend(m, anchors, vals, v, j + 1);
    }
  }

  /**
   * The first loop of `pixel_to_world` / `world_to_pixel`: walk the WCS
   * axes from last to first, appending an anchor for a missing axis and the
   * next converted caller value for a present one, and collect the present
   * axes (`indexed_not_as_one`).
   */
  method CollectArguments(w: Wcs, m: seq<bool>, q: seq<Quantity>, origin: int, to: Converter, forward: bool)
    returns (r: Result<seq<real>, Error>, indexed: seq<nat>)
    requires w.Valid() && |m| == w.naxis
    ensures r.Success? <==> ConvertInputs(q, InputUnits(w, m, forward), to).Success?
    ensures r.Failure? ==> r.error == ConvertInputs(q, InputUnits(w, m, forward), to).error
    ensures r.Success? ==>
              Reversed(r.value) == SolverArgs(m, Anchors(w, forward, origin), ConvertInputs(q, InputUnits(w, m, forward), to).value)
    ensures r.Success? ==> indexed == WcsAxes(m)
  {
    var n := |m|;
    var anchors := Anchors(w, forward, origin);
    ghost var units := InputUnits(w, m, forward);
    ghost var vals: seq<real> := [];
    var listArg: seq<real> := [];
    indexed := [];
    var quantityIndex := 0;
    for i := 0 to n
      invariant indexed == PresentDesc(m, n - i, n)
      invariant quantityIndex == |indexed| == |vals|
      invariant ConvertedPrefix(q, units, to, vals)
      invariant listArg == ArgsFrom(m, anchors, vals, n - i)
    {
      var wcsIndex := n - 1 - i;
      assert n - (i + 1) == wcsIndex;
      if m[wcsIndex] {
        ArgsFromMissing(m, anchors, vals, wcsIndex);
        listArg := listArg + [anchors[wcsIndex]];
      } else {
        ArgsFromPresent(w, m, forward, anchors, vals, wcsIndex);
        if quantityIndex >= |q| {
          ConvertInputsFailure(q, units, to, quantityIndex);
          return Failure(IndexOutOfRange), indexed;
        }
        var v := to(q[quantityIndex], TargetUnit(w, forward, wcsIndex));
        if v.None? {
          ConvertInputsFailure(q, units, to, quantityIndex);
          return Failure(UnitConversion), indexed;
        }
        ArgsFromExtend(m, anchors, vals, v.value, wcsIndex + 1);
        ConvertedPrefixExtend(q, units, to, vals, v.value);
        assert ArgsFrom(m, anchors, vals + [v.value], wcsIndex) == listArg + [v.value];
        vals := vals + [v.value];
        listArg := listArg + [v.value];
        quantityIndex := quantityIndex + 1;
        indexed := indexed + [wcsIndex];
      }
    }
    ConvertInputsSuccess(q, units, to, vals);
    ArgsFromSlots(m, anchors, vals);
    r := Success(listArg);
  }

  /** Solver output of each listed axis, tagged with the unit of that output. */
  function ReadOutputs(w: Wcs, forward: bool, out: seq<real>, axes: seq<nat>): (r: seq<Quantity>)
    requires w.Valid() && |out| == w.naxis
    requires forall k :: 0 <= k < |axes| ==> axes[k] < w.naxis
    ensures |r| == |axes|
    ensures forall k :: 0 <= k < |axes| ==> r[k] == Quantity(out[axes[k]], OutUnit(w, forward, axes[k]))
  {
    seq(|axes|, k requires 0 <= k < |axes| => Quantity(out[axes[k]], OutUnit(w, forward, axes[k])))
  }

  /**
   * What `pixel_to_world` (forward) and `world_to_pixel` (inverse) return:
   * one quantity per present WCS axis, in data order, each the solver output
   * of that axis.
   */
  function TransformResult(w: Wcs, m: seq<bool>, forward: bool, q: seq<Quantity>, origin: int, to: Converter)
    : (r: Result<seq<Quantity>, Error>)
    requires w.Valid() && |m| == w.naxis
    ensures r.Success? <==> |q| >= Present(m) && forall k :: 0 <= k < Present(m) ==> to(q[k], InputUnits(w, m, forward)[k]).Some?
    ensures r.Success? ==> |r.value| == Present(m)
    ensures r.Success? ==> forall k :: 0 <= k < |r.value| ==> r.value[k].unit == OutUnit(w, forward, WcsAxes(m)[k])
    ensures r.Failure? ==> r.error == IndexOutOfRange || r.error == UnitConversion
  {
    match ConvertInputs(q, InputUnits(w, m, forward), to)
    case Failure(e) => Failure(e)
    case Success(inputs) =>
      var args := SolverArgs(m, Anchors(w, forward, origin), inputs);
      var out := Solve(w, forward, args, origin);
      Success(ReadOutputs(w, forward, out, WcsAxes(m)))
  }

  /**
   * The second loop of the transforms: walk the present axes in the given
   * order, appending each axis's solver output tagged with its unit.
   */
  method CollectOutputs(w: Wcs, forward: bool, out: seq<real>, order: seq<nat>) returns (result: seq<Quantity>)
    requires w.Valid() && |out| == w.naxis
    requires forall k :: 0 <= k < |order| ==> order[k] < w.naxis
    ensures result == ReadOutputs(w, forward, out, order)
  {
    result := [];
    for t := 0 to |order|
      invariant |result| == t
      invariant forall s :: 0 <= s < t ==> result[s] == Quantity(out[order[s]], OutUnit(w, forward, order[s]))
    {
      result := result + [Quantity(out[order[t]], OutUnit(w, forward, order[t]))];
    }
  }

  /** Reading the outputs in reverse order and reversing the list reads them in order. */
  lemma ReadOutputsReversed(w: Wcs, forward: bool, out: seq<real>, axes: seq<nat>)
    requires w.Valid() && |out| == w.naxis
    requires forall k :: 0 <= k < |axes| ==> axes[k] < w.naxis
    ensures forall k :: 0 <= k < |axes| ==> Reversed(axes)[k] < w.naxis
    ensures Reversed(ReadOutputs(w, forward, out, Reversed(axes))) == ReadOutputs(w, forward, out, axes)
  {
    var order := Reversed(axes);
    var back := ReadOutputs(w, forward, out, order);
    var front := Reversed(back);
    var want := ReadOutputs(w, forward, out, axes);
    assert |front| == |want|;
    forall k | 0 <= k < |axes|
      ensures front[k] == want[k]
    {
      var j := |axes| - 1 - k;
      assert front[k] == back[j];
      assert order[j] == axes[k];
    }
  }

  /**
   * The shared body of `pixel_to_world` (forward) and `world_to_pixel`
   * (inverse): collect the solver arguments, call the solver once, and read
   * off the outputs of the present axes, back in data order.
   */
  method Transform(w: Wcs, m: seq<bool>, q: seq<Quantity>, origin: int, to: Converter, forward: bool)
    returns (r: Result<seq<Quantity>, Error>)
    requires w.Valid() && |m| == w.naxis
    ensures r == TransformResult(w, m, forward, q, origin, to)
  {
    var listArg, indexed := CollectArguments(w, m, q, origin, to, forward);
    if listArg.Failure? {
      return Failure(listArg.error);
    }
    var listArguments := Reversed(listArg.value);
    var out := Solve(w, forward, listArguments, origin);
    var order := Reversed(indexed);
    var result := CollectOutputs(w, forward, out, order);
    ReadOutputsReversed(w, forward, out, indexed);
    r := Success(Reversed(result));
  }

  /**
   * `pixel_to_world`, spelled out: slot j of the solver call holds
   * `crpix[j]-1+origin` when axis j is missing, and caller value k (in
   * pixels) when j is the WCS axis of data axis k; result k is solver output
   * j tagged with `cunit[j]`.
   */
  lemma PixelToWorldSlots(w: Wcs, m: seq<bool>, q: seq<Quantity>, origin: int, to: Converter)
    requires w.Valid() && |m| == w.naxis
    requires TransformResult(w, m, true, q, origin, to).Success?
    ensures var r := TransformResult(w, m, true, q, origin, to).value;
            var args := SolverArgs(m, Anchors(w, true, origin), ConvertInputs(q, InputUnits(w, m, true), to).value);
            && |r| == Present(m) && |args| == |m|
            && (forall j :: 0 <= j < |m| && m[j] ==> args[j] == w.crpix[j] - 1.0 + origin as real)
            && (forall k :: 0 <= k < |r| ==>
                  && WcsAxes(m)[k] < |m| && !m[WcsAxes(m)[k]]
                  && to(q[k], Pix) == Some(args[WcsAxes(m)[k]])
                  && r[k] == Quantity(w.allPix2World(args, origin, WcsAxes(m)[k]), w.cunit[WcsAxes(m)[k]]))
  {
  }

  /**
   * `world_to_pixel`, spelled out: slot j holds `crval[j]+1-origin` when
   * axis j is missing, and caller value k converted to `cunit[j]` when j is
   * the WCS axis of data axis k; result k is solver output j in pixels.
   */
  lemma WorldToPixelSlots(w: Wcs, m: seq<bool>, q: seq<Quantity>, origin: int, to: Converter)
    requires w.Valid() && |m| == w.naxis
    requires TransformResult(w, m, false, q, origin, to).Success?
    ensures var r := TransformResult(w, m, false, q, origin, to).value;
            var args := SolverArgs(m, Anchors(w, false, origin), ConvertInputs(q, InputUnits(w, m, false), to).value);
            && |r| == Present(m) && |args| == |m|
            && (forall j :: 0 <= j < |m| && m[j] ==> args[j] == w.crval[j] + 1.0 - origin as real)
            && (forall k :: 0 <= k < |r| ==>
                  && WcsAxes(m)[k] < |m| && !m[WcsAxes(m)[k]]
                  && to(q[k], w.cunit[WcsAxes(m)[k]]) == Some(args[WcsAxes(m)[k]])
                  && r[k] == Quantity(w.allWorld2Pix(args, origin, WcsAxes(m)[k]), Pix))
  {
  }

  /** astropy's `a + b`: b is converted to a's unit, and the sum carries a's unit. */
  function Add(a: Quantity, b: Quantity, to: Converter): (r: Option<Quantity>)
    ensures r.Some? <==> to(b, a.unit).Some?
    ensures r.Some? ==> r.value.unit == a.unit && r.value.value == a.value + to(b, a.unit).value
  {
    match to(b, a.unit)
    case None => None
    case Some(v) => Some(Quantity(a.value + v, a.unit))
  }

  /**
   * `[lower[i] + widths[i] for i in range(n)]`: IndexError when either list
   * is shorter than n, UnitConversionError when a width cannot be added,
   * whichever comes first.
   */
  function CornerSums(lower: seq<Quantity>, widths: seq<Quantity>, n: nat, to: Converter)
    : (r: Result<seq<Quantity>, Error>)
    ensures r.Success? <==> n <= |lower| && n <= |widths| && forall i :: 0 <= i < n ==> Add(lower[i], widths[i], to).Some?
    ensures r.Success? ==> |r.value| == n && forall i :: 0 <= i < n ==> Add(lower[i], widths[i], to) == Some(r.value[i])
    ensures r.Failure? ==> r.error == IndexOutOfRange || r.error == UnitConversion
  {
    if n == 0 then Success([])
    else if lower == [] || widths == [] then Failure(IndexOutOfRange)
    else match Add(lower[0], widths[0], to)
      case None => Failure(UnitConversion)
      case Some(s) =>
        match CornerSums(lower[1..], widths[1..], n - 1, to)
        case Failure(e) => Failure(e)
        case Success(ss) => Success([s] + ss)
  }

  /**
   * Which error the corner list raises: UnitConversionError when some width
   * within reach of both lists cannot be added, since those positions are
   * reached before any list runs out; otherwise IndexError.
   */
  lemma {:induction false} CornerSumsError(lower: seq<Quantity>, widths: seq<Quantity>, n: nat, to: Converter)
    requires CornerSums(lower, widths, n, to).Failure?
    ensures CornerSums(lower, widths, n, to).error
            == if exists i :: 0 <= i < n && i < |lower| && i < |widths| && Add(lower[i], widths[i], to).None?
               then UnitConversion else IndexOutOfRange
  {
    if n > 0 && lower != [] && widths != [] && Add(lower[0], widths[0], to).Some? {
      CornerSumsError(lower[1..], widths[1..], n - 1, to);
      assert CornerSums(lower, widths, n, to) == CornerSums(lower[1..], widths[1..], n - 1, to);
      if exists i :: 0 <= i < n - 1 && i < |lower| - 1 && i < |widths| - 1 && Add(lower[1..][i], widths[1..][i], to).None? {
        var i :| 0 <= i < n - 1 && i < |lower| - 1 && i < |widths| - 1 && Add(lower[1..][i], widths[1..][i], to).None?;
        assert Add(lower[i + 1], widths[i + 1], to).None?;
      } else {
        forall i | 0 <= i < n && i < |lower| && i < |widths|
          ensures Add(lower[i], widths[i], to).Some?
        {
          if i > 0 {
            assert Add(lower[1..][i - 1], widths[1..][i - 1], to) == Add(lower[i], widths[i], to);
          }
        }
      }
    }
  }

  /** A half-open index range `slice(start, stop)`. */
  datatype Slice = Slice(start: int, stop: int)

  /**
   * The slice tuple from the two corners in pixels: `rint` of each pixel
   * value, one slice per data axis. Fewer corner values than data axes
   * raise IndexError.
   */
  function CornerSlices(lowerPx: seq<Quantity>, upperPx: seq<Quantity>, n: nat, rint: real -> int)
    : (r: Result<seq<Slice>, Error>)
    requires |lowerPx| == |upperPx|
    ensures r.Success? <==> n <= |lowerPx|
    ensures r.Failure? ==> r.error == IndexOutOfRange
    ensures r.Success? ==> |r.value| == n && forall i :: 0 <= i < n ==> r.value[i] == Slice(rint(lowerPx[i].value), rint(upperPx[i].value))
  {
    var lowerPixels := seq(|lowerPx|, i requires 0 <= i < |lowerPx| => rint(lowerPx[i].value));
    var upperPixels := seq(|upperPx|, i requires 0 <= i < |upperPx| => rint(upperPx[i].value));
    if |lowerPixels| < n then Failure(IndexOutOfRange)
    else Success(seq(n, i requires 0 <= i < n => Slice(lowerPixels[i], upperPixels[i])))
  }

  /** What the `dimensions` property returns. */
  datatype DimensionPair = DimensionPair(shape: seq<nat>, axisTypes: seq<string>)

  /** An extra coordinate as stored: its WCS axis (or None) and its values. */
  datatype StoredCoord = StoredCoord(wcsAxis: Option<int>, value: seq<real>)

  /** An extra coordinate as reported: its data axis (or None) and its values. */
  datatype ExtraCoord = ExtraCoord(axis: Option<nat>, value: seq<real>)

  /**
   * The WCS-to-data axis map used by `extra_coords`: the inverse of the
   * correspondence the transform loops build; None for no axis or a missing one.
   */
  function WcsAxisToDataAxis(m: seq<bool>, wcsAxis: Option<int>): (r: Option<nat>)
    ensures r.Some? ==> r.value < Present(m)
  {
    match wcsAxis
    case None => None
    case Some(a) =>
      if 0 <= a < |m| && !m[a] then WcsOfDataOfWcs(m, a); Some(DataIndex(m, a)) else None
  }

  /** The data-to-WCS axis map under which extra coordinates are stored. */
  function DataAxisToWcsAxis(m: seq<bool>, d: nat): (w: nat)
    requires d < Present(m)
    ensures w < |m| && !m[w]
  {
    DataOfWcsOfData(m, d);
    WcsAxes(m)[d]
  }

  /** Storing an extra coordinate under its WCS axis and reading it back gives its data axis again, both ways round. */
  lemma ExtraCoordAxisRoundTrip(m: seq<bool>, d: nat, a: nat)
    requires d < Present(m)
    requires a < |m| && !m[a]
    ensures WcsAxisToDataAxis(m, Some(DataAxisToWcsAxis(m, d) as int)) == Some(d)
    ensures WcsAxisToDataAxis(m, Some(a)).Some? && DataAxisToWcsAxis(m, WcsAxisToDataAxis(m, Some(a)).value) == a
  {
    DataOfWcsOfData(m, d);
    WcsOfDataOfWcs(m, a);
  }

  /** The ctypes of the present axes below i, lowest axis first. */
  function AscendingTypes(ctype: seq<string>, m: seq<bool>, i: nat): seq<string>
    requires i <= |m| == |ctype|
  {
    if i == 0 then [] else AscendingTypes(ctype, m, i - 1) + (if m[i - 1] then [] else [ctype[i - 1]])
  }

  /** Read backwards, the ascending ctype list gives the ctype of each present axis highest first. */
  lemma {:induction false} AscendingTypesAt(ctype: seq<string>, m: seq<bool>, i: nat)
    requires i <= |m| == |ctype|
    ensures |AscendingTypes(ctype, m, i)| == |PresentDesc(m, 0, i)|
    ensures forall k :: 0 <= k < |PresentDesc(m, 0, i)| ==>
              AscendingTypes(ctype, m, i)[|PresentDesc(m, 0, i)| - 1 - k] == ctype[PresentDesc(m, 0, i)[k]]
  {
    if i > 0 {
      AscendingTypesAt(ctype, m, i - 1);
      PresentDescExtend(m, 0, i - 1);
    }
  }

  /** Every stored WCS axis number is None or names an axis of the WCS. */
  predicate StoredAxesValid(extra: Option<map<string, StoredCoord>>, naxis: nat)
  {
    extra.Some? ==>
      forall key :: key in extra.value && extra.value[key].wcsAxis.Some? ==>
        0 <= extra.value[key].wcsAxis.value < naxis
  }

  class NDCube {
    var shape: seq<nat>
    var wcs: Wcs
    var missingAxis: seq<bool>
    var extraCoordsWcsAxis: Option<map<string, StoredCoord>>

    ghost predicate Valid()
      reads this
    {
      && wcs.Valid()
      && |missingAxis| == wcs.naxis
      && RankAccepted(|shape|, wcs.naxis, missingAxis)
      && StoredAxesValid(extraCoordsWcsAxis, wcs.naxis)
    }

    constructor (shape: seq<nat>, wcs: Wcs, missingAxis: seq<bool>, extra: Option<map<string, StoredCoord>>)
      requires wcs.Valid() && |missingAxis| == wcs.naxis
      requires RankAccepted(|shape|, wcs.naxis, missingAxis) && StoredAxesValid(extra, wcs.naxis)
      ensures Valid()
      ensures this.shape == shape && this.wcs == wcs && this.missingAxis == missingAxis
      ensures extraCoordsWcsAxis == extra
    {
      this.shape := shape;
      this.wcs := wcs;
      this.missingAxis := missingAxis;
      extraCoordsWcsAxis := extra;
    }

    /**
     * `NDCube.__init__`: the mask defaults to all-present, the rank check
     * raises ValueError, and an empty set of extra coordinates is stored as
     * None. `extraCoords` is the already formatted (WCS-axis keyed) input.
     */
    static method Create(shape: seq<nat>, wcs: Wcs, missingAxis: Option<seq<bool>>, extraCoords: map<string, StoredCoord>)
      returns (r: Result<NDCube, Error>)
      requires wcs.Valid()
      requires missingAxis.Some? ==> |missingAxis.value| == wcs.naxis
      requires StoredAxesValid(Some(extraCoords), wcs.naxis)
      ensures var m := if missingAxis.None? then DefaultMissingAxis(wcs.naxis) else missingAxis.value;
              && (r.Success? <==> RankAccepted(|shape|, wcs.naxis, m))
              && (r.Failure? ==> r.error == RankMismatch)
              && (r.Success? ==>
                    && fresh(r.value) && r.value.Valid()
                    && r.value.shape == shape && r.value.wcs == wcs && r.value.missingAxis == m
                    && r.value.extraCoordsWcsAxis == (if extraCoords == map[] then None else Some(extraCoords)))
    {
      var m := if missingAxis.None? then DefaultMissingAxis(wcs.naxis) else missingAxis.value;
      if |shape| != wcs.naxis {
        var count := CountPresentAxes(m);
        if count != |shape| {
          return Failure(RankMismatch);
        }
      }
      var extra := if extraCoords == map[] then None else Some(extraCoords);
      var cube := new NDCube(shape, wcs, m, extra);
      r := Success(cube);
    }

    /** `pixel_to_world`: one world quantity per present axis, in data order. */
    method PixelToWorld(q: seq<Quantity>, origin: int, to: Converter) returns (r: Result<seq<Quantity>, Error>)
      requires Valid()
      ensures r == TransformResult(wcs, missingAxis, true, q, origin, to)
      ensures r.Success? ==> |r.value| == Present(missingAxis)
    {
      r := Transform(wcs, missingAxis, q, origin, to, true);
    }

    /** `world_to_pixel`: one pixel quantity per present axis, in data order. */
    method WorldToPixel(q: seq<Quantity>, origin: int, to: Converter) returns (r: Result<seq<Quantity>, Error>)
      requires Valid()
      ensures r == TransformResult(wcs, missingAxis, false, q, origin, to)
      ensures r.Success? ==> |r.value| == Present(missingAxis)
    {
      r := Transform(wcs, missingAxis, q, origin, to, false);
    }

    /** The `dimensions` property: the data shape, and the ctypes of the present axes in data order. */
    method Dimensions() returns (d: DimensionPair)
      requires Valid()
      ensures d.shape == shape
      ensures |d.axisTypes| == Present(missingAxis)
      ensures forall k :: 0 <= k < |d.axisTypes| ==>
                WcsAxes(missingAxis)[k] < wcs.naxis && d.axisTypes[k] == wcs.ctype[WcsAxes(missingAxis)[k]]
    {
      var m := missingAxis;
      var ctype := wcs.ctype;
      var axesCtype: seq<string> := [];
      for i := 0 to |m|
        invariant axesCtype == AscendingTypes(ctype, m, i)
      {
        if !m[i] {
          axesCtype := axesCtype + [ctype[i]];
        }
      }
      d := DimensionPair(shape, Reversed(axesCtype));
      AscendingTypesAt(ctype, m, |m|);
      assert WcsAxes(m) == PresentDesc(m, 0, |m|);
    }

    /**
     * `crop_by_coords`: the slice tuple the cube would be indexed with. The
     * length check is the source's chained comparison, so it fails only when
     * both lengths disagree; the corners go through `world_to_pixel` with
     * origin 0 and `rint` rounds their values.
     */
    function CropByCoords(lower: seq<Quantity>, widths: seq<Quantity>, to: Converter, rint: real -> int)
      : (r: Result<seq<Slice>, Error>)
      reads this
      requires Valid()
      ensures (r.Failure? && r.error == CornerLengthMismatch) <==> |lower| != |widths| && |widths| != |shape|
      ensures r.Success? <==>
                && !(|lower| != |widths| && |widths| != |shape|)
                && TransformResult(wcs, missingAxis, false, lower, 0, to).Success?
                && CornerSums(lower, widths, |shape|, to).Success?
                && TransformResult(wcs, missingAxis, false, CornerSums(lower, widths, |shape|, to).value, 0, to).Success?
                && |shape| <= Present(missingAxis)
      ensures r.Failure? ==>
                r.error == if |lower| != |widths| && |widths| != |shape| then CornerLengthMismatch
                           else if TransformResult(wcs, missingAxis, false, lower, 0, to).Failure?
                           then TransformResult(wcs, missingAxis, false, lower, 0, to).error
                           else if CornerSums(lower, widths, |shape|, to).Failure?
                           then CornerSums(lower, widths, |shape|, to).error
                           else if TransformResult(wcs, missingAxis, false, CornerSums(lower, widths, |shape|, to).value, 0, to).Failure?
                           then TransformResult(wcs, missingAxis, false, CornerSums(lower, widths, |shape|, to).value, 0, to).error
                           else IndexOutOfRange
      ensures r.Success? ==>
                && |r.value| == |shape| <= Present(missingAxis)
                && CornerSums(lower, widths, |shape|, to).Success?
                && var lowerPx := TransformResult(wcs, missingAxis, false, lower, 0, to);
                   var upperPx := TransformResult(wcs, missingAxis, false, CornerSums(lower, widths, |shape|, to).value, 0, to);
                   && lowerPx.Success? && upperPx.Success?
                   && forall i :: 0 <= i < |shape| ==>
                        r.value[i] == Slice(rint(lowerPx.value[i].value), rint(upperPx.value[i].value))
    {
      var n := |shape|;
      if |lower| != |widths| && |widths| != n then Failure(CornerLengthMismatch)
      else match TransformResult(wcs, missingAxis, false, lower, 0, to)
        case Failure(e) => Failure(e)
        case Success(lowerPx) =>
          match CornerSums(lower, widths, n, to)
          case Failure(e) => Failure(e)
          case Success(upper) =>
            match TransformResult(wcs, missingAxis, false, upper, 0, to)
            case Failure(e) => Failure(e)
            case Success(upperPx) => CornerSlices(lowerPx, upperPx, n, rint)
    }

    /**
     * The `extra_coords` property: None when nothing is stored; otherwise the
     * same keys, each value unchanged and its axis recomputed from the stored
     * WCS axis.
     */
    method ExtraCoords() returns (r: Option<map<string, ExtraCoord>>)
      requires Valid()
      ensures r.None? <==> extraCoordsWcsAxis.None? || extraCoordsWcsAxis.value == map[]
      ensures r.Some? ==> extraCoordsWcsAxis.Some? && r.value.Keys == extraCoordsWcsAxis.value.Keys
      ensures r.Some? ==> forall key :: key in r.value ==>
                r.value[key].value == extraCoordsWcsAxis.value[key].value
                && r.value[key].axis == WcsAxisToDataAxis(missingAxis, extraCoordsWcsAxis.value[key].wcsAxis)
    {
      if extraCoordsWcsAxis.None? || extraCoordsWcsAxis.value == map[] {
        return None;
      }
      var stored := extraCoordsWcsAxis.value;
      var result: map<string, ExtraCoord> := map[];
      var keys := stored.Keys;
      while keys != {}
        invariant keys <= stored.Keys
        invariant result.Keys == stored.Keys - keys
        invariant forall key :: key in result ==>
                    result[key] == ExtraCoord(WcsAxisToDataAxis(missingAxis, stored[key].wcsAxis), stored[key].value)
        decreases keys
      {
        var key :| key in keys;
        result := result[key := ExtraCoord(WcsAxisToDataAxis(missingAxis, stored[key].wcsAxis), stored[key].value)];
        keys := keys - {key};
      }
      r := Some(result);
    }
  }

  /**
   * Cropping with zero widths (widths that convert to 0 in the corner's
   * unit) gives an empty slice on every axis: both corners map to the same
   * pixels.
   */
  lemma CropZeroWidths(cube: NDCube, lower: seq<Quantity>, widths: seq<Quantity>, to: Converter, rint: real -> int)
    requires cube.Valid()
    requires |lower| == |widths| == |cube.shape|
    requires forall i :: 0 <= i < |lower| ==> to(widths[i], lower[i].unit) == Some(0.0)
    requires cube.CropByCoords(lower, widths, to, rint).Success?
    ensures forall i :: 0 <= i < |cube.shape| ==>
              cube.CropByCoords(lower, widths, to, rint).value[i].start == cube.CropByCoords(lower, widths, to, rint).value[i].stop
  {
    var sums := CornerSums(lower, widths, |cube.shape|, to).value;
    assert sums == lower;
  }
}

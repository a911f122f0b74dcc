# ndcube axis bookkeeping, in Dafny

This project models two parts of ndcube and proves properties about them. Both are the index arithmetic that sits between a data array and the world coordinate system (WCS) that describes it.

- **`NDCube` in `ndcube/ndcube.py`.** A cube holds a data array of rank R and a WCS with `naxis` axes. The `missing_axis` mask is in WCS order. `true` marks a WCS axis that has no data axis. Data axes run in the reverse of WCS order. The model covers:
  - the constructor's default mask and its rank check;
  - `pixel_to_world` and `world_to_pixel`. Each walks the WCS axes from last to first. A missing axis gets an anchor value. A present axis takes the next caller value, converted to the right unit. The solver is called once, and its outputs for the present axes are read back in data order;
  - the `dimensions` property;
  - `crop_by_coords`;
  - the `extra_coords` property.
- **Aligned axes in `ndcube/utils/collection.py`.**
  - `_sanitize_aligned_axes` normalises and validates the aligned axes of a collection of cubes.
  - `_update_aligned_axes` removes dropped positions from each member's tuple of aligned axes and renumbers the axes that remain.

Modules:

- `Wrappers` (wrappers.dfy): `Option` and `Result`.
- `Axes` (axes.dfy): the correspondence between data axes and WCS axes that a missing-axis mask defines.
  - `WcsAxes(m)[k]` is the WCS axis of data axis k.
  - `DataIndex(m, j)` is the data axis of WCS axis j.
- `Cube` (cube.dfy): the `NDCube` class and its operations.
  - `__init__`, `pixel_to_world`, `world_to_pixel`, `dimensions` and `extra_coords` are methods with loops.
  - `crop_by_coords` is a function.
  - The WCS solver, astropy's unit conversion and numpy's `rint` are function-typed values. The model never looks inside them.
- `AlignedAxes` (aligned_axes.dfy): `_sanitize_aligned_axes`. There are two forms:
  - a method that follows the source's loops and flag lists;
  - a function stating the same result. The lemmas are about this function.
- `AlignedAxesUpdate` (aligned_axes_update.dfy): `_update_aligned_axes`.
  - The drop positions are an `array<int>`. It is decremented in place and shared by all members, as numpy's in-place `-=` on the caller's array does.
  - The functions `Run` (one member) and `Members` (all members) state what the loops compute.
- `AlignedAxesIntended` (aligned_axes_intended.dfy): the intended result of a drop, written without step-by-step renumbering.
  - Running the procedure on a fresh copy of the drop positions for each member meets it.
  - The shared array does not (see Findings).

## Model

| member | source | states |
|---|---|---|
| Axes.PresentDescCount | ndcube/ndcube.py:201-211 | the list of collected WCS axes has one entry per `False` flag in the scanned range |
| Axes.PresentDescDescending | ndcube/ndcube.py:201-211 | the collected WCS axes are strictly descending, because the loop visits axes from the last to the first |
| Axes.WcsOfDataOfWcs | ndcube/ndcube.py:201-211 | a present WCS axis j has a data axis `DataIndex(m, j)` < number of present axes, and that data axis maps back to j |
| Axes.DataOfWcsOfData | ndcube/ndcube.py:201-211 | data axis k maps to a present WCS axis, and that axis maps back to k; with the previous row, the correspondence is a bijection |
| Cube.CountPresentAxes | ndcube/ndcube.py:179-182 | the counting loop returns the number of `False` entries of the mask |
| Cube.DefaultMissingAxis | ndcube/ndcube.py:174-177 | the default mask has `naxis` entries, all `False`, so every WCS axis is present |
| Cube.DefaultMaskRankCheck | ndcube/ndcube.py:174-185 | with the default mask, the rank check accepts exactly the arrays whose rank is `naxis` |
| Cube.AcceptedRankMayExceedPresentAxes | ndcube/ndcube.py:178-185 | when the rank equals `naxis` the count is skipped, so a rank-2 cube with one present axis is accepted |
| Cube.NDCube.Create | ndcube/ndcube.py:172-191 | the mask is the given one or the default; the call fails with RankMismatch exactly when rank ≠ `naxis` and the present count ≠ rank; on success the fields hold shape, WCS and mask, and an empty set of extra coordinates is stored as None |
| Cube.ConvertInputs | ndcube/ndcube.py:201-211 | conversion succeeds iff there are enough caller values and each one the loop reads converts; it then yields exactly the converted values; otherwise it raises IndexError or UnitConversionError |
| Cube.ConvertInputsError | ndcube/ndcube.py:201-211 | which error is raised: UnitConversionError when some value that is read fails to convert, otherwise IndexError |
| Cube.SolverArgs | ndcube/ndcube.py:201-212 | the solver vector has one slot per WCS axis; a missing slot holds its anchor; the slot of the WCS axis of data axis k holds caller value k |
| Cube.ArgsFromSlots | ndcube/ndcube.py:201-212 | the list built by the loop, reversed (`list_arg[::-1]`), is that solver vector |
| Cube.CollectArguments | ndcube/ndcube.py:197-212 | the first loop fails exactly when the conversion does, with the same error; on success, its list reversed is the solver vector and `indexed_not_as_one` is the present WCS axes in descending order |
| Cube.CollectOutputs | ndcube/ndcube.py:214-216 | the second loop reads, for each listed axis in turn, the solver output of that axis tagged with that axis's output unit |
| Cube.ReadOutputsReversed | ndcube/ndcube.py:215-217 | reading the outputs in reversed axis order and then reversing the result gives the outputs in the original axis order |
| Cube.TransformResult | ndcube/ndcube.py:196-241 | a transform succeeds iff at least Present(m) values are given and each one read converts; it returns one quantity per present axis, each carrying the output unit of its WCS axis; otherwise it fails with IndexError or UnitConversionError |
| Cube.Transform | ndcube/ndcube.py:196-217 | the shared body of both transforms: collect arguments, solve once, read outputs; it equals TransformResult |
| Cube.NDCube.PixelToWorld | ndcube/ndcube.py:196-217 | `pixel_to_world` returns the forward TransformResult: one quantity per present axis |
| Cube.NDCube.WorldToPixel | ndcube/ndcube.py:219-241 | `world_to_pixel` returns the inverse TransformResult: one quantity per present axis |
| Cube.PixelToWorldSlots | ndcube/ndcube.py:196-217 | a missing slot j holds `crpix[j]-1+origin`; caller value k, converted to pixels, fills the slot of the WCS axis of data axis k; result k is that axis's `all_pix2world` output tagged with its `cunit` |
| Cube.WorldToPixelSlots | ndcube/ndcube.py:219-241 | a missing slot j holds `crval[j]+1-origin`; caller value k, converted to that axis's `cunit`, fills its slot; result k is that axis's `all_world2pix` output in pixels |
| Cube.NDCube.Dimensions | ndcube/ndcube.py:257-265 | the shape is the data shape; `axis_types` has one entry per present axis, and entry k is the ctype of the WCS axis of data axis k (reverse WCS order) |
| Cube.AscendingTypesAt | ndcube/ndcube.py:259-265 | the ctypes collected in ascending WCS order, read backwards, give the ctypes of the present axes highest first |
| Cube.CornerSums | ndcube/ndcube.py:274-275 | the upper corner is formed iff both lists have n entries and every width converts to its corner's unit; entry i then carries lower[i]'s unit and the sum; otherwise IndexError or UnitConversionError |
| Cube.CornerSumsError | ndcube/ndcube.py:274-275 | which error is raised: UnitConversionError when some width within reach of both lists fails to convert, since those positions come first; otherwise IndexError |
| Cube.NDCube.CropByCoords | ndcube/ndcube.py:267-280 | ValueError iff `len(lower) != len(widths)` and `len(widths) != n_dim` (the chained comparison); success iff that check passes, the lower corner transforms, the upper corner is formed and transforms, and the rank is at most the number of present axes; otherwise the error of the first stage that fails, in source order, with IndexError for the slice lookup; on success, one slice per data axis from the rounded pixel values of both corners |
| Cube.CropZeroWidths | ndcube/ndcube.py:267-279 | widths that convert to zero give an empty slice on every axis |
| Cube.WcsAxisToDataAxis | ndcube/ndcube.py:290-292 | the data axis recomputed from a stored WCS axis is a valid data axis, or None |
| Cube.DataAxisToWcsAxis | ndcube/ndcube.py:187-189 | a data axis is stored under a present WCS axis |
| Cube.ExtraCoordAxisRoundTrip | ndcube/ndcube.py:282-294 | storing a data axis as its WCS axis and reading it back gives the data axis again, and the other way round |
| Cube.NDCube.ExtraCoords | ndcube/ndcube.py:282-294 | None iff nothing is stored; otherwise the same keys, each value unchanged, each axis recomputed from the stored WCS axis |
| AlignedAxes.MaxOf | ndcube/utils/collection.py:63 | `max` of a tuple is at least every entry |
| AlignedAxes.MaxOfAttained | ndcube/utils/collection.py:63 | `max` of a tuple is one of its entries |
| AlignedAxes.ExtentCountsMeaning | ndcube/utils/collection.py:84-89 | the set of the sizes of the per-position extent sets is `{1}` iff there is at least one aligned position and, at each one, every member's extent equals member 0's |
| AlignedAxes.FinalCheck | ndcube/utils/collection.py:84-89 | the closing check passes iff there is at least one aligned position and every member's extents agree there; it fails with IndexError exactly when some axis number is out of range for its member, and otherwise with the "same length" ValueError; it returns the tuples unchanged |
| AlignedAxes.CheckMember | ndcube/utils/collection.py:62-76 | the loop body for one member: its integer flags are all true, and its verdict or error is MemberCheck's |
| AlignedAxes.MemberScanAll | ndcube/utils/collection.py:59-76 | the member loop succeeds iff every member passes, and it records each member's verdict |
| AlignedAxes.ScanMembers | ndcube/utils/collection.py:54-76 | the member loop with its flag lists: it stops at the first failing member with that member's error, or returns all verdicts |
| AlignedAxes.Sanitized | ndcube/utils/collection.py:5-91 | on success: one tuple per member, all of one non-zero length, and the members' extents agree at each aligned position |
| AlignedAxes.SanitizeAlignedAxes | ndcube/utils/collection.py:5-91 | the step-by-step function returns exactly Sanitized, with one tuple per member |
| AlignedAxes.UnsupportedFirstMemberRejected | ndcube/utils/collection.py:21-26 | member 0's dimensions being neither a Quantity nor a tuple raises TypeError |
| AlignedAxes.BareIntRejected | ndcube/utils/collection.py:21-29 | a bare int always fails; with a supported member 0 it fails indexing `aligned_axes[0]`, before the wrapping into a 1-tuple |
| AlignedAxes.NonTupleOrMixedRejected | ndcube/utils/collection.py:30-82 | an indexable non-tuple, or a tuple mixing ints and tuples, raises the generic ValueError |
| AlignedAxes.ListEntriesRejected | ndcube/utils/collection.py:21-82 | a tuple of lists of ints such as `([0], [0])` gets through the lookup in member 0 and then raises the generic ValueError, not IndexError |
| AlignedAxes.IntsReplicated | ndcube/utils/collection.py:37-40 | an accepted tuple of ints is replicated, one copy per member |
| AlignedAxes.IntsAccepted | ndcube/utils/collection.py:37-89 | a tuple of ints is accepted iff every listed axis indexes every member and the extents there equal member 0's |
| AlignedAxes.IntsOutOfRangeRejected | ndcube/utils/collection.py:37-89 | a tuple of ints naming an axis that some member lacks raises IndexError in the closing check |
| AlignedAxes.IntsUnequalRejected | ndcube/utils/collection.py:37-89 | a tuple of ints whose axes every member has, but along which two members' extents differ, raises the "not all of same length" ValueError |
| AlignedAxes.TupleCountChecked | ndcube/utils/collection.py:44-46 | a tuple of tuples with a different count than members raises ValueError |
| AlignedAxes.UnequalTuplesRejected | ndcube/utils/collection.py:48-58 | per-member tuples of unequal length raise ValueError |
| AlignedAxes.FirstFailingMember | ndcube/utils/collection.py:59-76 | the first member that fails its checks decides the error: the rank ValueError when its entries are ints and its rank is below max(highest axis, tuple length), otherwise the TypeError or IndexError of `max` or of the lookup |
| AlignedAxes.UnequalExtentsRejected | ndcube/utils/collection.py:59-80 | when every member passes its checks but one aligned extent differs from member 0's, the "same length" ValueError of lines 79-80 is raised |
| AlignedAxes.TuplesAcceptedOnlyIfFit | ndcube/utils/collection.py:44-91 | an accepted tuple of tuples meets every per-member condition and is returned as given |
| AlignedAxes.TuplesAcceptedIfFit | ndcube/utils/collection.py:44-91 | a tuple of tuples that meets every per-member condition is accepted and returned as given |
| AlignedAxes.RankCheckAdmitsAxisEqualToRank | ndcube/utils/collection.py:62-74 | an axis number equal to the member's rank passes the rank check and then fails at the extent lookup |
| AlignedAxesUpdate.StepKeepsFit | ndcube/utils/collection.py:104-110 | after one drop, the position just read was in range, and the remaining positions still fit the shorter tuple |
| AlignedAxesUpdate.Run | ndcube/utils/collection.py:104-110 | the inner loop removes one axis per drop position, and no drop position ever increases or goes negative |
| AlignedAxesUpdate.Members | ndcube/utils/collection.py:102-112 | one new tuple per member, each shorter by the number of drops; the shared array that is left still fits |
| AlignedAxesUpdate.DecrementAbove | ndcube/utils/collection.py:109-110 | in place, every drop position greater than the one just processed is lowered by one, and the others are kept |
| AlignedAxesUpdate.DropStep | ndcube/utils/collection.py:105-110 | one pass reads the live position, deletes that axis and renumbers the axes above it, then lowers the pending positions in place |
| AlignedAxesUpdate.DropFromMember | ndcube/utils/collection.py:103-111 | the inner loop yields Run's tuple and leaves the shared array as Run says |
| AlignedAxesUpdate.UpdateAlignedAxes | ndcube/utils/collection.py:94-114 | no drops returns the tuples unchanged; as many drops as the first member's tuple has entries returns None and leaves the array alone; otherwise it returns Members' tuples, and the caller's array ends as Members leaves it |
| AlignedAxesUpdate.DropAxisKeepsAxes | ndcube/utils/collection.py:105-108 | removing an axis and renumbering keeps distinct axis numbers distinct and non-negative ones non-negative |
| AlignedAxesUpdate.RunKeepsAxes | ndcube/utils/collection.py:104-110 | the inner loop keeps distinct non-negative axis numbers distinct and non-negative |
| AlignedAxesUpdate.MembersKeepAxes | ndcube/utils/collection.py:102-112 | every member's tuple with distinct non-negative axis numbers keeps that property |
| AlignedAxesIntended.RunMeetsReference | ndcube/utils/collection.py:104-110 | for ascending positions and a tuple of distinct axes, the inner loop yields the intended result: the kept entries, each lowered by the number of removed axes below it |
| AlignedAxesIntended.DropFromCopy | ndcube/utils/collection.py:103-111 | the inner loop on a fresh copy of the positions shortens the tuple by the number of drops and, for distinct axes, gives the intended result |
| AlignedAxesIntended.UpdateAlignedAxesPerMember | ndcube/utils/collection.py:94-114 | the corrected update: the same None and unchanged cases; otherwise every member is shortened by the number of drops, and every member with distinct axes is renumbered as intended |
| AlignedAxesIntended.FirstMemberAsIntended | ndcube/utils/collection.py:102-111 | even with the shared array, the first member in key order gets the intended tuple |
| AlignedAxesIntended.SingleDropAsIntended | ndcube/utils/collection.py:102-111 | with a single drop position, the shared array never changes and every member gets the intended tuple |
| AlignedAxesIntended.SharedDropArrayMisnumbers | ndcube/utils/collection.py:104-110 | dropping positions 0 and 2 from (0, 1, 2, 3) and (0, 1, 3, 2): the second member gets (1, 0), but the intended result is (0, 1) |

## Left out

- The WCS solver (`all_pix2world`, `all_world2pix`), astropy unit conversion and numpy's `rint` are parameters: function values the model does not look inside. Floating point is modelled as `real`.
- `crop_by_coords` returns the tuple of slices, not `self[slic]`. The slicing mixin is not part of this model.
- The `NDData` superclass initialisation, `to_sunpy`, `__repr__`, `NDCubeOrdered` and the plotting mixins are left out. They do not touch the axis bookkeeping, or they depend on code that is not part of this model.
- The helpers `_format_input_extra_coords_to_extra_coords_wcs_axis` and `wcs_axis_to_data_axis` are not part of this model.
  - `Cube.NDCube.Create` takes the extra coordinates already keyed by WCS axis.
  - `Cube.WcsAxisToDataAxis` is defined as the inverse of the correspondence the transform loops build. The shape and naming-conflict checks of the formatting helper are not modelled.
- Cube.TransformResult: no error is raised for surplus caller values, since the loop never reads them.
- Cube.NDCube.Create: no present-axis count is checked when the rank equals `naxis`.
- Cube.NDCube.CropByCoords: `np.rint` rounds half to even. Rounding is a parameter, so no rounding rule is built in.
- Cube.NDCube.Valid: the mask must have exactly `naxis` entries, and the constructor and `Create` require this of a given mask. The code never checks the length of a caller's mask. With a shorter mask the transform loops index `missing_axis` past its end and raise IndexError; with a longer one they reach negative WCS indices, which Python reads from the end. Neither case is modelled.
- Cube.Quantity: a quantity holds one real value. Array-valued quantities, which the transforms and `crop_by_coords` accept and broadcast, are not modelled.
- AlignedAxes.Sanitized: a bare int fails at `aligned_axes[0]`, before the wrapping at lines 28-29 can run, although the docstring says it is accepted. The model follows the code.
- AlignedAxes.Sanitized: inside a per-member tuple, a non-int entry is modelled as a value that `max` cannot compare with ints, which raises TypeError before the rank check. A float entry, which `max` can compare and which may reach the rank check first, is not modelled. numpy integer entries count as ints. Because of this, the ValueError of lines 77-78 for non-integer entries cannot be reached in the model. In the code it can: an entry that Python accepts as an index but that is neither an `int` nor an `np.integer`, such as the 0-d array `np.array(0)`, passes `max`, the rank check and the extent lookup, is flagged at line 73 and raises that ValueError. The model has no variant for such entries.
- AlignedAxes.Sanitized: the kind of member 0's dimensions is kept (Quantity, tuple, other), and only its extents are modelled. For later members the kind is not checked, as in the code.
- AlignedAxesUpdate.UpdateAlignedAxes: when some but not all positions are dropped, the model assumes ascending, distinct, in-range drop positions and tuples of one common length (`Droppable`). The caller of `_update_aligned_axes` is not part of this model. `_sanitize_aligned_axes` guarantees the common length. Negative positions, out-of-range positions (numpy would index from the end, or raise IndexError) and unsorted positions are not modelled.
- AlignedAxesUpdate.UpdateAlignedAxes: the dictionary of aligned axes is a sequence in key order, and `first_key` is an index into it.

## Findings

| source | as written | input that shows it | evidently intended | confidence | as-written member | corrected member |
|---|---|---|---|---|---|---|
| ndcube/utils/collection.py:104-110 | the drop positions are lowered in place on the caller's array, and the next member starts from the lowered array | drop positions [0, 2]; aligned axes {a: (0, 1, 2, 3), b: (0, 1, 3, 2)} | every member drops the original positions: b becomes (0, 1); as written, b becomes (1, 0) | not executed | AlignedAxesIntended.SharedDropArrayMisnumbers | AlignedAxesIntended.UpdateAlignedAxesPerMember |

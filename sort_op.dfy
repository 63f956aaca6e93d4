/** The Sort and ArgSort operators: axis handling, the choice of runtime
    helper functions, the arguments handed to them, the gather index of Sort,
    shape and dtype inference, strategy attributes and the schedule guard. */
module SortOp {
  import opened Results
  import opened CinnTypes
  import opened SortIndex

  /** Target architectures (common::Target::Arch). */
  datatype Arch = UnknownArch | X86 | ARM | NVGPU

  /** The fatal checks of the operator code. */
  datatype SortError =
    | UnsupportedArch     // ArgSort on an architecture other than X86 and NVGPU
    | WrongInputCount     // inference given other than exactly one input
    | MissingAxisAttr     // a strategy without the mandatory "axis" attribute
    | AttrTypeMismatch    // an attribute holding a value of the wrong type
    | AxisOutOfRange      // the input's rank does not exceed the axis

  type Int32 = x: int | -0x8000_0000 <= x < 0x8000_0000

  /** An attribute value: only the alternatives the operator reads. */
  datatype AttrValue = IntAttr(i: Int32) | BoolAttr(b: bool) | OtherAttr

  type Attrs = map<string, AttrValue>

  // ---------------------------------------------------------------------------
  // Axis normalisation

  /** A negative axis counts from the back: the result is the axis itself or
      the axis plus the rank, and it is a valid position exactly when the axis
      lies in [-rank, rank). */
  function NormalizeAxis(axis: int, rank: nat): (r: int)
    ensures r == axis || r == axis + rank
    ensures 0 <= r < rank <==> -(rank as int) <= axis < rank
  {
    if axis < 0 then axis + rank else axis
  }

  /** Every axis in [-rank, rank) lands on the unique position in [0, rank)
      congruent to it modulo the rank. */
  lemma NormalizeAxisInRange(axis: int, rank: nat)
    requires -(rank as int) <= axis < rank
    ensures 0 <= NormalizeAxis(axis, rank) < rank
    ensures NormalizeAxis(axis, rank) % rank == axis % rank
    ensures 0 <= axis ==> NormalizeAxis(axis, rank) == axis
  {
    if axis < 0 {
      assert NormalizeAxis(axis, rank) == axis + rank;
      assert (axis + rank) % rank == axis % rank;
    }
  }

  /** Sort normalises the axis and ArgSort normalises it again: for every
      axis in [-rank, rank) both end up with the same position. */
  lemma NormalizeTwice(axis: int, rank: nat)
    requires -(rank as int) <= axis < rank
    ensures NormalizeAxis(NormalizeAxis(axis, rank), rank) == NormalizeAxis(axis, rank)
  {
    NormalizeAxisInRange(axis, rank);
  }

  // ---------------------------------------------------------------------------
  // Runtime helper names

  datatype ExternNames = ExternNames(indexFunc: string, findFunc: string)

  /** The helper names for each supported architecture and direction. */
  function ExternNamesFor(arch: Arch, isAscend: bool): Option<ExternNames>
  {
    match arch
    case NVGPU =>
      Some(ExternNames(if isAscend then "cinn_cuda_lt_num_float" else "cinn_cuda_gt_num_float",
                       "cinn_cuda_find_int_nd"))
    case X86 =>
      Some(ExternNames(if isAscend then "cinn_host_lt_num_float" else "cinn_host_gt_num_float",
                       "cinn_host_find_int_nd"))
    case _ => None
  }

  /** Builds the names as ArgSort does: a backend prefix, then the comparison
      appended; any architecture other than NVGPU and X86 is fatal. */
  method SelectExternNames(arch: Arch, isAscend: bool) returns (r: Result<ExternNames, SortError>)
    ensures r.Err? <==> ExternNamesFor(arch, isAscend).None?
    ensures r.Err? ==> r.error == UnsupportedArch
    ensures r.Ok? ==> ExternNamesFor(arch, isAscend) == Some(r.value)
  {
    var indexFunc: string;
    var findFunc: string;
    if arch == NVGPU {
      indexFunc := "cinn_cuda_";
      findFunc := "cinn_cuda_find_int_nd";
    } else if arch == X86 {
      indexFunc := "cinn_host_";
      findFunc := "cinn_host_find_int_nd";
    } else {
      return Err(UnsupportedArch);
    }
    if isAscend {
      indexFunc := indexFunc + "lt_num_float";
    } else {
      indexFunc := indexFunc + "gt_num_float";
    }
    assert "cinn_cuda_" + "lt_num_float" == "cinn_cuda_lt_num_float";
    assert "cinn_cuda_" + "gt_num_float" == "cinn_cuda_gt_num_float";
    assert "cinn_host_" + "lt_num_float" == "cinn_host_lt_num_float";
    assert "cinn_host_" + "gt_num_float" == "cinn_host_gt_num_float";
    r := Ok(ExternNames(indexFunc, findFunc));
  }

  /** Different architectures or directions never share a helper, and the
      positions helper is never the find helper. */
  lemma ExternNamesDistinct(a1: Arch, asc1: bool, a2: Arch, asc2: bool)
    requires ExternNamesFor(a1, asc1).Some? && ExternNamesFor(a2, asc2).Some?
    ensures (a1, asc1) != (a2, asc2) ==>
      ExternNamesFor(a1, asc1).value.indexFunc != ExternNamesFor(a2, asc2).value.indexFunc
    ensures a1 != a2 ==>
      ExternNamesFor(a1, asc1).value.findFunc != ExternNamesFor(a2, asc2).value.findFunc
    ensures ExternNamesFor(a1, asc1).value.indexFunc != ExternNamesFor(a2, asc2).value.findFunc
  {
    var n1, n2 := ExternNamesFor(a1, asc1).value, ExternNamesFor(a2, asc2).value;
    // the backend is spelled at position 5, the direction or "find" at 10
    assert n1.indexFunc[5] == (if a1 == NVGPU then 'c' else 'h');
    assert n2.indexFunc[5] == (if a2 == NVGPU then 'c' else 'h');
    assert n2.findFunc[5] == (if a2 == NVGPU then 'c' else 'h');
    assert n1.indexFunc[10] == (if asc1 then 'l' else 'g');
    assert n2.indexFunc[10] == (if asc2 then 'l' else 'g');
    assert n2.findFunc[10] == 'f';
  }

  // ---------------------------------------------------------------------------
  // ArgSort: the arguments of the two runtime calls for one output element

  /** positions(indices) = indexFunc(A, shape[axis], A(indices), offset, stride) */
  datatype PositionsCall = PositionsCall(func: string, axisExtent: int, offset: int, stride: int)

  /** result(indices) = findFunc(positions, shape[axis], indices[axis], offset, stride) */
  datatype FindCall = FindCall(func: string, axisExtent: int, coord: int, offset: int, stride: int)

  datatype ArgSortCalls = ArgSortCalls(positions: PositionsCall, find: FindCall)

  /** The calls ArgSort builds for the output element at `indices`. Both calls
      walk the same slice: the one through `indices` along the normalised
      axis, starting at `offset` and `stride` apart, and `offset` plus the
      element's own axis coordinate times `stride` is the element itself. */
  method ArgSortExternCalls(shape: seq<int>, indices: seq<int>, arch: Arch, axis: int, isAscend: bool)
    returns (r: Result<ArgSortCalls, SortError>)
    requires |indices| == |shape|
    requires -|shape| <= axis < |shape|
    ensures r.Err? <==> arch != X86 && arch != NVGPU
    ensures r.Ok? ==>
      var pos := NormalizeAxis(axis, |shape|);
      var p, f := r.value.positions, r.value.find;
      0 <= pos < |shape| &&
      ExternNamesFor(arch, isAscend) == Some(ExternNames(p.func, f.func)) &&
      p.axisExtent == shape[pos] && f.axisExtent == shape[pos] && f.coord == indices[pos] &&
      p.offset == f.offset && p.stride == f.stride &&
      p.offset == RowMajor(shape, indices[pos := 0]) &&
      p.stride == Product(shape[pos + 1..]) &&
      p.offset + f.coord * p.stride == RowMajor(shape, indices)
  {
    var names := SelectExternNames(arch, isAscend);
    if names.Err? {
      return Err(names.error);
    }
    var pos := NormalizeAxis(axis, |shape|);
    NormalizeAxisInRange(axis, |shape|);
    var offset1, stride1 := OffsetStride(shape, indices, pos);
    var offset2, stride2 := OffsetStride(shape, indices, pos);
    OffsetPlusAxisIsRowMajor(shape, indices, pos);
    r := Ok(ArgSortCalls(
      PositionsCall(names.value.indexFunc, shape[pos], offset1, stride1),
      FindCall(names.value.findFunc, shape[pos], indices[pos], offset2, stride2)));
  }

  // ---------------------------------------------------------------------------
  // Sort: gather along the axis through the ArgSort result

  /** The index Sort reads the input at: the output index with the sort-axis
      coordinate replaced by the ArgSort result, every other coordinate kept. */
  function SortGatherIndex(indices: seq<int>, pos: int, sortIndex: int): (r: seq<int>)
    requires 0 <= pos < |indices|
    ensures |r| == |indices| && r[pos] == sortIndex
    ensures forall k :: 0 <= k < |indices| && k != pos ==> r[k] == indices[k]
  {
    indices[pos := sortIndex]
  }

  /** Sort only reads inside the slice of the element it writes: the gathered
      element is `sortIndex` strides from the slice start ArgSort used. */
  lemma GatherStaysInSlice(shape: seq<int>, indices: seq<int>, pos: int, sortIndex: int)
    requires |indices| == |shape| && 0 <= pos < |shape|
    ensures RowMajor(shape, SortGatherIndex(indices, pos, sortIndex))
            == RowMajor(shape, indices[pos := 0]) + sortIndex * Product(shape[pos + 1..])
  {
    var g := SortGatherIndex(indices, pos, sortIndex);
    assert g[pos := 0] == indices[pos := 0];
    OffsetPlusAxisIsRowMajor(shape, g, pos);
  }

  // ---------------------------------------------------------------------------
  // Shape and dtype inference

  /** The "axis" attribute, 0 when absent; an "axis" holding anything but an
      int is fatal. */
  function AxisOrZero(attrs: Attrs): (r: Result<Int32, SortError>)
    ensures "axis" !in attrs ==> r == Ok(0)
    ensures r.Ok? <==> "axis" !in attrs || attrs["axis"].IntAttr?
    ensures r.Ok? && "axis" in attrs ==> attrs["axis"] == IntAttr(r.value)
    ensures r.Err? ==> r.error == AttrTypeMismatch
  {
    if "axis" !in attrs then Ok(0)
    else match attrs["axis"]
      case IntAttr(i) => Ok(i)
      case _ => Err(AttrTypeMismatch)
  }

  /** The rank check as compiled: the int axis is converted to the unsigned
      size type before the comparison, so a negative axis becomes huge. */
  function AsSizeT(axis: Int32): nat
  {
    if axis < 0 then axis + 0x1_0000_0000_0000_0000 else axis
  }

  /** Shape inference as written: one input, the axis defaults to 0, the rank
      must exceed the axis under the unsigned comparison, and the output has
      the input's shape. */
  function InferShapeForSort(inputs: seq<seq<int>>, attrs: Attrs): (r: Result<seq<seq<int>>, SortError>)
    ensures r.Ok? ==> |inputs| == 1 && r.value == [inputs[0]]
    ensures |inputs| != 1 ==> r == Err(WrongInputCount)
    ensures |inputs| == 1 && AxisOrZero(attrs).Err? ==> r == Err(AttrTypeMismatch)
    ensures |inputs| == 1 && AxisOrZero(attrs).Ok? && |inputs[0]| < 0x8000_0000_0000_0000 ==>
      (r.Ok? <==> 0 <= AxisOrZero(attrs).value < |inputs[0]|)
  {
    if |inputs| != 1 then Err(WrongInputCount)
    else match AxisOrZero(attrs)
      case Err(e) => Err(e)
      case Ok(axis) =>
        if |inputs[0]| > AsSizeT(axis) then Ok([inputs[0]]) else Err(AxisOutOfRange)
  }

  /** The as-written check refuses axis -1 on a rank-1 input, although Sort
      and ArgSort would normalise it to the valid axis 0. */
  lemma InferShapeRejectsNegativeAxis()
    ensures InferShapeForSort([[4]], map["axis" := IntAttr(-1)]) == Err(AxisOutOfRange)
    ensures 0 <= NormalizeAxis(-1, 1) < 1
  {
  }

  /** Shape inference with the rank check the normalisation calls for: every
      axis in [-rank, rank) is accepted. */
  function InferShapeForSortChecked(inputs: seq<seq<int>>, attrs: Attrs): (r: Result<seq<seq<int>>, SortError>)
    ensures r.Ok? ==> |inputs| == 1 && r.value == [inputs[0]]
    ensures |inputs| != 1 ==> r == Err(WrongInputCount)
    ensures |inputs| == 1 && AxisOrZero(attrs).Err? ==> r == Err(AttrTypeMismatch)
    ensures |inputs| == 1 && AxisOrZero(attrs).Ok? ==>
      (r.Ok? <==> -|inputs[0]| <= AxisOrZero(attrs).value < |inputs[0]|)
  {
    if |inputs| != 1 then Err(WrongInputCount)
    else match AxisOrZero(attrs)
      case Err(e) => Err(e)
      case Ok(axis) =>
        if -|inputs[0]| <= axis < |inputs[0]| then Ok([inputs[0]]) else Err(AxisOutOfRange)
  }

  /** Whatever the checked inference accepts, Sort and ArgSort normalise to the
      same in-range axis. */
  lemma CheckedAxisIsUsable(inputs: seq<seq<int>>, attrs: Attrs)
    requires InferShapeForSortChecked(inputs, attrs).Ok?
    ensures AxisOrZero(attrs).Ok?
    ensures 0 <= NormalizeAxis(AxisOrZero(attrs).value, |inputs[0]|) < |inputs[0]|
    ensures NormalizeAxis(NormalizeAxis(AxisOrZero(attrs).value, |inputs[0]|), |inputs[0]|)
            == NormalizeAxis(AxisOrZero(attrs).value, |inputs[0]|)
  {
    NormalizeTwice(AxisOrZero(attrs).value, |inputs[0]|);
    NormalizeAxisInRange(AxisOrZero(attrs).value, |inputs[0]|);
  }

  /** Sort's output has its input's element type. */
  function InferDtypeForSort(types: seq<CinnType>, attrs: Attrs): (r: Result<seq<CinnType>, SortError>)
    ensures r.Ok? <==> |types| == 1
    ensures r.Ok? ==> r.value == types
    ensures r.Err? ==> r.error == WrongInputCount
  {
    if |types| != 1 then Err(WrongInputCount) else Ok([types[0]])
  }

  /** ArgSort's output holds 32-bit integer positions, whatever the input. */
  function InferDtypeForArgSort(types: seq<CinnType>, attrs: Attrs): (r: Result<seq<CinnType>, SortError>)
    ensures r.Ok? <==> |types| == 1
    ensures r.Ok? ==> |r.value| == 1 && IsInt(r.value[0], 32) && r.value[0].lanes == 1
    ensures r.Ok? ==> !r.value[0].cppConst && HandleDepth(r.value[0]) == 0 && r.value[0].customizedType == []
    ensures r.Err? ==> r.error == WrongInputCount
  {
    if |types| != 1 then Err(WrongInputCount) else Ok([Scalar(Int, 32)])
  }

  // ---------------------------------------------------------------------------
  // Strategy attributes and the schedule guard

  datatype SortAttrs = SortAttrs(axis: Int32, isAscend: bool)

  /** The attributes both strategies read: "axis" is mandatory and
      "is_ascend" defaults to ascending. */
  function StrategyAttrs(attrs: Attrs): (r: Result<SortAttrs, SortError>)
    ensures "axis" !in attrs ==> r == Err(MissingAxisAttr)
    ensures r.Ok? <==> "axis" in attrs && attrs["axis"].IntAttr? &&
                       ("is_ascend" !in attrs || attrs["is_ascend"].BoolAttr?)
    ensures r.Ok? ==> attrs["axis"] == IntAttr(r.value.axis)
    ensures r.Ok? ==> (r.value.isAscend <==> "is_ascend" !in attrs || attrs["is_ascend"] == BoolAttr(true))
  {
    if "axis" !in attrs then Err(MissingAxisAttr)
    else if !attrs["axis"].IntAttr? then Err(AttrTypeMismatch)
    else if "is_ascend" !in attrs then Ok(SortAttrs(attrs["axis"].i, true))
    else match attrs["is_ascend"]
      case BoolAttr(b) => Ok(SortAttrs(attrs["axis"].i, b))
      case _ => Err(AttrTypeMismatch)
  }

  /** What the schedule function does with the lowered expressions. */
  datatype ScheduleAction =
    | PassThrough    // the legacy path: the compute result is returned as it is
    | MergeOnly      // expressions merged, no injective schedule
    | CudaInjective  // merged, then the GPU injective schedule
    | CpuInjective   // merged, then the CPU injective schedule

  /** Signed 32-bit wrap-around of an int result: the one int congruent to
      the value modulo 2^32, so a value that already fits is kept. */
  function Wrap32(x: int): (r: Int32)
    ensures r % 0x1_0000_0000 == x % 0x1_0000_0000
    ensures -0x8000_0000 <= x < 0x8000_0000 ==> r == x
  {
    var m := x % 0x1_0000_0000;
    if m >= 0x8000_0000 then m - 0x1_0000_0000 else m
  }

  /** Multiplying congruent values by the same factor keeps them congruent. */
  lemma MulCongruent(a: int, b: int, d: int)
    requires a % 0x1_0000_0000 == b % 0x1_0000_0000
    ensures (a * d) % 0x1_0000_0000 == (b * d) % 0x1_0000_0000
  {
    var j := (a - b) / 0x1_0000_0000;
    assert a - b == 0x1_0000_0000 * j;
    assert a * d == b * d + 0x1_0000_0000 * (j * d);
  }

  /** The element count as the source computes it: accumulated in int,
      wrapping at 32 bits, before it is widened to long. Whatever the shape,
      the result is the true element count wrapped once to 32 bits. */
  function ProdSizeAsWritten(dims: seq<int>): (r: Int32)
    ensures r == Wrap32(Product(dims))
  {
    if |dims| == 0 then 1
    else
      var init, d := ProdSizeAsWritten(dims[..|dims| - 1]), dims[|dims| - 1];
      MulCongruent(init, Product(dims[..|dims| - 1]), d);
      Wrap32(init * d)
  }

  /** When the element count fits in an int the accumulated count is the true
      element count. */
  lemma ProdSizeExactWhenSmall(dims: seq<int>)
    requires -0x8000_0000 <= Product(dims) < 0x8000_0000
    ensures ProdSizeAsWritten(dims) == Product(dims)
  {
  }

  /** The schedule as written, guarded by the wrapped element count: the
      injective schedule of the target is applied exactly when the count
      wrapped to 32 bits exceeds 1. */
  function SortScheduleAsWritten(irSchedule: bool, outputShapes: seq<seq<int>>, arch: Arch): (r: ScheduleAction)
    requires |outputShapes| > 0
    ensures r == PassThrough <==> !irSchedule
    ensures r == CudaInjective <==> irSchedule && Wrap32(Product(outputShapes[0])) > 1 && arch == NVGPU
    ensures r == CpuInjective <==> irSchedule && Wrap32(Product(outputShapes[0])) > 1 && arch == X86
  {
    if !irSchedule then PassThrough
    else if ProdSizeAsWritten(outputShapes[0]) > 1 then
      if arch == NVGPU then CudaInjective else if arch == X86 then CpuInjective else MergeOnly
    else MergeOnly
  }

  /** For every output whose element count fits in an int, the schedule as
      written and the corrected one agree. */
  lemma ScheduleAsWrittenAgreesWhenSmall(irSchedule: bool, outputShapes: seq<seq<int>>, arch: Arch)
    requires |outputShapes| > 0
    requires -0x8000_0000 <= Product(outputShapes[0]) < 0x8000_0000
    ensures SortScheduleAsWritten(irSchedule, outputShapes, arch) == SortSchedule(irSchedule, outputShapes, arch)
  {
    ProdSizeExactWhenSmall(outputShapes[0]);
  }

  /** A 65536 x 65536 output has 2^32 elements, but the wrapped count is 0, so
      the injective schedule is skipped. */
  lemma LargeOutputSkipsSchedule()
    ensures Product([65536, 65536]) == 0x1_0000_0000
    ensures ProdSizeAsWritten([65536, 65536]) == 0
    ensures SortScheduleAsWritten(true, [[65536, 65536]], X86) == MergeOnly
    ensures SortSchedule(true, [[65536, 65536]], X86) == CpuInjective
  {
    assert [65536, 65536][..1] == [65536];
    assert [65536][..0] == [];
  }

  /** The schedule with the guard on the true element count: the injective
      schedule of the target is applied exactly when the output has more
      than one element and the target is a GPU or an x86 host. */
  function SortSchedule(irSchedule: bool, outputShapes: seq<seq<int>>, arch: Arch): (r: ScheduleAction)
    requires |outputShapes| > 0
    ensures r == PassThrough <==> !irSchedule
    ensures r == CudaInjective <==> irSchedule && Product(outputShapes[0]) > 1 && arch == NVGPU
    ensures r == CpuInjective <==> irSchedule && Product(outputShapes[0]) > 1 && arch == X86
  {
    if !irSchedule then PassThrough
    else if Product(outputShapes[0]) > 1 then
      if arch == NVGPU then CudaInjective else if arch == X86 then CpuInjective else MergeOnly
    else MergeOnly
  }
}

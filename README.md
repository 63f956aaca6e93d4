# CINN operator, type-lowering and tensor-type helpers in Dafny

This project models three small pieces of the CINN tensor compiler and proves properties about them.

- **Sort and ArgSort operators** (`cinn/hlir/op/contrib/sort.cc`). The model covers the integer and
  name logic that the operator feeds into its IR: normalising a negative sort axis, and choosing the
  runtime helper functions by target architecture and sort direction. It also covers the slice
  start (`offset`) and step (`stride`) loop that tells those helpers where the one-dimensional slice
  along the axis lies in the row-major tensor. The rest is the index that Sort gathers through, shape
  and dtype inference, the strategy attributes and the "schedule only if more than one element" guard.
- **CINN type to LLVM type** (`cinn/backends/llvm/llvm_util.cc`). `CinnTypeToIrType` is a case analysis
  on the element kind and width. A vector becomes an array of `lanes` elements, and the handle flags
  put one or two pointer levels around that. The `llvm_type_of<T>` specialisations delegate to it.
  LLVM types are values of a datatype. The module's `getTypeByName` is a map from struct names to types.
- **Tensor type tag** (`cinn/hlir/framework/tensor.cc`). `_Tensor_::set_type` records the type on
  the tensor and stamps the runtime buffer with the matching `cinn_type_t` tag. It is modelled
  as a class method with a frame.

Modules: `Results` (`results.dfy`), `CinnTypes` (`cinn_types.dfy`, the `common::Type` record),
`LlvmUtil` (`llvm_util.dfy`), `HlirTensor` (`tensor.dfy`), `SortIndex` (`sort_index.dfy`, row-major
arithmetic and the offset/stride loop) and `SortOp` (`sort_op.dfy`).

The `common::Type` queries come from `cinn/common/type.cc`, which is not part of this model. They are
modelled as tests on the kind and width:

- `is_int(b)` is kind `Int` with width `b`.
- `is_float(b)` is kind `Float` with width `b`.
- `is_bool` is kind `UInt` with width 1.
- `is_void` is kind `Void`.
- `is_customized_type` is kind `Customized`.

None of these queries look at lanes or qualifiers. The `type_of<T>` values come from
`cinn/common/type.h`, which is not part of this model either. They are taken to be:

- `Int(32)`, `Int(64)`, `Float(32)` and `Float(64)` for the numeric C types;
- the customized types `cinn_buffer_t` and `cinn_pod_value_t` for the two runtime structs;
- the same customized types with the handle flag for the two pointer types.

## Model

| member | source | states |
|---|---|---|
| `LlvmUtil.ElementIrType` | cinn/backends/llvm/llvm_util.cc:26-44 | the element converts if and only if it is int8/32/64, bool, float32/64 or void, or a named customized type whose struct the module has; an int becomes an integer of its own width, a bool an 8-bit integer, a float a float or double, a customized type the module's struct; an empty customized name is its own error |
| `LlvmUtil.CinnTypeToIrType` | cinn/backends/llvm/llvm_util.cc:12-61 | conversion succeeds exactly when the element type does; the error is the element's; removing exactly the handle-flag pointer levels leaves an array of `lanes` elements for a vector, otherwise the bare element |
| `LlvmUtil.ScalarMapping` | cinn/backends/llvm/llvm_util.cc:26-39 | int8, int32 and int64 become i8, i32 and i64; bool becomes i8; float32 becomes float, float64 becomes double; void becomes void |
| `LlvmUtil.BoolLikeInt8` | cinn/backends/llvm/llvm_util.cc:32-33 | a bool of any lanes and qualifiers translates exactly like int8 with the same lanes and qualifiers |
| `LlvmUtil.CustomizedLookup` | cinn/backends/llvm/llvm_util.cc:40-43 | a customized type converts if and only if its name is non-empty and the module has struct `"struct." + name`; an empty name is the first fatal check; the element is that struct |
| `LlvmUtil.UnmatchedFails` | cinn/backends/llvm/llvm_util.cc:44 | a non-customized type fails with "can't convert" if and only if no branch matches it (int16, unsigned 32, float16, string, unknown) |
| `LlvmUtil.ConstIgnored` | cinn/backends/llvm/llvm_util.cc:14-16 | the const flag never changes the result |
| `LlvmUtil.ArrayInsidePointers` | cinn/backends/llvm/llvm_util.cc:46-58 | under the pointer levels there is an array of exactly `lanes` elements when lanes > 1, and the bare element otherwise |
| `LlvmUtil.HandleLevels` | cinn/backends/llvm/llvm_util.cc:51-58 | handle adds one pointer, handle-handle adds two, both together add three, all around the element |
| `LlvmUtil.LlvmTypeOf` | cinn/backends/llvm/llvm_util.cc:63-76 | the numeric C types always convert, to a plain scalar; `cinn_buffer_t`, `cinn_pod_value_t` and their pointers convert if and only if the module declares the struct, and the pointer types then give a pointer |
| `LlvmUtil.LlvmTypeOfTable` | cinn/backends/llvm/llvm_util.cc:63-76 | `llvm_type_of<T>` for int32_t, int64_t, float and double is i32, i64, float and double; the runtime structs map to the module struct, and their pointer types to a pointer to it; a missing struct makes all four struct types fail |
| `HlirTensor.RuntimeTag` | cinn/hlir/framework/tensor.cc:25-39 | a known tag describes exactly the type's kind and width; the unknown tag is chosen if and only if no known tag describes the type |
| `HlirTensor.Tensor.SetType` | cinn/hlir/framework/tensor.cc:23-40 | afterwards the tensor's type is `t` and the buffer's tag is `RuntimeTag(t)`; every other part of the tensor and buffer state is unchanged, and only those two fields are in the frame |
| `HlirTensor.RuntimeTagTable` | cinn/hlir/framework/tensor.cc:25-36 | each of int32, int64, float32, float64, float16 and bool gets its own tag, and each tag comes only from that type |
| `HlirTensor.UnlistedTypesAreUnknown` | cinn/hlir/framework/tensor.cc:37-38 | int8, int16, unsigned types other than bool, and the unknown, string, void and customized kinds all get the unknown tag |
| `HlirTensor.SetTypeIdempotent` | cinn/hlir/framework/tensor.cc:23-40 | setting the same type twice gives the same state as setting it once; a later call overrides an earlier one completely |
| `HlirTensor.SetTypeTwice` | cinn/hlir/framework/tensor.cc:23-40 | a caller that calls `SetType(t)` twice ends in the state of one call |
| `SortIndex.OffsetStride` | cinn/hlir/op/contrib/sort.cc:78-89 | `offset` is the row-major position of the index with the axis coordinate set to 0; `stride` is the product of the extents after the axis |
| `SortIndex.OffsetPlusAxisIsRowMajor` | cinn/hlir/op/contrib/sort.cc:80-93 | `offset + indices[axis] * stride` is the row-major position of `indices` itself |
| `SortIndex.SliceElementInRange` | cinn/hlir/op/contrib/sort.cc:90-93 | for in-bounds indices, every slice element `offset + c * stride` with `0 <= c < shape[axis]` lies in `[0, product of shape)` |
| `SortOp.NormalizeAxis` | cinn/hlir/op/contrib/sort.cc:71-74 | the result is the axis or the axis plus the rank, and it is a valid position in `[0, rank)` if and only if the axis lies in `[-rank, rank)` |
| `SortOp.NormalizeAxisInRange` | cinn/hlir/op/contrib/sort.cc:71-74 | an axis in `[-rank, rank)` becomes the one position in `[0, rank)` congruent to it modulo rank; a non-negative axis is unchanged |
| `SortOp.NormalizeTwice` | cinn/hlir/op/contrib/sort.cc:129-133 | Sort normalising and then ArgSort normalising again gives the same axis as normalising once |
| `SortOp.SelectExternNames` | cinn/hlir/op/contrib/sort.cc:55-70 | prefix assignment plus comparison append gives the table's names: `cinn_cuda_`/`cinn_host_` with `lt_num_float` (ascending) or `gt_num_float` (descending), and `cinn_*_find_int_nd`; any other architecture is fatal |
| `SortOp.ExternNamesDistinct` | cinn/hlir/op/contrib/sort.cc:55-70 | different architecture/direction pairs never share a positions helper, different architectures never share a find helper, and no positions helper is a find helper |
| `SortOp.ArgSortExternCalls` | cinn/hlir/op/contrib/sort.cc:49-121 | fails exactly on unsupported architectures; otherwise both calls get the table's names, the normalised axis's extent, and the same in-range slice start and stride; the find call gets the element's axis coordinate, and start plus coordinate times stride is the element itself |
| `SortOp.SortGatherIndex` | cinn/hlir/op/contrib/sort.cc:137-139 | the gather index equals the output index everywhere except the sort axis, which holds the ArgSort result |
| `SortOp.GatherStaysInSlice` | cinn/hlir/op/contrib/sort.cc:133-139 | the element Sort gathers is `sortIndex` strides from the slice start ArgSort used, so it lies in the same slice as the element written |
| `SortOp.AxisOrZero` | cinn/hlir/op/contrib/sort.cc:307-313 | 0 when there is no `axis` attribute; the attribute's int otherwise; an `axis` that does not hold an int is fatal |
| `SortOp.InferShapeForSort` | cinn/hlir/op/contrib/sort.cc:304-317 | as compiled: more or fewer than one input fails; the axis defaults to 0; a non-int axis is fatal; the call succeeds if and only if `0 <= axis < rank` (unsigned comparison); the output is the input shape |
| `SortOp.InferShapeRejectsNegativeAxis` | cinn/hlir/op/contrib/sort.cc:314 | axis -1 on a rank-1 input is refused, although it normalises to the valid axis 0 |
| `SortOp.InferShapeForSortChecked` | cinn/hlir/op/contrib/sort.cc:304-317 | corrected rank check: a non-int axis is fatal; succeeds if and only if one input and `-rank <= axis < rank`; the output is the input shape |
| `SortOp.CheckedAxisIsUsable` | cinn/hlir/op/contrib/sort.cc:314 | whatever the corrected inference accepts, Sort and ArgSort both normalise to the same axis in `[0, rank)` |
| `SortOp.InferDtypeForSort` | cinn/hlir/op/contrib/sort.cc:319-323 | exactly one input type is required; the output type is the input type |
| `SortOp.InferDtypeForArgSort` | cinn/hlir/op/contrib/sort.cc:325-328 | exactly one input type is required; the output is one plain int32 scalar (one lane, not const, no handle, no struct name), whatever the input |
| `SortOp.StrategyAttrs` | cinn/hlir/op/contrib/sort.cc:154-159 | a missing `axis` is fatal; the result's axis is the attribute's; `is_ascend` is true when absent and otherwise follows the attribute (ArgSort repeats this at lines 232-236) |
| `SortOp.ProdSizeAsWritten` | cinn/hlir/op/contrib/sort.cc:202 | the count accumulated in `int` is, for every shape, the true element count wrapped once to 32 bits |
| `SortOp.ProdSizeExactWhenSmall` | cinn/hlir/op/contrib/sort.cc:202 | when the true element count fits in an int, the accumulated count equals it |
| `SortOp.SortScheduleAsWritten` | cinn/hlir/op/contrib/sort.cc:187-219 | as written: pass-through off the IR-schedule path; the CUDA or CPU injective schedule exactly when the 32-bit-wrapped element count exceeds 1 and the target is NVGPU or X86 (ArgSort repeats this at lines 265-297) |
| `SortOp.ScheduleAsWrittenAgreesWhenSmall` | cinn/hlir/op/contrib/sort.cc:202-209 | whenever the element count fits in an int, the guard as written and the corrected guard choose the same schedule |
| `SortOp.LargeOutputSkipsSchedule` | cinn/hlir/op/contrib/sort.cc:202-209 | for a 65536 x 65536 output the accumulated count wraps to 0, so the injective schedule is skipped as written, but the corrected guard applies it |
| `SortOp.SortSchedule` | cinn/hlir/op/contrib/sort.cc:187-219 | corrected guard: pass-through off the IR-schedule path; the CUDA or CPU injective schedule exactly when the output has more than one element and the target is NVGPU or X86 (ArgSort repeats this at lines 265-297) |

## Left out

- cinn/auto_schedule/task/task_optimizer.h: this file declares the tuning loop. Its bodies (`Optimize`, `SearchOneRound`, `PruneInvalid`) and its collaborators are not part of this model. The collaborators are the cost model, the database, the measurer and the evolutionary search. Only the constant `kMaxRetryContinuousEmpty_ = 3` is defined there.
- cinn/backends/extern_func_emitter.h: an abstract emitter interface and a registry. The registry's `Register`/`Lookup` bodies are not part of this model.
- tutorials/matmul.cc: a usage example whose checked strings come from lowering and C code generation, which are not part of this model.
- IR construction: `Compute`, `CallExtern`, `AutoSimplify`, stage insertion, `IRSchedule`, `MergeExprs` and the injective schedules are foreign calls. The model keeps the integer values they are fed. Index expressions are their integer values. Simplification is taken to preserve value. Expression arithmetic is unbounded rather than 32-bit.
- The comparison and sorting themselves: the runtime helpers `cinn_*_lt_num_float`, `cinn_*_gt_num_float` and `cinn_*_find_int_nd` work on floats and are not part of this model.
- LLVM objects: the context and types are values of `IrType`. `getTypeByName` is a map. LLVM's own refusal of a pointer to void is not modelled.
- `LlvmUtil.ElementIrType`: the failure message text, which prints the type, is not kept. The error carries only its kind.
- `HlirTensor.Tensor`: the `buffer_->data()` indirection is one `RuntimeBuffer` object. The `cinn_type_t` encodings are an enumeration of tags.
- Compute-side argument unpacking and its checks are plumbing (non-empty arguments, pack size, tensor argument, non-empty output shapes and types). So are `UniqName`, logging, the tensor-name choice under `FLAGS_cinn_ir_schedule` and the registration macros at sort.cc:334-354. The flag enters the schedule model only as the `irSchedule` parameter.
- `SortOp.ArgSortExternCalls`: requires the axis in `[-rank, rank)`. The source does not check this itself. Outside that range it indexes the shape out of bounds.
- `SortOp.InferShapeForSort`: `size_t` is taken to be 64 bits wide. Its rank-check property is stated for inputs of rank below 2^63.
- `SortOp.SortScheduleAsWritten`: signed `int` overflow is undefined in C++. The model assumes the usual two's-complement wrap-around.

## Findings

| source | as written | input that shows it | evidently intended | confidence | as-written member | corrected member |
|---|---|---|---|---|---|---|
| cinn/hlir/op/contrib/sort.cc:314 | `CHECK_GT(inputs_shape[0].size(), axis)` compares a `size_t` with an `int`. The axis is converted to unsigned, so every negative axis fails the check. | input shape `[4]`, attribute `axis = -1` | accept every axis in `[-rank, rank)`, since Sort and ArgSort normalise negative axes (lines 71-74, 129-132) | not executed; follows from the usual arithmetic conversions in the comparison | `SortOp.InferShapeForSort`, `SortOp.InferShapeRejectsNegativeAxis` | `SortOp.InferShapeForSortChecked`, `SortOp.CheckedAxisIsUsable` |
| cinn/hlir/op/contrib/sort.cc:202 | `std::accumulate(..., 1, std::multiplies<int>())` multiplies in `int` before the result is stored in a `long`, so the element count wraps at 32 bits | output shape `[65536, 65536]` (2^32 elements): the count becomes 0 and the injective schedule is skipped | guard on the true element count (`prod_size > 1`) | not executed; assumes two's-complement wrap-around of the overflow; ArgSort has the same code at line 280 | `SortOp.SortScheduleAsWritten`, `SortOp.LargeOutputSkipsSchedule` | `SortOp.SortSchedule`, `SortOp.ScheduleAsWrittenAgreesWhenSmall` |

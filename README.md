# OneFlow: broadcast index calculators, hierarchical boxing, VM stream init

This project is a Dafny model of three pieces of OneFlow, with proofs about each.

1. **Broadcast elementwise unary primitive** (`broadcast_elementwise_unary.dfy`, module
   `BroadcastElementwiseUnary`).
   - `CheckInplace` and `IsDimsEquals` check shapes.
   - `IndexToOffsetWithStrideCalculator` and `OffsetToIndexWithStrideCalculator` convert between
     an n-d index and a flat offset.
   - Each calculator is a class. Its fixed-size buffer (`stride_[N]` or `math_helper_[N]`) is an
     `array`, filled by the same index loops as the source.
   - The conversions are proved against the specification functions `Dot` (weighted sum),
     `RowMajorStrides` (product of the later dims) and `Decompose` (quotients, then the remainder).
   - Both round trips are proved: offset → index → offset, and in-range index → offset → index.
     The index entries are proved to stay within their dims.
2. **Hierarchical sub-task-graph builders** of boxing.
   - `boxing_dispatch.dfy` (`BoxingDispatch`) covers the pure decision cascade: Dispatch, Flat,
     Same2DHierarchy, ExpandToSame2DHierarchy and Dim0NdSbpMismatched.
     - Each `Build` becomes a function returning the `Route` it delegates to: a leaf builder and
       the arguments it receives.
     - Lemmas state the full routing table.
   - `boxing_groups.dfy` (`BoxingGroups`) covers the imperative IntraGroup and InterGroup builders.
     - They resize and fill `sorted_out_tasks` and `sorted_ctrl_tasks` in place. These are the
       fields of the class `BoxingOutput`.
     - Both builders share one loop, `RegroupBuild`. It is parameterised by a `Layout`:
       consecutive groups `i*h1 + j` for IntraGroup, strided groups `j*h1 + i` for InterGroup.
     - The loop is proved against the per-group specification `GroupStep`.
     - The id layout is proved to partition the parallel ids.
3. **VM stream initialisation** (`vm_stream.dfy`, `VmStream`).
   - `Stream::__Init__` is a method on a `Stream` class. A ghost trace records the order of its
     steps.
   - The accessors `device_id()` and `stream_type()` are the functions `Stream.DeviceId` and
     `Stream.StreamTypeOf`.

`int_arith.dfy` (`IntArith`) holds the shared arithmetic:
- C++ truncating division `DivTrunc`.
- The shape element count `Product`.
- Uniqueness of Euclidean quotient and remainder.

Modelling conventions:
- Integers are unbounded.
- A `FastIntegerMath<T>(d)` helper is represented by its divisor `d`. Its `divides` is C++
  integer division and its `mul` is multiplication.
- Several aborts become results: a failing `CHECK_EQ` or `CHECK_JUST` returns `false`. A Maybe
  error or a `std::vector::at` that throws returns an `Err` value.
- Preconditions cover what the source leaves undefined:
  - `index[n - 1]` with `n < 1`;
  - division by a zero stride;
  - reading `device_` or `stream_type_` before it is bound.
- Preconditions also state the invariants of the source's own types:
  - an nd_sbp has one entry per axis of its placement's hierarchy;
  - a `ParallelDesc` has positive hierarchy dims and one device per parallel id (`WellFormedDesc`).
- The number of input tasks is not assumed. A group whose input task is missing fails with
  `OutOfRange`, as `sorted_in_tasks.at` throws. A longer vector is accepted.
- `kMaxNumDims` is the constant `MaxNumDims`.

`device_id()` dereferences `device_` without a check (`oneflow/core/vm/stream.cpp:34`), so
`Stream.DeviceId` requires a bound device.

## Model

| member | source | states |
|---|---|---|
| BroadcastElementwiseUnary.CheckInplace | oneflow/core/ep/common/primitive/broadcast_elementwise_unary.h:32-39 | passes iff every aliased source has the destination's first num_dims dims; passes whenever neither source aliases the destination |
| BroadcastElementwiseUnary.IsDimsEquals | oneflow/core/ep/common/primitive/broadcast_elementwise_unary.h:41-48 | true iff the dim counts are equal and the dims agree pairwise, i.e. iff the two dim prefixes are equal sequences |
| BroadcastElementwiseUnary.IndexToOffsetWithStrideCalculator.constructor | oneflow/core/ep/common/primitive/broadcast_elementwise_unary.h:55-57 | the stride buffer is the first N given strides |
| BroadcastElementwiseUnary.IndexToOffsetWithStrideCalculator.WithCount | oneflow/core/ep/common/primitive/broadcast_elementwise_unary.h:59-62 | the stride buffer is the first n given strides followed by N-n ones |
| BroadcastElementwiseUnary.IndexToOffsetWithStrideCalculator.InitStrides | oneflow/core/ep/common/primitive/broadcast_elementwise_unary.h:91-94 | stride[i] == strides[i] for i < n and stride[i] == 1 for n <= i < N |
| BroadcastElementwiseUnary.IndexToOffsetWithStrideCalculator.NdIndexToOffset | oneflow/core/ep/common/primitive/broadcast_elementwise_unary.h:66-74 | the offset is the weighted sum of the first N-1 axes plus index[N-1]: the last stride counts as 1 |
| BroadcastElementwiseUnary.IndexToOffsetWithStrideCalculator.NdIndexToOffsetUpTo | oneflow/core/ep/common/primitive/broadcast_elementwise_unary.h:76-86 | the offset is the weighted sum over the first n axes (0 when n <= 0); entries beyond n are ignored |
| BroadcastElementwiseUnary.OffsetToIndexWithStrideCalculator.constructor | oneflow/core/ep/common/primitive/broadcast_elementwise_unary.h:104-106 | the divisors are the row-major strides of the first N dims |
| BroadcastElementwiseUnary.OffsetToIndexWithStrideCalculator.WithCount | oneflow/core/ep/common/primitive/broadcast_elementwise_unary.h:108-110 | the divisors are the row-major strides of the first n dims followed by N-n ones |
| BroadcastElementwiseUnary.OffsetToIndexWithStrideCalculator.InitFastIntegerMath | oneflow/core/ep/common/primitive/broadcast_elementwise_unary.h:147-157 | divisor i is the product of dims[i+1..n) for i < n, and 1 from n on |
| BroadcastElementwiseUnary.OffsetToIndexWithStrideCalculator.OffsetToNdIndex | oneflow/core/ep/common/primitive/broadcast_elementwise_unary.h:114-125 | index[0..N) receives the quotients of the offset by the first N-1 divisors in turn and then the remainder; nothing else is written |
| BroadcastElementwiseUnary.OffsetToIndexWithStrideCalculator.OffsetToNdIndexUpTo | oneflow/core/ep/common/primitive/broadcast_elementwise_unary.h:127-142 | the same decomposition over the first n divisors; index[n..] is left unchanged |
| BroadcastElementwiseUnary.RowMajorStrides | oneflow/core/ep/common/primitive/broadcast_elementwise_unary.h:149-155 | one stride per dim; all strides are positive when all dims are |
| BroadcastElementwiseUnary.RowMajorStep | oneflow/core/ep/common/primitive/broadcast_elementwise_unary.h:153-155 | stride i is dims[i+1] times stride i+1 |
| BroadcastElementwiseUnary.RowMajorLast | oneflow/core/ep/common/primitive/broadcast_elementwise_unary.h:149-152 | the last row-major stride is 1 |
| BroadcastElementwiseUnary.RowMajorTail | oneflow/core/ep/common/primitive/broadcast_elementwise_unary.h:153-155 | the strides of the dims after the first are the strides after the first, and the first is the product of the later dims |
| BroadcastElementwiseUnary.DecomposeStep | oneflow/core/ep/common/primitive/broadcast_elementwise_unary.h:119-123 | one loop step of OffsetToNdIndex peels the quotient for axis i and continues on the rest |
| BroadcastElementwiseUnary.DotDependsOnPrefix | oneflow/core/ep/common/primitive/broadcast_elementwise_unary.h:82-84 | the weighted sum over n axes depends only on the first n indices and strides |
| BroadcastElementwiseUnary.DecomposeSum | oneflow/core/ep/common/primitive/broadcast_elementwise_unary.h:127-142 | the loop invariant offset == sum of index[j]*stride[j] for j < i, plus remaining, taken to the end: the decomposed index recombines to the offset |
| BroadcastElementwiseUnary.DecomposeInRange | oneflow/core/ep/common/primitive/broadcast_elementwise_unary.h:127-142 | for positive dims and 0 <= offset < product of dims, every index entry lies in [0, dims[k]) |
| BroadcastElementwiseUnary.DotInRange | oneflow/core/ep/common/primitive/broadcast_elementwise_unary.h:76-86 | an in-range index recombines to an offset in [0, product of dims) |
| BroadcastElementwiseUnary.DecomposeDot | oneflow/core/ep/common/primitive/broadcast_elementwise_unary.h:127-157 | an in-range index recombined with row-major strides decomposes back to itself |
| BroadcastElementwiseUnary.OffsetRoundTrip | oneflow/core/ep/common/primitive/broadcast_elementwise_unary.h:76-157 | OffsetToNdIndex(offset, ., n) followed by NdIndexToOffset(., n) with the same row-major strides returns the offset; the index is in range when the offset is |
| BroadcastElementwiseUnary.IndexRoundTrip | oneflow/core/ep/common/primitive/broadcast_elementwise_unary.h:76-157 | an in-range index maps to an offset in [0, product of dims) and comes back unchanged |
| BroadcastElementwiseUnary.FullRankRoundTrip | oneflow/core/ep/common/primitive/broadcast_elementwise_unary.h:66-125 | the overloads without a count round-trip any offset over all N dims |
| BoxingDispatch.FlatRoute | oneflow/core/graph/boxing/hierarchical_sub_task_graph_builder_impl.cpp:66-74 | goes to the 1-D chain, with sbp(0) of each side and the arguments unchanged, iff both hierarchies are 1-D; else BoxingNotSupported |
| BoxingDispatch.Dim0MismatchedRoute | oneflow/core/graph/boxing/hierarchical_sub_task_graph_builder_impl.cpp:257-270 | reaches InterGroup, with the same arguments, iff same 2-D hierarchy, sbp(0) differs, sbp(1) agrees and neither side is all-same-split; otherwise BoxingNotSupported |
| BoxingDispatch.Same2DRoute | oneflow/core/graph/boxing/hierarchical_sub_task_graph_builder_impl.cpp:295-310 | on the same 2-D hierarchy: IntraGroup iff sbp(0) agrees and sbp(1) differs; InterGroup iff sbp(0) differs, sbp(1) agrees, no side all-same-split; never the 1-D chain |
| BoxingDispatch.ExpandRoute | oneflow/core/graph/boxing/hierarchical_sub_task_graph_builder_impl.cpp:335-361 | only for equal element counts and a 1-D/2-D pair; the 1-D side is given the other side's hierarchy, keeps its devices, and gets its sbp(0) twice |
| BoxingDispatch.DispatchRoute | oneflow/core/graph/boxing/hierarchical_sub_task_graph_builder_impl.cpp:396-427 | more than 2 axes on a side is BoxingNotSupported; each leaf's guard holds of the arguments it receives; tasks and blob shape pass through; valid arguments stay valid |
| BoxingDispatch.DispatchOneDIff | oneflow/core/graph/boxing/hierarchical_sub_task_graph_builder_impl.cpp:405-410 | the 1-D chain is reached iff both reduced hierarchies are 1-D |
| BoxingDispatch.IntraGroupRoute | oneflow/core/graph/boxing/hierarchical_sub_task_graph_builder_impl.cpp:95-153 | the regrouping loop is reached, with the arguments unchanged, iff both sides share one 2-D hierarchy with sbp(0) equal and sbp(1) different; otherwise BoxingNotSupported |
| BoxingDispatch.InterGroupRoute | oneflow/core/graph/boxing/hierarchical_sub_task_graph_builder_impl.cpp:175-233 | the regrouping loop is reached, with the arguments unchanged, iff both sides share one 2-D hierarchy with sbp(1) equal, sbp(0) different and neither nd_sbp all-same-split; otherwise BoxingNotSupported |
| BoxingDispatch.DispatchIntraGroupIff | oneflow/core/graph/boxing/hierarchical_sub_task_graph_builder_impl.cpp:396-427 | IntraGroup is reached iff same 2-D hierarchy with sbp(0) equal and sbp(1) different, or a 1-D side whose doubled sbp(0) meets the 2-D side that way |
| BoxingDispatch.DispatchInterGroupIff | oneflow/core/graph/boxing/hierarchical_sub_task_graph_builder_impl.cpp:396-427 | InterGroup is reached iff the mirror-image conditions hold and neither (possibly expanded) nd_sbp is all-same-split |
| BoxingDispatch.ExpandIntermediate | oneflow/core/graph/boxing/hierarchical_sub_task_graph_builder_impl.cpp:338-358 | after expansion the regrouping builder sees the 1-D side with the 2-D hierarchy and [sbp(0), sbp(0)], and the other side untouched |
| BoxingDispatch.SameNdSbpNotSupported | oneflow/core/graph/boxing/hierarchical_sub_task_graph_builder_impl.cpp:295-310 | equal 2-D nd_sbps over one hierarchy are BoxingNotSupported |
| BoxingGroups.LayoutBijection | oneflow/core/graph/boxing/hierarchical_sub_task_graph_builder_impl.cpp:118 | member j of group i is a parallel id below h0*h1 whose group is i and position j |
| BoxingGroups.LayoutInverse | oneflow/core/graph/boxing/hierarchical_sub_task_graph_builder_impl.cpp:198 | every parallel id below h0*h1 is member MemberOf(p) of group GroupOf(p) |
| BoxingGroups.GroupsPartition | oneflow/core/graph/boxing/hierarchical_sub_task_graph_builder_impl.cpp:107-126 | the groups partition the parallel ids: (group, position) and id correspond one to one |
| BoxingGroups.GroupIds | oneflow/core/graph/boxing/hierarchical_sub_task_graph_builder_impl.cpp:117-118 | group i has group-size ids, each in range, in group i, at its own position |
| BoxingGroups.GroupDesc | oneflow/core/graph/boxing/hierarchical_sub_task_graph_builder_impl.cpp:111-125 | a group's placement keeps the device tag, has hierarchy [group size] and the devices of the group's ids, and is well formed |
| BoxingGroups.SplitAxisShape | oneflow/core/graph/boxing/hierarchical_sub_task_graph_builder_impl.cpp:127-131 | fails with OutOfRange iff the split axis is outside the shape; otherwise only the split axis changes, to its truncated quotient by the part count |
| BoxingGroups.GroupRequest | oneflow/core/graph/boxing/hierarchical_sub_task_graph_builder_impl.cpp:107-139 | the sub-build of group i gets, for each position j, the task and the devices of parallel id MemberId(i, j), on well-formed 1-D placements |
| BoxingGroups.GroupStep | oneflow/core/graph/boxing/hierarchical_sub_task_graph_builder_impl.cpp:117-148 | a group succeeds only when all its input tasks exist, with the sub-builder's result for its request, exactly group-size out tasks and enough control tasks; a missing input task or a bad split axis is OutOfRange |
| BoxingGroups.GatherGroup | oneflow/core/graph/boxing/hierarchical_sub_task_graph_builder_impl.cpp:116-126 | the gather loop succeeds iff every id of the group has an input task, and then yields the group's tasks and 1-D placements |
| BoxingGroups.ScatterGroup | oneflow/core/graph/boxing/hierarchical_sub_task_graph_builder_impl.cpp:140-148 | out task j lands in slot ids[j]; control tasks j are appended to it; other slots unchanged; fails iff control tasks are present but too few |
| BoxingGroups.BuildGroup | oneflow/core/graph/boxing/hierarchical_sub_task_graph_builder_impl.cpp:108-147 | one group's gather, shape split, sub-build and scatter yields exactly that group's specified step; other groups' slots are untouched; after success every slot of the group holds its result |
| BoxingGroups.RegroupBuild | oneflow/core/graph/boxing/hierarchical_sub_task_graph_builder_impl.cpp:100-150 | both vectors are resized to the parallel num; success iff every group succeeds, with one status per group; else the first failing group's error; every finished slot holds its group's result |
| BoxingGroups.IntraGroupBuild | oneflow/core/graph/boxing/hierarchical_sub_task_graph_builder_impl.cpp:96-153 | BoxingNotSupported and nothing changed unless the guard holds; then the regrouping loop over consecutive groups |
| BoxingGroups.InterGroupBuild | oneflow/core/graph/boxing/hierarchical_sub_task_graph_builder_impl.cpp:175-233 | BoxingNotSupported and nothing changed unless the guard holds; then the regrouping loop over strided groups |
| VmStream.Stream.constructor | oneflow/core/vm/stream.cpp:26 | a stream before initialisation has nothing bound |
| VmStream.Stream.Init | oneflow/core/vm/stream.cpp:26-32 | thread context, device and role are the arguments; succeeds iff the lookup does; the stream type is the looked-up one; the device context is what InitDeviceCtx makes of it; steps in source order |
| VmStream.InitSequenceOrdered | oneflow/core/vm/stream.cpp:27-31 | a complete init initialises the device context exactly once, after all four fields; an init stopped at the lookup never does |
| VmStream.Stream.DeviceId | oneflow/core/vm/stream.cpp:34 | the result is the id of the bound device; after a successful init it is the given device's id (InitAndQuery) |
| VmStream.Stream.StreamTypeOf | oneflow/core/vm/stream.cpp:36 | the result is the bound stream type; after a successful init it is the looked-up type (InitAndQuery) |
| VmStream.InitAndQuery | oneflow/core/vm/stream.cpp:26-36 | after init device_id() is the device's id and stream_type() the looked-up type; the ordering holds iff init succeeded |

## Left out

- `InOutParallelDimReduce` is not part of this model. `BoxingDispatch.DispatchRoute` starts from the reduced placements and nd_sbps.
- The 1-D sub-builders (`Make1DSubTskGphBuilder` and the chain it builds) are not modelled.
  - In the regrouping loop, the sub-builder is the function parameter `sub`.
  - The route `OneD` records the call but does not follow it.
- `NdSbpAllSameSplitParallel` is the function parameter `allSameSplit`.
- `ParallelDesc`/`ParallelConf` internals are out, and so is the `"@machine:device"` string
  formatting.
  - A placement is modelled as its device tag, hierarchy and per-id `DeviceName`.
  - `MachineId4ParallelId`/`DeviceId4ParallelId` cannot fail for ids in range of a well-formed
    placement, so their `JUST` errors are not modelled.
- `MakeComposedSubTskGphBuilderStatus` is not modelled. A successful regrouping returns the list of per-group statuses it composes.
- `SubTskGphBuilderCtx`, `lbi`, `time_shape` and the blob's data type pass through unchanged and are not represented.
- BoxingGroups.RegroupBuild: when a group fails, nothing is stated about that group's own slots. A failing scatter may have written some of them. The status the source pushes before its `CHECK_EQ_OR_RETURN` is dropped with the error.
- A `std::vector::at` that throws `std::out_of_range` becomes the error `OutOfRange`. Exception propagation as such is not modelled.
- int64 overflow in offsets, strides and ids is not modelled: integers are unbounded.
- `FastIntegerMath` internals are replaced by exact truncating division.
- CUDA `#pragma unroll`, `OF_DEVICE_FUNC` and the host/device split are out.
- The default constructors leave the buffers uninitialised, so they are not modelled. `Size()` is the constant field `N`.
- BroadcastElementwiseUnary.CheckInplace: the process abort of a failing `CHECK_EQ` is the result `false`.
- The `GetStreamType` table (`StreamRoleSwitch<GetStreamType>`) is the function parameter `lookup`.
- The effect of `StreamType::InitDeviceCtx` is the function parameter `initCtx`, which sees the stream through a `StreamView`.
- VmStream.Stream.Init: InitDeviceCtx is assumed to change only the device context. The source passes it a mutable `Stream*`, through which it could change other fields; the model's postconditions on the other fields rely on this assumption.
- VmStream.Stream.Init: the process abort of a failing `CHECK_JUST` is the result `false`. The stream is then left with the three fields already set.
- `__Init__` may be called again on an initialised stream. The source does not prevent it, and neither does the model.
- The rest of `Stream` (instruction lists, scheduling) is not in the modelled files.

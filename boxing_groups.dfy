/**
 * The two regrouping builders of a 2-D hierarchy [h0, h1].
 *
 * IntraGroupSubTskGphBuilder cuts the parallel ids 0 .. h0*h1-1 into h0
 * groups of h1 consecutive ids (group i holds i*h1 + j). InterGroupSubTskGphBuilder
 * cuts them into h1 strided groups of h0 ids (group i holds j*h1 + i).
 * Each group is boxed by the 1-D sub-builder on its own 1-D placement. Then
 * the group's output tasks and control tasks are scattered back to the
 * parallel ids they came from. The two builders share this loop; a Layout says
 * which way the ids are grouped.
 */
module BoxingGroups {
  import opened IntArith
  import opened BoxingDispatch

  /** Consecutive: IntraGroup's grouping. Strided: InterGroup's grouping. */
  datatype Layout = Consecutive | Strided

  /** A 2-D hierarchy with positive axes. */
  predicate TwoAxes(h: Shape)
  {
    |h| == 2 && h[0] >= 1 && h[1] >= 1
  }

  /** Number of groups: h0 for IntraGroup, h1 for InterGroup. */
  function NumGroups(layout: Layout, h: Shape): int
    requires |h| == 2
  {
    if layout.Consecutive? then h[0] else h[1]
  }

  /** Size of each group: h1 for IntraGroup, h0 for InterGroup. */
  function GroupSize(layout: Layout, h: Shape): int
    requires |h| == 2
  {
    if layout.Consecutive? then h[1] else h[0]
  }

  /** The hierarchy axis whose sbp both sides share; it also splits the blob shape. */
  function FixedAxis(layout: Layout): nat
  {
    if layout.Consecutive? then 0 else 1
  }

  /** The hierarchy axis whose sbp the 1-D sub-builder boxes. */
  function VaryingAxis(layout: Layout): nat
  {
    if layout.Consecutive? then 1 else 0
  }

  /** The parallel id of member j of group i. */
  function MemberId(layout: Layout, h: Shape, i: int, j: int): int
    requires |h| == 2
  {
    if layout.Consecutive? then i * h[1] + j else j * h[1] + i
  }

  /** The group a parallel id belongs to. */
  function GroupOf(layout: Layout, h: Shape, p: int): int
    requires TwoAxes(h)
  {
    if layout.Consecutive? then p / h[1] else p % h[1]
  }

  /** The position of a parallel id inside its group. */
  function MemberOf(layout: Layout, h: Shape, p: int): int
    requires TwoAxes(h)
  {
    if layout.Consecutive? then p % h[1] else p / h[1]
  }

  /** The element count of a 2-D shape. */
  lemma ProductTwo(h: Shape)
    requires |h| == 2
    ensures Product(h) == h[0] * h[1]
  {
    assert h[1..][1..] == [];
    assert Product(h[1..]) == h[1] * Product(h[1..][1..]);
  }

  /** A quotient below `bound` and a remainder below d make an id below bound*d, and back. */
  lemma IdCompose(q: int, r: int, d: int, bound: int)
    requires d > 0 && 0 <= r < d && 0 <= q < bound
    ensures 0 <= q * d + r < bound * d
    ensures (q * d + r) / d == q && (q * d + r) % d == r
  {
    DivModUnique(q * d + r, q, r, d);
    MulMonotone(q + 1, bound, d);
  }

  /** An id below bound*d has a quotient below `bound` and a remainder below d. */
  lemma IdDecompose(p: int, d: int, bound: int)
    requires d > 0 && 0 <= p < bound * d
    ensures 0 <= p / d < bound && 0 <= p % d < d && (p / d) * d + p % d == p
  {
    var q := p / d;
    if q >= bound {
      MulMonotone(bound, q, d);
    }
  }

  /** Member j of group i is a parallel id in range, and it knows its group and position. */
  lemma LayoutBijection(layout: Layout, h: Shape, i: int, j: int)
    requires TwoAxes(h)
    requires 0 <= i < NumGroups(layout, h) && 0 <= j < GroupSize(layout, h)
    ensures 0 <= MemberId(layout, h, i, j) < h[0] * h[1]
    ensures GroupOf(layout, h, MemberId(layout, h, i, j)) == i
    ensures MemberOf(layout, h, MemberId(layout, h, i, j)) == j
  {
    if layout.Consecutive? {
      IdCompose(i, j, h[1], h[0]);
    } else {
      IdCompose(j, i, h[1], h[0]);
    }
  }

  /** Every parallel id in range is a member of some group at some position. */
  lemma LayoutInverse(layout: Layout, h: Shape, p: int)
    requires TwoAxes(h) && 0 <= p < h[0] * h[1]
    ensures 0 <= GroupOf(layout, h, p) < NumGroups(layout, h)
    ensures 0 <= MemberOf(layout, h, p) < GroupSize(layout, h)
    ensures MemberId(layout, h, GroupOf(layout, h, p), MemberOf(layout, h, p)) == p
  {
    IdDecompose(p, h[1], h[0]);
  }

  /**
   * The groups partition the parallel ids: (group, position) and parallel id
   * are in one-to-one correspondence, so each output slot is written by
   * exactly one group, at exactly one position.
   */
  lemma GroupsPartition(layout: Layout, h: Shape)
    requires TwoAxes(h)
    ensures forall i, j :: 0 <= i < NumGroups(layout, h) && 0 <= j < GroupSize(layout, h) ==>
              && 0 <= MemberId(layout, h, i, j) < h[0] * h[1]
              && GroupOf(layout, h, MemberId(layout, h, i, j)) == i
              && MemberOf(layout, h, MemberId(layout, h, i, j)) == j
    ensures forall p :: 0 <= p < h[0] * h[1] ==>
              && 0 <= GroupOf(layout, h, p) < NumGroups(layout, h)
              && 0 <= MemberOf(layout, h, p) < GroupSize(layout, h)
              && MemberId(layout, h, GroupOf(layout, h, p), MemberOf(layout, h, p)) == p
  {
    forall i, j | 0 <= i < NumGroups(layout, h) && 0 <= j < GroupSize(layout, h) {
      LayoutBijection(layout, h, i, j);
    }
    forall p | 0 <= p < h[0] * h[1] {
      LayoutInverse(layout, h, p);
    }
  }

  /** The parallel ids of group i, in member order. */
  function GroupIds(layout: Layout, h: Shape, i: int): (ids: seq<int>)
    requires TwoAxes(h) && 0 <= i < NumGroups(layout, h)
    ensures |ids| == GroupSize(layout, h)
    ensures forall j :: 0 <= j < |ids| ==>
              && ids[j] == MemberId(layout, h, i, j)
              && 0 <= ids[j] < h[0] * h[1]
              && GroupOf(layout, h, ids[j]) == i
              && MemberOf(layout, h, ids[j]) == j
  {
    GroupsPartition(layout, h);
    seq(GroupSize(layout, h), j requires 0 <= j < GroupSize(layout, h) => MemberId(layout, h, i, j))
  }

  function Gather<T>(s: seq<T>, ids: seq<int>): seq<T>
    requires forall k :: 0 <= k < |ids| ==> 0 <= ids[k] < |s|
  {
    seq(|ids|, k requires 0 <= k < |ids| => s[ids[k]])
  }

  /** The 1-D placement of one group: the parent's device tag, hierarchy [group size], its devices. */
  function GroupDesc(parent: ParallelDesc, ids: seq<int>): (d: ParallelDesc)
    requires forall k :: 0 <= k < |ids| ==> 0 <= ids[k] < |parent.devices|
    ensures d.deviceTag == parent.deviceTag && d.hierarchy == [|ids|]
    ensures ParallelNum(d) == |ids|
    ensures forall k :: 0 <= k < |ids| ==> d.devices[k] == parent.devices[ids[k]]
    ensures |ids| >= 1 ==> WellFormedDesc(d)
  {
    var h: Shape := [|ids|];
    assert h[1..] == [];
    assert Product(h) == |ids|;
    ParallelDesc(parent.deviceTag, h, Gather(parent.devices, ids))
  }

  /**
   * The blob shape each group sees: the split axis of `sbp` divided
   * (truncating) by `parts`; std::vector::at throws on an axis out of range.
   */
  function SplitAxisShape(shape: Shape, sbp: Sbp, parts: int): (r: Result<Shape>)
    requires parts >= 1
    ensures r.Err? <==> sbp.Split? && !(0 <= sbp.axis < |shape|)
    ensures r.Err? ==> r.error == OutOfRange
    ensures r.Ok? ==> |r.value| == |shape|
    ensures r.Ok? ==> forall k :: 0 <= k < |shape| && !(sbp.Split? && k == sbp.axis) ==> r.value[k] == shape[k]
    ensures r.Ok? && sbp.Split? && shape[sbp.axis] >= 0 ==>
              r.value[sbp.axis] * parts <= shape[sbp.axis] < (r.value[sbp.axis] + 1) * parts
  {
    if sbp.Split? then
      if 0 <= sbp.axis < |shape| then
        var d := shape[sbp.axis];
        DivBounds(d, parts);
        Ok(shape[sbp.axis := DivTrunc(d, parts)])
      else
        Err(OutOfRange)
    else
      Ok(shape)
  }

  lemma DivBounds(d: int, parts: int)
    requires parts >= 1
    ensures d >= 0 ==> DivTrunc(d, parts) * parts <= d < (DivTrunc(d, parts) + 1) * parts
  {
  }

  /** std::vector::resize: truncate, or pad with the value-initialised element. */
  function Resize<T>(s: seq<T>, n: nat, fill: T): (r: seq<T>)
    ensures |r| == n
    ensures forall k :: 0 <= k < n ==> r[k] == if k < |s| then s[k] else fill
  {
    if n <= |s| then s[..n] else s + seq(n - |s|, _ => fill)
  }

  // ---------------------------------------------------------------------
  // The 1-D sub-builder, as seen by the regrouping loop
  // ---------------------------------------------------------------------

  datatype SubBuildRequest = SubBuildRequest(
    inTasks: seq<TaskRef>,
    inDesc: ParallelDesc,
    outDesc: ParallelDesc,
    blobShape: Shape,
    inSbp: Sbp,
    outSbp: Sbp)

  datatype BuilderStatus = BuilderStatus(builderName: string, comment: string)

  /** What the sub-builder left in its out_tasks and ctrl_tasks vectors, and its status. */
  datatype SubBuildResult = SubBuildResult(
    outTasks: seq<TaskRef>,
    ctrlTasks: seq<seq<TaskRef>>,
    status: BuilderStatus)

  type SubBuilder = SubBuildRequest -> Result<SubBuildResult>

  /** The output vectors a Build call fills, in parallel-id order. */
  class BoxingOutput {
    var sortedOutTasks: seq<TaskRef>
    var sortedCtrlTasks: seq<seq<TaskRef>>

    constructor (outTasks: seq<TaskRef>, ctrlTasks: seq<seq<TaskRef>>)
      ensures sortedOutTasks == outTasks && sortedCtrlTasks == ctrlTasks
    {
      sortedOutTasks := outTasks;
      sortedCtrlTasks := ctrlTasks;
    }
  }

  /** Control tasks are either absent, or present for every member (else ctrl_tasks.at throws). */
  predicate CtrlCovers(res: SubBuildResult, n: int)
  {
    |res.ctrlTasks| == 0 || |res.ctrlTasks| >= n
  }

  /** The control tasks the sub-builder produced for member k. */
  function CtrlOf(res: SubBuildResult, k: int): seq<TaskRef>
    requires |res.ctrlTasks| == 0 || 0 <= k < |res.ctrlTasks|
  {
    if |res.ctrlTasks| == 0 then [] else res.ctrlTasks[k]
  }

  // ---------------------------------------------------------------------
  // One group, specified
  // ---------------------------------------------------------------------

  /** The arguments of the regrouping loop: valid, one 2-D hierarchy on both sides. */
  predicate RegroupArgs(args: BuildArgs)
  {
    && BuildArgsValid(args)
    && args.inDesc.hierarchy == args.outDesc.hierarchy
    && |args.inDesc.hierarchy| == 2
  }

  /** The blob shape handed to every group's sub-build. */
  function GroupShape(layout: Layout, args: BuildArgs): Result<Shape>
    requires RegroupArgs(args)
  {
    SplitAxisShape(args.blobShape, args.inNdSbp[FixedAxis(layout)], args.inDesc.hierarchy[FixedAxis(layout)])
  }

  /** Every input task of group i exists (else sorted_in_tasks.at throws during the gather). */
  predicate GroupTasksPresent(layout: Layout, args: BuildArgs, i: int)
    requires RegroupArgs(args)
  {
    forall j :: 0 <= j < GroupSize(layout, args.inDesc.hierarchy) ==>
      MemberId(layout, args.inDesc.hierarchy, i, j) < |args.sortedInTasks|
  }

  /** The sub-build call of group i: its tasks, its 1-D placements, the varying axis' sbps. */
  function GroupRequest(layout: Layout, args: BuildArgs, i: int, shape: Shape): (q: SubBuildRequest)
    requires RegroupArgs(args) && 0 <= i < NumGroups(layout, args.inDesc.hierarchy)
    requires GroupTasksPresent(layout, args, i)
    ensures |q.inTasks| == |q.inDesc.devices| == |q.outDesc.devices| == GroupSize(layout, args.inDesc.hierarchy)
    ensures WellFormedDesc(q.inDesc) && WellFormedDesc(q.outDesc)
    ensures q.inDesc.hierarchy == q.outDesc.hierarchy == [GroupSize(layout, args.inDesc.hierarchy)]
    ensures forall j :: 0 <= j < |q.inTasks| ==>
              var p := MemberId(layout, args.inDesc.hierarchy, i, j);
              && 0 <= p < |args.sortedInTasks|
              && p < |args.inDesc.devices| && p < |args.outDesc.devices|
              && q.inTasks[j] == args.sortedInTasks[p]
              && q.inDesc.devices[j] == args.inDesc.devices[p]
              && q.outDesc.devices[j] == args.outDesc.devices[p]
  {
    var h := args.inDesc.hierarchy;
    ProductTwo(h);
    var ids := GroupIds(layout, h, i);
    var inDesc, outDesc := GroupDesc(args.inDesc, ids), GroupDesc(args.outDesc, ids);
    SubBuildRequest(
      Gather(args.sortedInTasks, ids),
      inDesc,
      outDesc,
      shape,
      args.inNdSbp[VaryingAxis(layout)],
      args.outNdSbp[VaryingAxis(layout)])
  }

  /**
   * Group i, with the errors in source order: a missing input task
   * (sorted_in_tasks.at), the shape's split axis, the sub-builder's own
   * error, the output count (CHECK_EQ_OR_RETURN), then the control-task
   * vector (ctrl_tasks.at).
   */
  function GroupStep(layout: Layout, args: BuildArgs, sub: SubBuilder, i: int): (r: Result<SubBuildResult>)
    requires RegroupArgs(args) && 0 <= i < NumGroups(layout, args.inDesc.hierarchy)
    ensures r.Ok? ==> && GroupTasksPresent(layout, args, i)
                      && GroupShape(layout, args).Ok?
                      && sub(GroupRequest(layout, args, i, GroupShape(layout, args).value)) == r
                      && |r.value.outTasks| == GroupSize(layout, args.inDesc.hierarchy)
                      && CtrlCovers(r.value, GroupSize(layout, args.inDesc.hierarchy))
    ensures !GroupTasksPresent(layout, args, i) || GroupShape(layout, args).Err? ==> r == Err(OutOfRange)
  {
    var n := GroupSize(layout, args.inDesc.hierarchy);
    if !GroupTasksPresent(layout, args, i) then Err(OutOfRange) else
    match GroupShape(layout, args)
    case Err(e) => Err(e)
    case Ok(shape) =>
      match sub(GroupRequest(layout, args, i, shape))
      case Err(e) => Err(e)
      case Ok(res) =>
        if |res.outTasks| != n then Err(CheckFailed)
        else if !CtrlCovers(res, n) then Err(OutOfRange)
        else Ok(res)
  }

  /** Slot p holds what its group's sub-build produced for p's position. */
  predicate Scattered(layout: Layout, args: BuildArgs, sub: SubBuilder, baseCtrl: seq<seq<TaskRef>>,
                      out: seq<TaskRef>, ctrl: seq<seq<TaskRef>>, p: int)
    requires RegroupArgs(args)
    requires 0 <= p < ParallelNum(args.outDesc) && |baseCtrl| == |out| == |ctrl| == ParallelNum(args.outDesc)
  {
    var h := args.inDesc.hierarchy;
    ProductTwo(h);
    LayoutInverse(Consecutive, h, p);
    LayoutInverse(Strided, h, p);
    var g, k := GroupOf(layout, h, p), MemberOf(layout, h, p);
    var step := GroupStep(layout, args, sub, g);
    && step.Ok?
    && out[p] == step.value.outTasks[k]
    && ctrl[p] == baseCtrl[p] + CtrlOf(step.value, k)
  }

  /**
   * The whole outcome of the regrouping loop, from the vectors it started with:
   * both vectors are resized to the output parallel num; the call succeeds
   * exactly when every group does, with one status per group in order; else
   * it fails with the first failing group's error. Every slot of a group that
   * finished holds that group's result, slots of later groups keep their
   * resized value, and the failing group's own slots are left unspecified.
   */
  predicate RegroupOutcome(layout: Layout, args: BuildArgs, sub: SubBuilder,
                           oldOut: seq<TaskRef>, oldCtrl: seq<seq<TaskRef>>,
                           out: seq<TaskRef>, ctrl: seq<seq<TaskRef>>,
                           r: Result<seq<BuilderStatus>>, failed: int)
    requires RegroupArgs(args)
  {
    var h := args.inDesc.hierarchy;
    var n := ParallelNum(args.outDesc);
    var baseOut, baseCtrl := Resize(oldOut, n, NullTask), Resize(oldCtrl, n, []);
    && |out| == n && |ctrl| == n
    && (r.Ok? <==> forall g :: 0 <= g < NumGroups(layout, h) ==> GroupStep(layout, args, sub, g).Ok?)
    && (r.Ok? ==> && |r.value| == NumGroups(layout, h)
                  && forall g :: 0 <= g < NumGroups(layout, h) ==>
                       GroupStep(layout, args, sub, g).Ok? && r.value[g] == GroupStep(layout, args, sub, g).value.status)
    && (r.Err? ==> && 0 <= failed < NumGroups(layout, h)
                   && (forall g :: 0 <= g < failed ==> GroupStep(layout, args, sub, g).Ok?)
                   && GroupStep(layout, args, sub, failed) == Err(r.error))
    && (forall p :: 0 <= p < n && (r.Ok? || GroupOf(layout, h, p) < failed) ==>
          Scattered(layout, args, sub, baseCtrl, out, ctrl, p))
    && (r.Err? ==> forall p :: 0 <= p < n && GroupOf(layout, h, p) > failed ==>
          out[p] == baseOut[p] && ctrl[p] == baseCtrl[p])
  }

  // ---------------------------------------------------------------------
  // The loops
  // ---------------------------------------------------------------------

  /**
   * The scatter loop of one group: out task j goes to slot ids[j], and
   * control tasks j, when the sub-builder produced any, are appended to it.
   * Fails (ctrl_tasks.at) when control tasks are present but too few.
   */
  method ScatterGroup(dst: BoxingOutput, ids: seq<int>, res: SubBuildResult) returns (ok: bool)
    requires |res.outTasks| == |ids|
    requires forall k :: 0 <= k < |ids| ==> 0 <= ids[k] < |dst.sortedOutTasks| && ids[k] < |dst.sortedCtrlTasks|
    requires forall k, l :: 0 <= k < l < |ids| ==> ids[k] != ids[l]
    modifies dst
    ensures |dst.sortedOutTasks| == |old(dst.sortedOutTasks)| && |dst.sortedCtrlTasks| == |old(dst.sortedCtrlTasks)|
    ensures ok <==> CtrlCovers(res, |ids|)
    ensures ok ==> forall k :: 0 <= k < |ids| ==>
              && dst.sortedOutTasks[ids[k]] == res.outTasks[k]
              && dst.sortedCtrlTasks[ids[k]] == old(dst.sortedCtrlTasks[ids[k]]) + CtrlOf(res, k)
    ensures forall p :: 0 <= p < |dst.sortedOutTasks| && p !in ids ==> dst.sortedOutTasks[p] == old(dst.sortedOutTasks[p])
    ensures forall p :: 0 <= p < |dst.sortedCtrlTasks| && p !in ids ==> dst.sortedCtrlTasks[p] == old(dst.sortedCtrlTasks[p])
  {
    var j := 0;
    while j < |ids|
      invariant 0 <= j <= |ids|
      invariant |res.ctrlTasks| == 0 || j <= |res.ctrlTasks|
      invariant |dst.sortedOutTasks| == |old(dst.sortedOutTasks)| && |dst.sortedCtrlTasks| == |old(dst.sortedCtrlTasks)|
      invariant forall k :: 0 <= k < j ==>
                  && dst.sortedOutTasks[ids[k]] == res.outTasks[k]
                  && dst.sortedCtrlTasks[ids[k]] == old(dst.sortedCtrlTasks[ids[k]]) + CtrlOf(res, k)
      invariant forall p :: 0 <= p < |dst.sortedOutTasks| && p !in ids[..j] ==> dst.sortedOutTasks[p] == old(dst.sortedOutTasks[p])
      invariant forall p :: 0 <= p < |dst.sortedCtrlTasks| && p !in ids[..j] ==> dst.sortedCtrlTasks[p] == old(dst.sortedCtrlTasks[p])
    {
      var p := ids[j];
      assert p !in ids[..j];
      dst.sortedOutTasks := dst.sortedOutTasks[p := res.outTasks[j]];
      if |res.ctrlTasks| != 0 {
        if j >= |res.ctrlTasks| {
          return false;
        }
        var nodes := res.ctrlTasks[j];
        var slot := dst.sortedCtrlTasks[p];
        var c := 0;
        while c < |nodes|
          invariant 0 <= c <= |nodes|
          invariant slot == dst.sortedCtrlTasks[p] + nodes[..c]
        {
          assert nodes[..c + 1] == nodes[..c] + [nodes[c]];
          slot := slot + [nodes[c]];
          c := c + 1;
        }
        assert nodes[..c] == nodes;
        dst.sortedCtrlTasks := dst.sortedCtrlTasks[p := slot];
      }
      assert ids[..j + 1] == ids[..j] + [p];
      j := j + 1;
    }
    assert ids[..j] == ids;
    return true;
  }

  /**
   * The gather loop of one group: its input tasks, and its 1-D input and
   * output placements with the devices of its parallel ids.
   */
  method GatherGroup(args: BuildArgs, ids: seq<int>)
    returns (ok: bool, inTasks: seq<TaskRef>, inDesc: ParallelDesc, outDesc: ParallelDesc)
    requires forall k :: 0 <= k < |ids| ==>
               && 0 <= ids[k] < |args.inDesc.devices| && ids[k] < |args.outDesc.devices|
    ensures ok <==> forall k :: 0 <= k < |ids| ==> ids[k] < |args.sortedInTasks|
    ensures ok ==> inTasks == Gather(args.sortedInTasks, ids)
    ensures ok ==> inDesc == GroupDesc(args.inDesc, ids) && outDesc == GroupDesc(args.outDesc, ids)
  {
    inTasks := [];
    var inDevices: seq<DeviceName> := [];
    var outDevices: seq<DeviceName> := [];
    var j := 0;
    while j < |ids|
      invariant 0 <= j <= |ids|
      invariant |inTasks| == j && |inDevices| == j && |outDevices| == j
      invariant forall k :: 0 <= k < j ==>
                  && ids[k] < |args.sortedInTasks|
                  && inTasks[k] == args.sortedInTasks[ids[k]]
                  && inDevices[k] == args.inDesc.devices[ids[k]]
                  && outDevices[k] == args.outDesc.devices[ids[k]]
    {
      var parallelId := ids[j];
      if parallelId >= |args.sortedInTasks| {
        return false, inTasks, args.inDesc, args.outDesc;
      }
      inTasks := inTasks + [args.sortedInTasks[parallelId]];
      inDevices := inDevices + [args.inDesc.devices[parallelId]];
      outDevices := outDevices + [args.outDesc.devices[parallelId]];
      j := j + 1;
    }
    inDesc := ParallelDesc(args.inDesc.deviceTag, [|ids|], inDevices);
    outDesc := ParallelDesc(args.outDesc.deviceTag, [|ids|], outDevices);
    ok := true;
  }

  /** After a successful scatter of group i, every slot of group i holds its result. */
  lemma GroupDone(layout: Layout, args: BuildArgs, sub: SubBuilder, baseCtrl: seq<seq<TaskRef>>,
                  out: seq<TaskRef>, ctrl: seq<seq<TaskRef>>, i: int, ids: seq<int>, res: SubBuildResult)
    requires RegroupArgs(args) && 0 <= i < NumGroups(layout, args.inDesc.hierarchy)
    requires ids == GroupIds(layout, args.inDesc.hierarchy, i)
    requires GroupStep(layout, args, sub, i) == Ok(res)
    requires |baseCtrl| == |out| == |ctrl| == ParallelNum(args.outDesc)
    requires forall k :: 0 <= k < |ids| ==>
               && 0 <= ids[k] < |out|
               && out[ids[k]] == res.outTasks[k]
               && ctrl[ids[k]] == baseCtrl[ids[k]] + CtrlOf(res, k)
    ensures forall p :: 0 <= p < ParallelNum(args.outDesc) && GroupOf(layout, args.inDesc.hierarchy, p) == i ==>
              Scattered(layout, args, sub, baseCtrl, out, ctrl, p)
  {
    var h := args.inDesc.hierarchy;
    ProductTwo(h);
    forall p | 0 <= p < ParallelNum(args.outDesc) && GroupOf(layout, h, p) == i
      ensures Scattered(layout, args, sub, baseCtrl, out, ctrl, p)
    {
      LayoutInverse(layout, h, p);
      var k := MemberOf(layout, h, p);
      assert ids[k] == p;
    }
  }

  /** Leaving the loop at group i, whose step failed, meets the outcome with failed == i. */
  lemma EarlyExit(layout: Layout, args: BuildArgs, sub: SubBuilder,
                  oldOut: seq<TaskRef>, oldCtrl: seq<seq<TaskRef>>,
                  out: seq<TaskRef>, ctrl: seq<seq<TaskRef>>, i: int)
    requires RegroupArgs(args) && 0 <= i < NumGroups(layout, args.inDesc.hierarchy)
    requires GroupStep(layout, args, sub, i).Err?
    requires |out| == ParallelNum(args.outDesc) && |ctrl| == ParallelNum(args.outDesc)
    requires forall g :: 0 <= g < i ==> GroupStep(layout, args, sub, g).Ok?
    requires forall p :: 0 <= p < ParallelNum(args.outDesc) && GroupOf(layout, args.inDesc.hierarchy, p) < i ==>
               Scattered(layout, args, sub, Resize(oldCtrl, ParallelNum(args.outDesc), []), out, ctrl, p)
    requires forall p :: 0 <= p < ParallelNum(args.outDesc) && GroupOf(layout, args.inDesc.hierarchy, p) > i ==>
               && out[p] == Resize(oldOut, ParallelNum(args.outDesc), NullTask)[p]
               && ctrl[p] == Resize(oldCtrl, ParallelNum(args.outDesc), [])[p]
    ensures RegroupOutcome(layout, args, sub, oldOut, oldCtrl, out, ctrl, Err(GroupStep(layout, args, sub, i).error), i)
  {
  }

  /** Leaving the loop after every group succeeded meets the outcome with status r. */
  lemma AllDone(layout: Layout, args: BuildArgs, sub: SubBuilder,
                oldOut: seq<TaskRef>, oldCtrl: seq<seq<TaskRef>>,
                out: seq<TaskRef>, ctrl: seq<seq<TaskRef>>, status: seq<BuilderStatus>, failed: int)
    requires RegroupArgs(args)
    requires |out| == ParallelNum(args.outDesc) && |ctrl| == ParallelNum(args.outDesc)
    requires |status| == NumGroups(layout, args.inDesc.hierarchy)
    requires forall g :: 0 <= g < |status| ==>
               GroupStep(layout, args, sub, g).Ok? && status[g] == GroupStep(layout, args, sub, g).value.status
    requires forall p :: 0 <= p < ParallelNum(args.outDesc) && GroupOf(layout, args.inDesc.hierarchy, p) < |status| ==>
               Scattered(layout, args, sub, Resize(oldCtrl, ParallelNum(args.outDesc), []), out, ctrl, p)
    ensures RegroupOutcome(layout, args, sub, oldOut, oldCtrl, out, ctrl, Ok(status), failed)
  {
    var h := args.inDesc.hierarchy;
    ProductTwo(h);
    GroupsPartition(layout, h);
  }

  /**
   * One iteration of the regrouping loop: gather group i, split the blob
   * shape, run the sub-builder and scatter its result. The outcome is the
   * group's GroupStep; slots of other groups are untouched, and after a
   * success every slot of group i holds the group's result.
   */
  method BuildGroup(layout: Layout, args: BuildArgs, sub: SubBuilder, dst: BoxingOutput, i: int,
                    ghost baseCtrl: seq<seq<TaskRef>>)
    returns (step: Result<SubBuildResult>)
    requires RegroupArgs(args) && 0 <= i < NumGroups(layout, args.inDesc.hierarchy)
    requires |dst.sortedOutTasks| == ParallelNum(args.outDesc) && |dst.sortedCtrlTasks| == ParallelNum(args.outDesc)
    requires |baseCtrl| == ParallelNum(args.outDesc)
    requires forall p :: 0 <= p < ParallelNum(args.outDesc) && GroupOf(layout, args.inDesc.hierarchy, p) == i ==>
               dst.sortedCtrlTasks[p] == baseCtrl[p]
    modifies dst
    ensures step == GroupStep(layout, args, sub, i)
    ensures |dst.sortedOutTasks| == ParallelNum(args.outDesc) && |dst.sortedCtrlTasks| == ParallelNum(args.outDesc)
    ensures forall p :: 0 <= p < ParallelNum(args.outDesc) && GroupOf(layout, args.inDesc.hierarchy, p) != i ==>
              dst.sortedOutTasks[p] == old(dst.sortedOutTasks[p]) && dst.sortedCtrlTasks[p] == old(dst.sortedCtrlTasks[p])
    ensures step.Ok? ==> forall p :: 0 <= p < ParallelNum(args.outDesc) && GroupOf(layout, args.inDesc.hierarchy, p) == i ==>
              Scattered(layout, args, sub, baseCtrl, dst.sortedOutTasks, dst.sortedCtrlTasks, p)
  {
    var h := args.inDesc.hierarchy;
    ProductTwo(h);
    GroupsPartition(layout, h);
    var n := ParallelNum(args.outDesc);
    var ids := GroupIds(layout, h, i);
    var gathered, inTasks, inDesc, outDesc := GatherGroup(args, ids);
    if !gathered {
      return Err(OutOfRange);
    }
    var shape := SplitAxisShape(args.blobShape, args.inNdSbp[FixedAxis(layout)], h[FixedAxis(layout)]);
    if shape.Err? {
      return Err(shape.error);
    }
    var request := SubBuildRequest(inTasks, inDesc, outDesc, shape.value,
                                   args.inNdSbp[VaryingAxis(layout)], args.outNdSbp[VaryingAxis(layout)]);
    assert request == GroupRequest(layout, args, i, shape.value);
    var built := sub(request);
    if built.Err? {
      return Err(built.error);
    }
    var res := built.value;
    if |res.outTasks| != GroupSize(layout, h) {
      return Err(CheckFailed);
    }
    ghost var beforeOut, beforeCtrl := dst.sortedOutTasks, dst.sortedCtrlTasks;
    var ok := ScatterGroup(dst, ids, res);
    forall p | 0 <= p < n && GroupOf(layout, h, p) != i
      ensures dst.sortedOutTasks[p] == beforeOut[p] && dst.sortedCtrlTasks[p] == beforeCtrl[p]
    {
      assert p !in ids;
    }
    if !ok {
      return Err(OutOfRange);
    }
    GroupDone(layout, args, sub, baseCtrl, dst.sortedOutTasks, dst.sortedCtrlTasks, i, ids, res);
    return Ok(res);
  }

  /** The loop both regrouping builders share, once their guard holds. */
  method RegroupBuild(layout: Layout, args: BuildArgs, sub: SubBuilder, dst: BoxingOutput)
    returns (r: Result<seq<BuilderStatus>>, ghost failed: int)
    requires RegroupArgs(args)
    modifies dst
    ensures RegroupOutcome(layout, args, sub, old(dst.sortedOutTasks), old(dst.sortedCtrlTasks),
                           dst.sortedOutTasks, dst.sortedCtrlTasks, r, failed)
  {
    var h := args.inDesc.hierarchy;
    ProductTwo(h);
    GroupsPartition(layout, h);
    var numGroups := NumGroups(layout, h);
    var n := ParallelNum(args.outDesc);
    ghost var baseOut := Resize(dst.sortedOutTasks, n, NullTask);
    ghost var baseCtrl := Resize(dst.sortedCtrlTasks, n, []);
    dst.sortedCtrlTasks := Resize(dst.sortedCtrlTasks, n, []);
    dst.sortedOutTasks := Resize(dst.sortedOutTasks, n, NullTask);
    var status: seq<BuilderStatus> := [];
    failed := numGroups;
    var i := 0;
    while i < numGroups
      invariant 0 <= i <= numGroups
      invariant |dst.sortedOutTasks| == n && |dst.sortedCtrlTasks| == n
      invariant |status| == i
      invariant forall g :: 0 <= g < i ==>
                  GroupStep(layout, args, sub, g).Ok? && status[g] == GroupStep(layout, args, sub, g).value.status
      invariant forall p :: 0 <= p < n && GroupOf(layout, h, p) < i ==>
                  Scattered(layout, args, sub, baseCtrl, dst.sortedOutTasks, dst.sortedCtrlTasks, p)
      invariant forall p :: 0 <= p < n && GroupOf(layout, h, p) >= i ==>
                  dst.sortedOutTasks[p] == baseOut[p] && dst.sortedCtrlTasks[p] == baseCtrl[p]
    {
      var step := BuildGroup(layout, args, sub, dst, i, baseCtrl);
      if step.Err? {
        EarlyExit(layout, args, sub, old(dst.sortedOutTasks), old(dst.sortedCtrlTasks),
                  dst.sortedOutTasks, dst.sortedCtrlTasks, i);
        failed := i;
        return Err(step.error), failed;
      }
      status := status + [step.value.status];
      i := i + 1;
    }
    AllDone(layout, args, sub, old(dst.sortedOutTasks), old(dst.sortedCtrlTasks),
            dst.sortedOutTasks, dst.sortedCtrlTasks, status, failed);
    r := Ok(status);
  }

  /**
   * IntraGroupSubTskGphBuilder::Build: BoxingNotSupported, touching nothing,
   * unless its guard holds; then the regrouping loop over consecutive groups.
   */
  method IntraGroupBuild(args: BuildArgs, sub: SubBuilder, dst: BoxingOutput)
    returns (r: Result<seq<BuilderStatus>>, ghost failed: int)
    requires BuildArgsValid(args)
    modifies dst
    ensures !IntraGroupApplicable(args) ==>
              && r == Err(BoxingNotSupported)
              && dst.sortedOutTasks == old(dst.sortedOutTasks) && dst.sortedCtrlTasks == old(dst.sortedCtrlTasks)
    ensures IntraGroupApplicable(args) ==>
              RegroupOutcome(Consecutive, args, sub, old(dst.sortedOutTasks), old(dst.sortedCtrlTasks),
                             dst.sortedOutTasks, dst.sortedCtrlTasks, r, failed)
  {
    if IntraGroupApplicable(args) {
      r, failed := RegroupBuild(Consecutive, args, sub, dst);
    } else {
      r, failed := Err(BoxingNotSupported), 0;
    }
  }

  /**
   * InterGroupSubTskGphBuilder::Build: BoxingNotSupported, touching nothing,
   * unless its guard holds; then the regrouping loop over strided groups.
   */
  method InterGroupBuild(args: BuildArgs, allSameSplit: AllSameSplit, sub: SubBuilder, dst: BoxingOutput)
    returns (r: Result<seq<BuilderStatus>>, ghost failed: int)
    requires BuildArgsValid(args)
    modifies dst
    ensures !InterGroupApplicable(args, allSameSplit) ==>
              && r == Err(BoxingNotSupported)
              && dst.sortedOutTasks == old(dst.sortedOutTasks) && dst.sortedCtrlTasks == old(dst.sortedCtrlTasks)
    ensures InterGroupApplicable(args, allSameSplit) ==>
              RegroupOutcome(Strided, args, sub, old(dst.sortedOutTasks), old(dst.sortedCtrlTasks),
                             dst.sortedOutTasks, dst.sortedCtrlTasks, r, failed)
  {
    if InterGroupApplicable(args, allSameSplit) {
      r, failed := RegroupBuild(Strided, args, sub, dst);
    } else {
      r, failed := Err(BoxingNotSupported), 0;
    }
  }
}

/**
 * The hierarchical boxing builders' decision cascade: for a pair of
 * placements (hierarchy + nd_sbp on each side), which builder finally does
 * the work, with which arguments, or BoxingNotSupported.
 *
 * Each builder's Build is a function returning a Route: the leaf builder
 * the call is delegated to and the arguments it receives. The 1-D chain of
 * sub-builders is the leaf OneD. InOutParallelDimReduce is not part of this
 * model: DispatchRoute starts from the placements it produced.
 * NdSbpAllSameSplitParallel is the parameter allSameSplit.
 */
module BoxingDispatch {
  import opened IntArith

  /** One axis of an nd_sbp: split along a blob axis, broadcast, or partial sum. */
  datatype Sbp = Split(axis: int) | Broadcast | PartialSum

  type NdSbp = seq<Sbp>

  type Shape = seq<int>

  /** The machine and device of one parallel id ("@machine:device"). */
  datatype DeviceName = DeviceName(machineId: int, deviceId: int)

  /** A placement: device tag, hierarchy, and the device of each parallel id. */
  datatype ParallelDesc = ParallelDesc(deviceTag: string, hierarchy: Shape, devices: seq<DeviceName>)

  /** A placement as ParallelDesc guarantees it: positive hierarchy dims, one device per id. */
  predicate WellFormedDesc(d: ParallelDesc)
  {
    && |d.hierarchy| >= 1
    && (forall k :: 0 <= k < |d.hierarchy| ==> d.hierarchy[k] >= 1)
    && |d.devices| == Product(d.hierarchy)
  }

  function ParallelNum(d: ParallelDesc): nat
  {
    |d.devices|
  }

  /** A task node, or the null pointer a resized vector is filled with. */
  datatype TaskRef = NullTask | TaskNode(id: nat)

  datatype BoxingError =
    | BoxingNotSupported
    | CheckFailed          // CHECK_EQ_OR_RETURN
    | OutOfRange           // std::vector::at out of range
    | SubBuilderFailed(code: nat)

  datatype Result<T> = Ok(value: T) | Err(error: BoxingError)

  type AllSameSplit = NdSbp -> bool

  /** The arguments of a Build call that the model follows. */
  datatype BuildArgs = BuildArgs(
    sortedInTasks: seq<TaskRef>,
    inDesc: ParallelDesc,
    outDesc: ParallelDesc,
    blobShape: Shape,
    inNdSbp: NdSbp,
    outNdSbp: NdSbp)

  /** Each nd_sbp has one entry per hierarchy axis of its placement. */
  predicate SbpMatches(args: BuildArgs)
  {
    && |args.inNdSbp| == |args.inDesc.hierarchy|
    && |args.outNdSbp| == |args.outDesc.hierarchy|
  }

  /**
   * What a builder may assume of its arguments: each nd_sbp matches its
   * hierarchy and both placements are well formed. The number of input
   * tasks is not assumed; a regrouping builder reads them with a checked
   * `at`.
   */
  predicate BuildArgsValid(args: BuildArgs)
  {
    && SbpMatches(args)
    && WellFormedDesc(args.inDesc)
    && WellFormedDesc(args.outDesc)
  }

  /** Where a Build call ends up. */
  datatype Route =
    | NotSupported
    | OneD(args: BuildArgs, inSbp: Sbp, outSbp: Sbp)
    | IntraGroup(args: BuildArgs)
    | InterGroup(args: BuildArgs)

  // ---------------------------------------------------------------------
  // The guards of the two regrouping builders
  // ---------------------------------------------------------------------

  /** IntraGroupSubTskGphBuilder's guard: same 2-D hierarchy, axis-0 sbp agrees, axis-1 differs. */
  predicate IntraGroupApplicable(args: BuildArgs)
    requires SbpMatches(args)
  {
    && args.inDesc.hierarchy == args.outDesc.hierarchy
    && |args.inDesc.hierarchy| == 2
    && args.inNdSbp[0] == args.outNdSbp[0]
    && args.inNdSbp[1] != args.outNdSbp[1]
  }

  /** InterGroupSubTskGphBuilder's guard: axis-1 sbp agrees, axis-0 differs, neither side all-same-split. */
  predicate InterGroupApplicable(args: BuildArgs, allSameSplit: AllSameSplit)
    requires SbpMatches(args)
  {
    && args.inDesc.hierarchy == args.outDesc.hierarchy
    && |args.inDesc.hierarchy| == 2
    && args.inNdSbp[1] == args.outNdSbp[1]
    && args.inNdSbp[0] != args.outNdSbp[0]
    && !allSameSplit(args.inNdSbp)
    && !allSameSplit(args.outNdSbp)
  }

  // ---------------------------------------------------------------------
  // The cascade
  // ---------------------------------------------------------------------

  /** FlatSubTskGphBuilder::Build: 1-D on both sides goes to the 1-D chain with sbp(0). */
  function FlatRoute(args: BuildArgs): (r: Route)
    requires SbpMatches(args)
    ensures r.OneD? || r.NotSupported?
    ensures r.OneD? <==> |args.inDesc.hierarchy| == 1 && |args.outDesc.hierarchy| == 1
    ensures r.OneD? ==> r.args == args && r.inSbp == args.inNdSbp[0] && r.outSbp == args.outNdSbp[0]
  {
    if |args.inDesc.hierarchy| == 1 && |args.outDesc.hierarchy| == 1 then
      OneD(args, args.inNdSbp[0], args.outNdSbp[0])
    else
      NotSupported
  }

  /** IntraGroupSubTskGphBuilder::Build, as far as routing goes. */
  function IntraGroupRoute(args: BuildArgs): (r: Route)
    requires SbpMatches(args)
    ensures r.IntraGroup? || r.NotSupported?
    ensures r.IntraGroup? <==>
              && |args.inDesc.hierarchy| == 2 && args.inDesc.hierarchy == args.outDesc.hierarchy
              && args.inNdSbp[0] == args.outNdSbp[0] && args.inNdSbp[1] != args.outNdSbp[1]
    ensures r.IntraGroup? ==> r.args == args
  {
    if IntraGroupApplicable(args) then IntraGroup(args) else NotSupported
  }

  /** InterGroupSubTskGphBuilder::Build, as far as routing goes. */
  function InterGroupRoute(args: BuildArgs, allSameSplit: AllSameSplit): (r: Route)
    requires SbpMatches(args)
    ensures r.InterGroup? || r.NotSupported?
    ensures r.InterGroup? <==>
              && |args.inDesc.hierarchy| == 2 && args.inDesc.hierarchy == args.outDesc.hierarchy
              && args.inNdSbp[1] == args.outNdSbp[1] && args.inNdSbp[0] != args.outNdSbp[0]
              && !allSameSplit(args.inNdSbp) && !allSameSplit(args.outNdSbp)
    ensures r.InterGroup? ==> r.args == args
  {
    if InterGroupApplicable(args, allSameSplit) then InterGroup(args) else NotSupported
  }

  /** Dim0NdSbpMismatchedSubTskGphBuilder::Build. */
  function Dim0MismatchedRoute(args: BuildArgs, allSameSplit: AllSameSplit): (r: Route)
    requires SbpMatches(args)
    ensures r.InterGroup? || r.NotSupported?
    ensures r.InterGroup? <==>
              && |args.inDesc.hierarchy| == 2 && args.inDesc.hierarchy == args.outDesc.hierarchy
              && args.inNdSbp[0] != args.outNdSbp[0] && args.inNdSbp[1] == args.outNdSbp[1]
              && !allSameSplit(args.inNdSbp) && !allSameSplit(args.outNdSbp)
    ensures r.InterGroup? ==> r.args == args
  {
    if && |args.inDesc.hierarchy| == 2
       && args.inDesc.hierarchy == args.outDesc.hierarchy
       && args.inNdSbp[0] != args.outNdSbp[0]
       && args.inNdSbp[1] == args.outNdSbp[1]
    then
      if !(allSameSplit(args.inNdSbp) || allSameSplit(args.outNdSbp)) then
        InterGroupRoute(args, allSameSplit)
      else
        NotSupported
    else
      NotSupported
  }

  /** Same2DHierarchySubTskGphBuilder::Build. */
  function Same2DRoute(args: BuildArgs, allSameSplit: AllSameSplit): (r: Route)
    requires SbpMatches(args)
    ensures !r.OneD?
    ensures r.IntraGroup? <==>
              && |args.inDesc.hierarchy| == 2 && args.inDesc.hierarchy == args.outDesc.hierarchy
              && args.inNdSbp[0] == args.outNdSbp[0] && args.inNdSbp[1] != args.outNdSbp[1]
    ensures r.InterGroup? <==>
              && |args.inDesc.hierarchy| == 2 && args.inDesc.hierarchy == args.outDesc.hierarchy
              && args.inNdSbp[0] != args.outNdSbp[0] && args.inNdSbp[1] == args.outNdSbp[1]
              && !allSameSplit(args.inNdSbp) && !allSameSplit(args.outNdSbp)
    ensures !r.NotSupported? ==> r.args == args
  {
    if |args.inDesc.hierarchy| == 2 && args.inDesc.hierarchy == args.outDesc.hierarchy then
      if args.inNdSbp[0] == args.outNdSbp[0] then
        IntraGroupRoute(args)
      else if args.inNdSbp[1] == args.outNdSbp[1] then
        Dim0MismatchedRoute(args, allSameSplit)
      else
        NotSupported
    else
      NotSupported
  }

  /** The 1-D input side lifted to the output's 2-D hierarchy, with its sbp(0) on both axes. */
  function ExpandIn(args: BuildArgs): BuildArgs
    requires |args.inNdSbp| >= 1
  {
    args.(inDesc := args.inDesc.(hierarchy := args.outDesc.hierarchy),
          inNdSbp := [args.inNdSbp[0], args.inNdSbp[0]])
  }

  /** The 1-D output side lifted to the input's 2-D hierarchy, with its sbp(0) on both axes. */
  function ExpandOut(args: BuildArgs): BuildArgs
    requires |args.outNdSbp| >= 1
  {
    args.(outDesc := args.outDesc.(hierarchy := args.inDesc.hierarchy),
          outNdSbp := [args.outNdSbp[0], args.outNdSbp[0]])
  }

  /** ExpandToSame2DHierarchySubTskGphBuilder::Build. */
  function ExpandRoute(args: BuildArgs, allSameSplit: AllSameSplit): (r: Route)
    requires SbpMatches(args)
    ensures !r.OneD?
    ensures !r.NotSupported? ==> Product(args.inDesc.hierarchy) == Product(args.outDesc.hierarchy)
    ensures !r.NotSupported? && |args.inDesc.hierarchy| == 1 ==>
              && |args.outDesc.hierarchy| == 2
              && r.args == ExpandIn(args)
              && r.args.inDesc.hierarchy == args.outDesc.hierarchy
              && r.args.inDesc.devices == args.inDesc.devices
              && r.args.inNdSbp == [args.inNdSbp[0], args.inNdSbp[0]]
    ensures !r.NotSupported? && |args.inDesc.hierarchy| != 1 ==>
              && |args.inDesc.hierarchy| == 2 && |args.outDesc.hierarchy| == 1
              && r.args == ExpandOut(args)
              && r.args.outDesc.hierarchy == args.inDesc.hierarchy
              && r.args.outDesc.devices == args.outDesc.devices
              && r.args.outNdSbp == [args.outNdSbp[0], args.outNdSbp[0]]
  {
    var hin, hout := args.inDesc.hierarchy, args.outDesc.hierarchy;
    if Product(hin) == Product(hout) && |hin| == 1 && |hout| == 2 then
      Same2DRoute(ExpandIn(args), allSameSplit)
    else if Product(hin) == Product(hout) && |hin| == 2 && |hout| == 1 then
      Same2DRoute(ExpandOut(args), allSameSplit)
    else
      NotSupported
  }

  /**
   * DispatchHierarchicalSubTskGphBuilder::Build, from the reduced placements.
   * Whatever leaf it reaches, the leaf's own guard holds of the arguments it
   * gets, and the tasks and the blob shape are handed over unchanged.
   */
  function DispatchRoute(args: BuildArgs, allSameSplit: AllSameSplit): (r: Route)
    requires SbpMatches(args)
    ensures |args.inDesc.hierarchy| > 2 || |args.outDesc.hierarchy| > 2 ==> r == NotSupported
    ensures r.OneD? ==> && |args.inDesc.hierarchy| == 1 && |args.outDesc.hierarchy| == 1
                        && r.args == args && r.inSbp == args.inNdSbp[0] && r.outSbp == args.outNdSbp[0]
    ensures r.IntraGroup? ==> SbpMatches(r.args) && IntraGroupApplicable(r.args)
    ensures r.InterGroup? ==> SbpMatches(r.args) && InterGroupApplicable(r.args, allSameSplit)
    ensures !r.NotSupported? ==> && r.args.sortedInTasks == args.sortedInTasks
                                 && r.args.blobShape == args.blobShape
    ensures !r.NotSupported? && BuildArgsValid(args) ==> BuildArgsValid(r.args)
  {
    var hin, hout := args.inDesc.hierarchy, args.outDesc.hierarchy;
    if |hin| <= 2 && |hout| <= 2 then
      if |hin| == 1 && |hout| == 1 then
        FlatRoute(args)
      else if |hin| == 2 && hin == hout then
        Same2DRoute(args, allSameSplit)
      else if Product(hin) == Product(hout) && ((|hin| == 1 && |hout| == 2) || (|hin| == 2 && |hout| == 1)) then
        ExpandRoute(args, allSameSplit)
      else
        NotSupported
    else
      NotSupported
  }

  // ---------------------------------------------------------------------
  // The routing table, stated without the cascade
  // ---------------------------------------------------------------------

  /** The 1-D chain is reached exactly when both reduced hierarchies have one axis. */
  lemma DispatchOneDIff(args: BuildArgs, allSameSplit: AllSameSplit)
    requires SbpMatches(args)
    ensures DispatchRoute(args, allSameSplit).OneD? <==>
              |args.inDesc.hierarchy| == 1 && |args.outDesc.hierarchy| == 1
  {
  }

  /**
   * IntraGroup is reached exactly in three cases: the same 2-D hierarchy with
   * sbp(0) equal and sbp(1) different; or a 1-D side whose sbp(0), doubled,
   * meets the other side in the same way.
   */
  lemma DispatchIntraGroupIff(args: BuildArgs, allSameSplit: AllSameSplit)
    requires SbpMatches(args)
    ensures DispatchRoute(args, allSameSplit).IntraGroup? <==>
      var hin, hout, a, b := args.inDesc.hierarchy, args.outDesc.hierarchy, args.inNdSbp, args.outNdSbp;
      || (|hin| == 2 && hin == hout && a[0] == b[0] && a[1] != b[1])
      || (|hin| == 1 && |hout| == 2 && Product(hin) == Product(hout) && a[0] == b[0] && a[0] != b[1])
      || (|hin| == 2 && |hout| == 1 && Product(hin) == Product(hout) && a[0] == b[0] && a[1] != b[0])
  {
  }

  /** InterGroup is reached exactly in the mirror-image cases, when no side is all-same-split. */
  lemma DispatchInterGroupIff(args: BuildArgs, allSameSplit: AllSameSplit)
    requires SbpMatches(args)
    ensures DispatchRoute(args, allSameSplit).InterGroup? <==>
      var hin, hout, a, b := args.inDesc.hierarchy, args.outDesc.hierarchy, args.inNdSbp, args.outNdSbp;
      || (&& |hin| == 2 && hin == hout && a[0] != b[0] && a[1] == b[1]
          && !allSameSplit(a) && !allSameSplit(b))
      || (&& |hin| == 1 && |hout| == 2 && Product(hin) == Product(hout) && a[0] != b[0] && a[0] == b[1]
          && !allSameSplit([a[0], a[0]]) && !allSameSplit(b))
      || (&& |hin| == 2 && |hout| == 1 && Product(hin) == Product(hout) && a[0] != b[0] && a[1] == b[0]
          && !allSameSplit(a) && !allSameSplit([b[0], b[0]]))
  {
  }

  /**
   * Expanding a 1-D input: the regrouping builder receives the input placement
   * with the output's 2-D hierarchy and two copies of the input's sbp(0);
   * the output side is untouched. The 2-D-to-1-D case is the mirror image.
   */
  lemma ExpandIntermediate(args: BuildArgs, allSameSplit: AllSameSplit)
    requires SbpMatches(args)
    ensures var r := DispatchRoute(args, allSameSplit);
            |args.inDesc.hierarchy| == 1 && |args.outDesc.hierarchy| == 2 && (r.IntraGroup? || r.InterGroup?) ==>
              && r.args.inDesc == args.inDesc.(hierarchy := args.outDesc.hierarchy)
              && r.args.inNdSbp == [args.inNdSbp[0], args.inNdSbp[0]]
              && r.args.outDesc == args.outDesc && r.args.outNdSbp == args.outNdSbp
    ensures var r := DispatchRoute(args, allSameSplit);
            |args.inDesc.hierarchy| == 2 && |args.outDesc.hierarchy| == 1 && (r.IntraGroup? || r.InterGroup?) ==>
              && r.args.outDesc == args.outDesc.(hierarchy := args.inDesc.hierarchy)
              && r.args.outNdSbp == [args.outNdSbp[0], args.outNdSbp[0]]
              && r.args.inDesc == args.inDesc && r.args.inNdSbp == args.inNdSbp
  {
  }

  /** Two equal 2-D nd_sbps over the same hierarchy are not supported by this cascade. */
  lemma SameNdSbpNotSupported(args: BuildArgs, allSameSplit: AllSameSplit)
    requires SbpMatches(args)
    requires |args.inDesc.hierarchy| == 2 && args.inDesc.hierarchy == args.outDesc.hierarchy
    requires args.inNdSbp == args.outNdSbp
    ensures DispatchRoute(args, allSameSplit) == NotSupported
  {
  }
}

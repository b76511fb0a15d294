/**
  `GsplatSortPass`: the host side of the GPU radix sort. It checks that the compute shader has the
  six kernels it needs, sizes the scratch buffers, and records on a command buffer the dispatch
  sequence of one sort: CalcDistance, the global-histogram clear, then four Upsweep/Scan/Downsweep
  passes over radix shifts 0, 8, 16 and 24 with the key/payload buffers swapped after every pass.
*/
module SortPass {
  import opened Ints
  import opened Graphics
  import opened CommandLog
  import opened Sequences

  /** Keys handled by one thread block of the sort. */
  const PartitionSize: uint32 := 3840
  /** Bits per digit, digits per key, and digit passes for a 32-bit key. */
  const RadixBits: uint32 := 8
  const Radix: uint32 := 256
  const Passes: uint32 := 4
  /** Threads per group of the InitPayload and CalcDistance kernels. */
  const GroupSize: uint32 := 1024
  /** Element size of every sort buffer (`sizeof(uint)`, a float key or a uint payload). */
  const Stride: nat := 4

  /** Shader property names. */
  const PositionBufferId := "_PositionBuffer"
  const MatrixMvId := "_MatrixMV"
  const NumKeysId := "e_numKeys"
  const ThreadBlocksId := "e_threadBlocks"
  const PassHistId := "b_passHist"
  const GlobalHistId := "b_globalHist"
  const SortId := "b_sort"
  const SortPayloadId := "b_sortPayload"
  const AltId := "b_alt"
  const AltPayloadId := "b_altPayload"

  /**
    `(x + y - 1) / y` on C# `uint`: the sum wraps modulo 2^32. When it does not wrap the result is
    the ceiling of `x / y`; when it wraps (only for `x` within `y - 1` of 2^32) the result is 0.
  */
  function DivRoundUp(x: uint32, y: uint32): (r: uint32)
    requires y > 0
    ensures x + y - 1 < TwoTo32 ==> r * y >= x && r * y < x + y
    ensures x + y - 1 >= TwoTo32 ==> r == 0
  {
    CeilingDivision(x, y);
    ((x + y - 1) % TwoTo32) / y
  }

  lemma CeilingDivision(x: uint32, y: uint32)
    requires y > 0
    ensures x + y - 1 < TwoTo32 ==> ((x + y - 1) % TwoTo32) / y * y >= x
    ensures x + y - 1 < TwoTo32 ==> ((x + y - 1) % TwoTo32) / y * y < x + y
    ensures x + y - 1 >= TwoTo32 ==> ((x + y - 1) % TwoTo32) / y == 0
  {
    var n := x + y - 1;
    if n < TwoTo32 {
      assert n % TwoTo32 == n;
      var q := n / y;
      assert q * y + n % y == n;
    } else {
      DivModUnique(n, TwoTo32, 1, n - TwoTo32);
      DivModUnique(n - TwoTo32, y, 0, n - TwoTo32);
    }
  }

  /** The element count `Load` gives the pass histogram: `(int)(DivRoundUp(count, 3840) * 256)`. */
  function PassHistCount(count: uint32): int
  {
    AsInt32((DivRoundUp(count, PartitionSize) * Radix) % TwoTo32)
  }

  /**
    The pass-histogram size never wraps and never turns negative, and it holds one 256-entry
    histogram for every 3840-key partition needed to cover `count` keys (unless the rounding
    sum itself wraps, for counts within 3839 of 2^32).
  */
  lemma PassHistogramSize(count: uint32)
    ensures PassHistCount(count) == DivRoundUp(count, PartitionSize) * Radix
    ensures 0 <= PassHistCount(count) <= 286331136
    ensures count + PartitionSize - 1 < TwoTo32 ==>
      PassHistCount(count) % Radix == 0 && (PassHistCount(count) / Radix) * PartitionSize >= count
  {
    var tb := DivRoundUp(count, PartitionSize);
    if count + PartitionSize - 1 < TwoTo32 {
      assert tb * 3840 < TwoTo32;
      assert tb <= 1118481;
    }
    assert tb * Radix <= 286331136;
  }

  /** `GsplatSortPass.SupportResources`: a struct, so it is a value here. */
  datatype SupportResources = SupportResources(
    alt: GraphicsBuffer?, altPayload: GraphicsBuffer?, passHist: GraphicsBuffer?, globalHist: GraphicsBuffer?)

  /** The resources with every field null, as `Dispose` leaves them. */
  const NoResources := SupportResources(null, null, null, null)

  /** The buffers a resources value refers to. */
  function Buffers(r: SupportResources): set<GraphicsBuffer>
  {
    Present([r.alt, r.altPayload, r.passHist, r.globalHist])
  }

  /** Four distinct, live buffers. */
  predicate Loaded(r: SupportResources)
  {
    && r.alt != null && r.altPayload != null && r.passHist != null && r.globalHist != null
    && r.alt != r.altPayload && r.alt != r.passHist && r.alt != r.globalHist
    && r.altPayload != r.passHist && r.altPayload != r.globalHist && r.passHist != r.globalHist
  }

  /**
    `SupportResources.Load(count)`: alt key and alt payload buffers of `count` elements, a pass
    histogram of `DivRoundUp(count, 3840) * 256` elements and a global histogram of 256 * 4.
  */
  method Load(count: uint32) returns (r: SupportResources)
    ensures Loaded(r)
    ensures fresh(r.alt) && fresh(r.altPayload) && fresh(r.passHist) && fresh(r.globalHist)
    ensures r.alt.count == AsInt32(count) && r.altPayload.count == AsInt32(count)
    ensures r.passHist.count == PassHistCount(count)
    ensures r.globalHist.count == Radix * Passes
    ensures forall b :: b in Buffers(r) ==> b.stride == Stride && !b.released
  {
    var scratchBufferSize := (DivRoundUp(count, PartitionSize) * Radix) % TwoTo32;
    var reducedScratchBufferSize := Radix * Passes;
    var alt := new GraphicsBuffer(AsInt32(count), Stride);
    var altPayload := new GraphicsBuffer(AsInt32(count), Stride);
    var passHist := new GraphicsBuffer(AsInt32(scratchBufferSize), Stride);
    var globalHist := new GraphicsBuffer(AsInt32(reducedScratchBufferSize), Stride);
    r := SupportResources(alt, altPayload, passHist, globalHist);
    assert [r.alt, r.altPayload, r.passHist, r.globalHist] == [alt, altPayload, passHist, globalHist];
  }

  /**
    `SupportResources.Dispose`: every buffer it holds is released and the result has every field
    null, so disposing the result again releases nothing.
  */
  method Dispose(r: SupportResources) returns (r': SupportResources)
    modifies Buffers(r)
    ensures forall b :: b in Buffers(r) ==> b.released
    ensures r' == NoResources && Buffers(r') == {}
  {
    var bs := [r.alt, r.altPayload, r.passHist, r.globalHist];
    PresentHas(bs, 0);
    PresentHas(bs, 1);
    PresentHas(bs, 2);
    PresentHas(bs, 3);
    if r.alt != null { r.alt.Release(); }
    if r.altPayload != null { r.altPayload.Release(); }
    if r.passHist != null { r.passHist.Release(); }
    if r.globalHist != null { r.globalHist.Release(); }
    r' := NoResources;
    assert Present([null, null, null, null]) == {};
  }

  /** `GsplatSortPass.Args`. */
  datatype Args = Args(
    count: uint32, matrixMv: Matrix, positionBuffer: GraphicsBuffer?,
    inputKeys: GraphicsBuffer?, inputValues: GraphicsBuffer?, resources: SupportResources)

  /** Which buffers a pass reads (src) and writes (dst), for keys and payloads. */
  datatype Roles = Roles(srcKeys: GraphicsBuffer?, srcPayload: GraphicsBuffer?,
                         dstKeys: GraphicsBuffer?, dstPayload: GraphicsBuffer?)

  /** The tuple swaps at the end of every pass. */
  function Swap(r: Roles): Roles
  {
    Roles(r.dstKeys, r.dstPayload, r.srcKeys, r.srcPayload)
  }

  /** The roles the dispatch loop holds at the start of pass `k`: the initial roles swapped `k` times. */
  function RolesAt(args: Args, k: nat): Roles
  {
    if k == 0 then Roles(args.inputKeys, args.inputValues, args.resources.alt, args.resources.altPayload)
    else Swap(RolesAt(args, k - 1))
  }

  /** The caller's buffers are the source of the even passes, the alt buffers of the odd ones. */
  lemma {:induction false} RolesParity(args: Args, k: nat)
    ensures k % 2 == 0 ==> (RolesAt(args, k) ==
      Roles(args.inputKeys, args.inputValues, args.resources.alt, args.resources.altPayload))
    ensures k % 2 == 1 ==> (RolesAt(args, k) ==
      Roles(args.resources.alt, args.resources.altPayload, args.inputKeys, args.inputValues))
  {
    if k > 0 {
      RolesParity(args, k - 1);
    }
  }

  /** Every pass reads what the previous pass wrote, and after four passes the caller's buffers are the source again. */
  lemma RolesChain(args: Args, k: nat)
    ensures RolesAt(args, k + 1).srcKeys == RolesAt(args, k).dstKeys
    ensures RolesAt(args, k + 1).srcPayload == RolesAt(args, k).dstPayload
    ensures RolesAt(args, Passes as nat) == RolesAt(args, 0)
  {
    RolesParity(args, Passes as nat);
  }

  /** Ascending key-value sorting, plus the VULKAN variant when the device runs Vulkan. */
  method ConfigureKeywords(cs: ComputeShader, vulkan: bool)
    modifies cs
    ensures cs.keywords == (if vulkan then old(cs.keywords) + {"SHOULD_ASCEND", "SORT_PAIRS", "VULKAN"}
                            else old(cs.keywords) + {"SHOULD_ASCEND", "SORT_PAIRS"} - {"VULKAN"})
  {
    cs.EnableKeyword("SHOULD_ASCEND");
    cs.EnableKeyword("SORT_PAIRS");
    if vulkan {
      cs.EnableKeyword("VULKAN");
    } else {
      cs.DisableKeyword("VULKAN");
    }
  }

  class GsplatSortPass {
    const cs: ComputeShader
    const kernelInitPayload: int
    const kernelCalcDistance: int
    const kernelInitDeviceRadixSort: int
    const kernelUpsweep: int
    const kernelScan: int
    const kernelDownsweep: int
    const valid: bool

    /** Kernel `k` exists and the device supports it. */
    predicate Usable(k: int)
    {
      0 <= k < |cs.kernels| && cs.IsSupported(k)
    }

    /** The kernel indices are the shader's kernels of those names, and `valid` says all six are usable. */
    predicate Wellformed()
    {
      && kernelInitPayload == cs.FindKernel("InitPayload")
      && kernelCalcDistance == cs.FindKernel("CalcDistance")
      && kernelInitDeviceRadixSort == cs.FindKernel("InitDeviceRadixSort")
      && kernelUpsweep == cs.FindKernel("Upsweep")
      && kernelScan == cs.FindKernel("Scan")
      && kernelDownsweep == cs.FindKernel("Downsweep")
      && (valid <==>
            Usable(kernelInitPayload) && Usable(kernelCalcDistance) && Usable(kernelInitDeviceRadixSort)
            && Usable(kernelUpsweep) && Usable(kernelScan) && Usable(kernelDownsweep))
    }

    /**
      The constructor: looks the six kernels up, is valid exactly when all of them are found and
      supported, and sets the SHOULD_ASCEND and SORT_PAIRS keywords and VULKAN as the device says.
      `cs` is not null: the source dereferences it after its null check.
    */
    constructor (cs: ComputeShader, vulkan: bool)
      modifies cs
      ensures this.cs == cs && Wellformed()
      ensures cs.keywords == (if vulkan then old(cs.keywords) + {"SHOULD_ASCEND", "SORT_PAIRS", "VULKAN"}
                              else old(cs.keywords) + {"SHOULD_ASCEND", "SORT_PAIRS"} - {"VULKAN"})
    {
      this.cs := cs;
      var initPayload := cs.FindKernel("InitPayload");
      var calcDistance := cs.FindKernel("CalcDistance");
      var initDeviceRadixSort := cs.FindKernel("InitDeviceRadixSort");
      var upsweep := cs.FindKernel("Upsweep");
      var scan := cs.FindKernel("Scan");
      var downsweep := cs.FindKernel("Downsweep");
      kernelInitPayload := initPayload;
      kernelCalcDistance := calcDistance;
      kernelInitDeviceRadixSort := initDeviceRadixSort;
      kernelUpsweep := upsweep;
      kernelScan := scan;
      kernelDownsweep := downsweep;
      var ok := initPayload >= 0 && calcDistance >= 0 && initDeviceRadixSort >= 0
                && upsweep >= 0 && scan >= 0 && downsweep >= 0;
      if ok {
        if !cs.IsSupported(initPayload) || !cs.IsSupported(calcDistance)
           || !cs.IsSupported(initDeviceRadixSort) || !cs.IsSupported(upsweep)
           || !cs.IsSupported(scan) || !cs.IsSupported(downsweep) {
          ok := false;
        }
      }
      valid := ok;
      new;
      assert Wellformed();
      ConfigureKeywords(cs, vulkan);
    }

    /** In a valid pass the six kernels are six different entry points. */
    lemma KernelsDistinct()
      requires Wellformed() && valid
      ensures kernelInitPayload !in {kernelCalcDistance, kernelInitDeviceRadixSort, kernelUpsweep, kernelScan, kernelDownsweep}
      ensures kernelCalcDistance !in {kernelInitDeviceRadixSort, kernelUpsweep, kernelScan, kernelDownsweep}
      ensures kernelInitDeviceRadixSort !in {kernelUpsweep, kernelScan, kernelDownsweep}
      ensures kernelUpsweep !in {kernelScan, kernelDownsweep}
      ensures kernelScan != kernelDownsweep
    {
    }

    /** The commands `InitPayload(cmd, payloadBuffer, count)` records. */
    function InitPayloadCommands(payloadBuffer: GraphicsBuffer?, count: uint32): seq<Command>
    {
      [ SetComputeInt(cs, NumKeysId, AsInt32(count)),
        SetComputeBuffer(cs, kernelInitPayload, SortPayloadId, payloadBuffer),
        DispatchCompute(cs, kernelInitPayload, AsInt32(DivRoundUp(count, GroupSize))) ]
    }

    /** Fills `payloadBuffer` with 0, 1, ..., count - 1, one thread per element. */
    method InitPayload(cmd: CommandBuffer, payloadBuffer: GraphicsBuffer?, count: uint32)
      requires valid
      modifies cmd`commands
      ensures cmd.commands == old(cmd.commands) + InitPayloadCommands(payloadBuffer, count)
    {
      cmd.SetComputeIntParam(cs, NumKeysId, AsInt32(count));
      cmd.SetComputeBufferParam(cs, kernelInitPayload, SortPayloadId, payloadBuffer);
      cmd.Dispatch(cs, kernelInitPayload, AsInt32(DivRoundUp(count, GroupSize)));
    }

    /** The overall constants: key count, thread-block count and the model-view matrix. */
    function ConstantCommands(args: Args): seq<Command>
    {
      [ SetComputeInt(cs, NumKeysId, AsInt32(args.count)),
        SetComputeInt(cs, ThreadBlocksId, AsInt32(DivRoundUp(args.count, PartitionSize))),
        SetComputeMatrix(cs, MatrixMvId, args.matrixMv) ]
    }

    /** CalcDistance over the caller's key and payload buffers, one thread per key. */
    function CalcDistanceCommands(args: Args): seq<Command>
    {
      [ SetComputeBuffer(cs, kernelCalcDistance, PositionBufferId, args.positionBuffer),
        SetComputeBuffer(cs, kernelCalcDistance, SortId, args.inputKeys),
        SetComputeBuffer(cs, kernelCalcDistance, SortPayloadId, args.inputValues),
        DispatchCompute(cs, kernelCalcDistance, AsInt32(DivRoundUp(args.count, GroupSize))) ]
    }

    /** The histogram buffers of Upsweep, Scan and Downsweep, bound once for all passes. */
    function HistogramBindings(args: Args): seq<Command>
    {
      var res := args.resources;
      [ SetComputeBuffer(cs, kernelUpsweep, PassHistId, res.passHist),
        SetComputeBuffer(cs, kernelUpsweep, GlobalHistId, res.globalHist),
        SetComputeBuffer(cs, kernelScan, PassHistId, res.passHist),
        SetComputeBuffer(cs, kernelDownsweep, PassHistId, res.passHist),
        SetComputeBuffer(cs, kernelDownsweep, GlobalHistId, res.globalHist) ]
    }

    /** The one-group clear of the global histogram. */
    function ClearCommands(args: Args): seq<Command>
    {
      [ SetComputeBuffer(cs, kernelInitDeviceRadixSort, GlobalHistId, args.resources.globalHist),
        DispatchCompute(cs, kernelInitDeviceRadixSort, 1) ]
    }

    /** What `Dispatch` records before its pass loop. */
    function Prologue(args: Args): seq<Command>
    {
      ConstantCommands(args) + CalcDistanceCommands(args) + HistogramBindings(args) + ClearCommands(args)
    }

    /** The radix shift `8 * k` of pass `k` and its Upsweep over the pass's source keys. */
    function UpsweepCommands(args: Args, k: nat): seq<Command>
    {
      [ SetComputeInt(cs, RadixShiftId, 8 * k),
        SetComputeBuffer(cs, kernelUpsweep, SortId, RolesAt(args, k).srcKeys),
        DispatchCompute(cs, kernelUpsweep, AsInt32(DivRoundUp(args.count, PartitionSize))) ]
    }

    /** The Scan of the pass histogram, one group per digit value. */
    function ScanCommands(): seq<Command>
    {
      [ DispatchCompute(cs, kernelScan, Radix) ]
    }

    /** The Downsweep of pass `k`, scattering the source pair of `RolesAt(args, k)` into its destination pair. */
    function DownsweepCommands(args: Args, k: nat): seq<Command>
    {
      var r := RolesAt(args, k);
      [ SetComputeBuffer(cs, kernelDownsweep, SortId, r.srcKeys),
        SetComputeBuffer(cs, kernelDownsweep, SortPayloadId, r.srcPayload),
        SetComputeBuffer(cs, kernelDownsweep, AltId, r.dstKeys),
        SetComputeBuffer(cs, kernelDownsweep, AltPayloadId, r.dstPayload),
        DispatchCompute(cs, kernelDownsweep, AsInt32(DivRoundUp(args.count, PartitionSize))) ]
    }

    /** What pass `k` records. */
    function PassBlock(args: Args, k: nat): seq<Command>
    {
      UpsweepCommands(args, k) + ScanCommands() + DownsweepCommands(args, k)
    }

    /** The blocks of passes `0 .. k - 1`, in order. */
    function PassesBefore(args: Args, k: nat): seq<Command>
    {
      if k == 0 then [] else PassesBefore(args, k - 1) + PassBlock(args, k - 1)
    }

    /** Everything one `Dispatch` records. */
    function DispatchCommands(args: Args): seq<Command>
    {
      Prologue(args) + PassesBefore(args, Passes as nat)
    }

    /**
      Records one sort of `args.Count` keys: the prologue, then one block per radix shift
      0, 8, 16, 24, swapping the source and destination buffers after each.
    */
    method Dispatch(cmd: CommandBuffer, args: Args)
      requires valid
      modifies cmd`commands
      ensures cmd.commands == old(cmd.commands) + DispatchCommands(args)
    {
      var positionBuffer := args.positionBuffer;
      var srcKeyBuffer := args.inputKeys;
      var srcPayloadBuffer := args.inputValues;
      var dstKeyBuffer := args.resources.alt;
      var dstPayloadBuffer := args.resources.altPayload;

      var numKeys := args.count;
      var threadBlocks := DivRoundUp(args.count, PartitionSize);

      RecordConstants(cmd, args, numKeys, threadBlocks);
      RecordCalcDistance(cmd, args, positionBuffer, srcKeyBuffer, srcPayloadBuffer);
      RecordHistogramBindings(cmd, args);
      RecordClear(cmd, args);
      ghost var afterPrologue := cmd.commands;
      assert afterPrologue == old(cmd.commands) + Prologue(args);

      var radixShift: uint32 := 0;
      ghost var k: nat := 0;
      while radixShift < 32
        invariant radixShift == RadixBits * k <= 32
        invariant Roles(srcKeyBuffer, srcPayloadBuffer, dstKeyBuffer, dstPayloadBuffer) == RolesAt(args, k)
        invariant cmd.commands == afterPrologue + PassesBefore(args, k)
      {
        RecordPass(cmd, args, k, radixShift, threadBlocks, srcKeyBuffer, srcPayloadBuffer, dstKeyBuffer, dstPayloadBuffer);
        AppendAssoc(afterPrologue, PassesBefore(args, k), PassBlock(args, k));

        srcKeyBuffer, dstKeyBuffer := dstKeyBuffer, srcKeyBuffer;
        srcPayloadBuffer, dstPayloadBuffer := dstPayloadBuffer, srcPayloadBuffer;
        radixShift := radixShift + RadixBits;
        k := k + 1;
      }
      AppendAssoc(old(cmd.commands), Prologue(args), PassesBefore(args, k));
    }

    /** One pass of the loop in `Dispatch`: Upsweep, Scan and Downsweep at radix shift `8 * k`. */
    method RecordPass(cmd: CommandBuffer, args: Args, ghost k: nat, radixShift: uint32, threadBlocks: uint32,
                      srcKeyBuffer: GraphicsBuffer?, srcPayloadBuffer: GraphicsBuffer?,
                      dstKeyBuffer: GraphicsBuffer?, dstPayloadBuffer: GraphicsBuffer?)
      requires radixShift == 8 * k < 32 && threadBlocks == DivRoundUp(args.count, PartitionSize)
      requires Roles(srcKeyBuffer, srcPayloadBuffer, dstKeyBuffer, dstPayloadBuffer) == RolesAt(args, k)
      modifies cmd`commands
      ensures cmd.commands == old(cmd.commands) + PassBlock(args, k)
    {
      RecordUpsweep(cmd, args, k, radixShift, threadBlocks, srcKeyBuffer);
      cmd.Dispatch(cs, kernelScan, AsInt32(Radix));
      RecordDownsweep(cmd, args, k, threadBlocks, srcKeyBuffer, srcPayloadBuffer, dstKeyBuffer, dstPayloadBuffer);
    }

    method RecordConstants(cmd: CommandBuffer, args: Args, numKeys: uint32, threadBlocks: uint32)
      requires numKeys == args.count && threadBlocks == DivRoundUp(args.count, PartitionSize)
      modifies cmd`commands
      ensures cmd.commands == old(cmd.commands) + ConstantCommands(args)
    {
      cmd.SetComputeIntParam(cs, NumKeysId, AsInt32(numKeys));
      cmd.SetComputeIntParam(cs, ThreadBlocksId, AsInt32(threadBlocks));
      cmd.SetComputeMatrixParam(cs, MatrixMvId, args.matrixMv);
    }

    method RecordCalcDistance(cmd: CommandBuffer, args: Args, positionBuffer: GraphicsBuffer?,
                              srcKeyBuffer: GraphicsBuffer?, srcPayloadBuffer: GraphicsBuffer?)
      requires positionBuffer == args.positionBuffer
      requires srcKeyBuffer == args.inputKeys && srcPayloadBuffer == args.inputValues
      modifies cmd`commands
      ensures cmd.commands == old(cmd.commands) + CalcDistanceCommands(args)
    {
      cmd.SetComputeBufferParam(cs, kernelCalcDistance, PositionBufferId, positionBuffer);
      cmd.SetComputeBufferParam(cs, kernelCalcDistance, SortId, srcKeyBuffer);
      cmd.SetComputeBufferParam(cs, kernelCalcDistance, SortPayloadId, srcPayloadBuffer);
      cmd.Dispatch(cs, kernelCalcDistance, AsInt32(DivRoundUp(args.count, GroupSize)));
    }

    method RecordHistogramBindings(cmd: CommandBuffer, args: Args)
      modifies cmd`commands
      ensures cmd.commands == old(cmd.commands) + HistogramBindings(args)
    {
      cmd.SetComputeBufferParam(cs, kernelUpsweep, PassHistId, args.resources.passHist);
      cmd.SetComputeBufferParam(cs, kernelUpsweep, GlobalHistId, args.resources.globalHist);
      cmd.SetComputeBufferParam(cs, kernelScan, PassHistId, args.resources.passHist);
      cmd.SetComputeBufferParam(cs, kernelDownsweep, PassHistId, args.resources.passHist);
      cmd.SetComputeBufferParam(cs, kernelDownsweep, GlobalHistId, args.resources.globalHist);
    }

    method RecordClear(cmd: CommandBuffer, args: Args)
      modifies cmd`commands
      ensures cmd.commands == old(cmd.commands) + ClearCommands(args)
    {
      cmd.SetComputeBufferParam(cs, kernelInitDeviceRadixSort, GlobalHistId, args.resources.globalHist);
      cmd.Dispatch(cs, kernelInitDeviceRadixSort, 1);
    }

    method RecordUpsweep(cmd: CommandBuffer, args: Args, ghost k: nat, radixShift: uint32,
                         threadBlocks: uint32, srcKeyBuffer: GraphicsBuffer?)
      requires radixShift == 8 * k < 32 && threadBlocks == DivRoundUp(args.count, PartitionSize)
      requires srcKeyBuffer == RolesAt(args, k).srcKeys
      modifies cmd`commands
      ensures cmd.commands == old(cmd.commands) + UpsweepCommands(args, k)
    {
      cmd.SetComputeIntParam(cs, RadixShiftId, AsInt32(radixShift));
      cmd.SetComputeBufferParam(cs, kernelUpsweep, SortId, srcKeyBuffer);
      cmd.Dispatch(cs, kernelUpsweep, AsInt32(threadBlocks));
    }

    method RecordDownsweep(cmd: CommandBuffer, args: Args, ghost k: nat, threadBlocks: uint32,
                           srcKeyBuffer: GraphicsBuffer?, srcPayloadBuffer: GraphicsBuffer?,
                           dstKeyBuffer: GraphicsBuffer?, dstPayloadBuffer: GraphicsBuffer?)
      requires threadBlocks == DivRoundUp(args.count, PartitionSize)
      requires Roles(srcKeyBuffer, srcPayloadBuffer, dstKeyBuffer, dstPayloadBuffer) == RolesAt(args, k)
      modifies cmd`commands
      ensures cmd.commands == old(cmd.commands) + DownsweepCommands(args, k)
    {
      cmd.SetComputeBufferParam(cs, kernelDownsweep, SortId, srcKeyBuffer);
      cmd.SetComputeBufferParam(cs, kernelDownsweep, SortPayloadId, srcPayloadBuffer);
      cmd.SetComputeBufferParam(cs, kernelDownsweep, AltId, dstKeyBuffer);
      cmd.SetComputeBufferParam(cs, kernelDownsweep, AltPayloadId, dstPayloadBuffer);
      cmd.Dispatch(cs, kernelDownsweep, AsInt32(threadBlocks));
    }

    /** Upsweep, Scan (one group per digit) and Downsweep, each partition-blocked pass. */
    function PassSchedule(count: uint32): seq<(int, int)>
    {
      var threadBlocks := AsInt32(DivRoundUp(count, PartitionSize));
      [(kernelUpsweep, threadBlocks), (kernelScan, 256), (kernelDownsweep, threadBlocks)]
    }

    /** Pass `k` dispatches Upsweep, Scan and Downsweep and sets the radix shift to `8 * k`. */
    lemma PassBlockSchedule(args: Args, k: nat)
      ensures Dispatches(PassBlock(args, k)) == PassSchedule(args.count)
      ensures RadixShifts(PassBlock(args, k)) == [8 * k]
    {
      var up, scan, down := UpsweepCommands(args, k), ScanCommands(), DownsweepCommands(args, k);
      FlatMapThree(up[0], up[1], up[2], DispatchOf);
      FlatMapThree(up[0], up[1], up[2], ShiftOf);
      FlatMapOne(scan[0], DispatchOf);
      FlatMapOne(scan[0], ShiftOf);
      FlatMapFive(down[0], down[1], down[2], down[3], down[4], DispatchOf);
      FlatMapFive(down[0], down[1], down[2], down[3], down[4], ShiftOf);
      assert up == [up[0], up[1], up[2]] && scan == [scan[0]];
      assert down == [down[0], down[1], down[2], down[3], down[4]];
      FlatMapAppend(up, scan, DispatchOf);
      FlatMapAppend(up + scan, down, DispatchOf);
      FlatMapAppend(up, scan, ShiftOf);
      FlatMapAppend(up + scan, down, ShiftOf);
    }

    lemma {:induction false} PassesBeforeSchedule(args: Args, k: nat)
      ensures Dispatches(PassesBefore(args, k)) == Repeat(PassSchedule(args.count), k)
      ensures RadixShifts(PassesBefore(args, k)) == seq(k, i => 8 * i)
    {
      if k > 0 {
        var block := PassBlock(args, k - 1);
        PassesBeforeSchedule(args, k - 1);
        FlatMapAppend(PassesBefore(args, k - 1), block, DispatchOf);
        FlatMapAppend(PassesBefore(args, k - 1), block, ShiftOf);
        PassBlockSchedule(args, k - 1);
        assert seq(k, i => 8 * i) == seq(k - 1, i => 8 * i) + [8 * (k - 1)];
      }
    }

    /** The prologue dispatches CalcDistance and the histogram clear and sets no radix shift. */
    lemma PrologueSchedule(args: Args)
      ensures Dispatches(Prologue(args)) ==
        [(kernelCalcDistance, AsInt32(DivRoundUp(args.count, GroupSize))), (kernelInitDeviceRadixSort, 1)]
      ensures RadixShifts(Prologue(args)) == []
    {
      var a, b, c, d := ConstantCommands(args), CalcDistanceCommands(args), HistogramBindings(args), ClearCommands(args);
      assert a == [a[0], a[1], a[2]] && b == [b[0], b[1], b[2], b[3]];
      assert c == [c[0], c[1], c[2], c[3], c[4]] && d == [d[0]] + [d[1]];
      FlatMapThree(a[0], a[1], a[2], DispatchOf);
      FlatMapThree(a[0], a[1], a[2], ShiftOf);
      FlatMapOne(b[3], DispatchOf);
      FlatMapOne(b[3], ShiftOf);
      FlatMapThree(b[0], b[1], b[2], DispatchOf);
      FlatMapThree(b[0], b[1], b[2], ShiftOf);
      assert b == [b[0], b[1], b[2]] + [b[3]];
      FlatMapAppend([b[0], b[1], b[2]], [b[3]], DispatchOf);
      FlatMapAppend([b[0], b[1], b[2]], [b[3]], ShiftOf);
      FlatMapFive(c[0], c[1], c[2], c[3], c[4], DispatchOf);
      FlatMapFive(c[0], c[1], c[2], c[3], c[4], ShiftOf);
      FlatMapOne(d[0], DispatchOf);
      FlatMapOne(d[0], ShiftOf);
      FlatMapOne(d[1], DispatchOf);
      FlatMapOne(d[1], ShiftOf);
      FlatMapAppend([d[0]], [d[1]], DispatchOf);
      FlatMapAppend([d[0]], [d[1]], ShiftOf);
      FlatMapAppend(a, b, DispatchOf);
      FlatMapAppend(a + b, c, DispatchOf);
      FlatMapAppend(a + b + c, d, DispatchOf);
      FlatMapAppend(a, b, ShiftOf);
      FlatMapAppend(a + b, c, ShiftOf);
      FlatMapAppend(a + b + c, d, ShiftOf);
    }

    /**
      One `Dispatch` records exactly 14 dispatches whatever the count, zero included: CalcDistance
      over `DivRoundUp(count, 1024)` groups, the one-group histogram clear, then Upsweep, Scan and
      Downsweep four times; and it sets the radix shift to 0, 8, 16, 24 in that order.
    */
    lemma DispatchSchedule(args: Args)
      ensures Dispatches(DispatchCommands(args)) ==
        [(kernelCalcDistance, AsInt32(DivRoundUp(args.count, GroupSize))), (kernelInitDeviceRadixSort, 1)]
        + PassSchedule(args.count) + PassSchedule(args.count)
        + PassSchedule(args.count) + PassSchedule(args.count)
      ensures |Dispatches(DispatchCommands(args))| == 14
      ensures RadixShifts(DispatchCommands(args)) == [0, 8, 16, 24]
    {
      var p, b := Prologue(args), PassesBefore(args, Passes as nat);
      assert DispatchCommands(args) == p + b;
      FlatMapAppend(p, b, DispatchOf);
      FlatMapAppend(p, b, ShiftOf);
      PrologueSchedule(args);
      PassesBeforeSchedule(args, Passes as nat);
      RepeatFour(PassSchedule(args.count));
      assert seq(4, i => 8 * i) == [0, 8, 16, 24];
    }
  }
}

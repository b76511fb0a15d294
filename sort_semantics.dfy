/**
  What the commands of a `GsplatSortPass` do to the GPU buffers, and the proof that the list
  `Dispatch` records sorts the caller's key/payload buffers exactly as the reference radix sort does.

  The compute kernels are not part of this model; their effect is stated here as an interpretation:
  - Downsweep performs one stable counting-sort pass (`RadixSort.Pass`) on digit
    `e_radixShift / 8` of the first `e_numKeys` entries of the bound `b_sort`/`b_sortPayload`
    buffers, writing keys and payloads to the bound `b_alt`/`b_altPayload` buffers;
  - CalcDistance writes, for each of the first `e_numKeys` slots, the sort key `depth(i)` of the
    primitive `i` named by the payload in that slot (`depth` stands for the view-space distance
    under the current matrix, turned into an ascending-sortable `uint`);
  - InitPayload writes `0, 1, ..., e_numKeys - 1` to its bound `b_sortPayload`;
  - Upsweep, Scan and InitDeviceRadixSort only touch the histograms, which are not modelled.
  A dispatch whose groups do not cover all keys is given no effect.
*/
module SortSemantics {
  import opened Ints
  import opened Graphics
  import opened CommandLog
  import opened RadixSort
  import opened SortPass

  /** The GPU state the sort commands act on: integer properties, buffer bindings and buffer contents. */
  datatype Gpu = Gpu(
    ints: map<string, int>,
    bindings: map<(int, string), GraphicsBuffer?>,
    store: map<GraphicsBuffer, seq<uint32>>)

  /** An integer shader property; 0 until set. */
  function IntParam(g: Gpu, name: string): int
  {
    if name in g.ints then g.ints[name] else 0
  }

  /** The buffer bound to property `name` of `kernel`, or null. */
  function Bound(g: Gpu, kernel: int, name: string): GraphicsBuffer?
  {
    if (kernel, name) in g.bindings then g.bindings[(kernel, name)] else null
  }

  /** The contents of buffer `b`; nothing for null or an unknown buffer. */
  function Contents(g: Gpu, b: GraphicsBuffer?): seq<uint32>
  {
    if b != null && b in g.store then g.store[b] else []
  }

  /** A kernel's view of an `int` property as `uint`: the bit pattern is kept. */
  function AsUint(v: int): (x: uint32)
    ensures (x - v) % TwoTo32 == 0
  {
    v % TwoTo32
  }

  lemma AsUintAsInt32(x: uint32)
    ensures AsUint(AsInt32(x)) == x
  {
  }

  /** Threads `0 .. |prefix| - 1` each write their slot; slots past the end of the buffer are dropped. */
  function Overwrite(current: seq<uint32>, prefix: seq<uint32>): (r: seq<uint32>)
    ensures |r| == |current|
    ensures forall i :: 0 <= i < |r| ==> r[i] == (if i < |prefix| then prefix[i] else current[i])
  {
    if |prefix| <= |current| then prefix + current[|prefix|..] else prefix[..|current|]
  }

  /** Writes `prefix` to the front of buffer `b`; nothing happens for null or an unknown buffer. */
  function Write(g: Gpu, b: GraphicsBuffer?, prefix: seq<uint32>): Gpu
  {
    if b != null && b in g.store then g.(store := g.store[b := Overwrite(g.store[b], prefix)]) else g
  }

  /** The sort key of every primitive named in `ids`. */
  function Depths(depth: uint32 -> uint32, ids: seq<uint32>): (keys: seq<uint32>)
    ensures |keys| == |ids| && forall i :: 0 <= i < |ids| ==> keys[i] == depth(ids[i])
  {
    seq(|ids|, i requires 0 <= i < |ids| => depth(ids[i]))
  }

  /** The key count every kernel reads. */
  function NumKeys(g: Gpu): uint32
  {
    AsUint(IntParam(g, NumKeysId))
  }

  function DownsweepEffect(pass: GsplatSortPass, g: Gpu): Gpu
  {
    var n := NumKeys(g);
    var keys := Contents(g, Bound(g, pass.kernelDownsweep, SortId));
    var payload := Contents(g, Bound(g, pass.kernelDownsweep, SortPayloadId));
    if n <= |keys| && n <= |payload| then
      var out := Pass(Zip(keys[..n], payload[..n]), AsUint(IntParam(g, RadixShiftId)) / RadixBits);
      Write(Write(g, Bound(g, pass.kernelDownsweep, AltId), Keys(out)),
            Bound(g, pass.kernelDownsweep, AltPayloadId), Payloads(out))
    else g
  }

  function CalcDistanceEffect(pass: GsplatSortPass, depth: uint32 -> uint32, g: Gpu): Gpu
  {
    var n := NumKeys(g);
    var payload := Contents(g, Bound(g, pass.kernelCalcDistance, SortPayloadId));
    if n <= |payload| then Write(g, Bound(g, pass.kernelCalcDistance, SortId), Depths(depth, payload[..n]))
    else g
  }

  function InitPayloadEffect(pass: GsplatSortPass, g: Gpu): Gpu
  {
    Write(g, Bound(g, pass.kernelInitPayload, SortPayloadId), Iota(NumKeys(g)))
  }

  /** One recorded command executed on the GPU. */
  function Step(pass: GsplatSortPass, depth: uint32 -> uint32, g: Gpu, c: Command): Gpu
  {
    match c
    case SetComputeInt(_, name, value) => g.(ints := g.ints[name := value])
    case SetComputeMatrix(_, _, _) => g
    case SetComputeBuffer(_, kernel, name, buffer) => g.(bindings := g.bindings[(kernel, name) := buffer])
    case DispatchCompute(_, kernel, groups) =>
      if kernel == pass.kernelDownsweep then
        (if groups * PartitionSize >= NumKeys(g) then DownsweepEffect(pass, g) else g)
      else if kernel == pass.kernelCalcDistance then
        (if groups * GroupSize >= NumKeys(g) then CalcDistanceEffect(pass, depth, g) else g)
      else if kernel == pass.kernelInitPayload then
        (if groups * GroupSize >= NumKeys(g) then InitPayloadEffect(pass, g) else g)
      else g
    case ExternalSort(_, _, _) => g
  }

  function Stepper(pass: GsplatSortPass, depth: uint32 -> uint32): (Gpu, Command) -> Gpu
  {
    (g, c) => Step(pass, depth, g, c)
  }

  /** A command list executed in order. */
  function Run(pass: GsplatSortPass, depth: uint32 -> uint32, g: Gpu, cmds: seq<Command>): Gpu
  {
    Fold(Stepper(pass, depth), g, cmds)
  }

  lemma RunAppend(pass: GsplatSortPass, depth: uint32 -> uint32, g: Gpu, a: seq<Command>, b: seq<Command>)
    ensures Run(pass, depth, g, a + b) == Run(pass, depth, Run(pass, depth, g, a), b)
  {
    FoldAppend(Stepper(pass, depth), g, a, b);
  }

  /** Buffer `b` exists and holds `n` elements. */
  predicate Holds(g: Gpu, b: GraphicsBuffer?, n: nat)
  {
    b != null && b in g.store && |g.store[b]| == n
  }

  /** A write that covers the whole buffer replaces its contents. */
  lemma WriteAll(g: Gpu, b: GraphicsBuffer?, prefix: seq<uint32>)
    requires Holds(g, b, |prefix|)
    ensures Write(g, b, prefix) == g.(store := g.store[b := prefix])
  {
    assert g.store[b][|prefix|..] == [];
    assert prefix + [] == prefix;
  }

  /**
    The buffers of one sort: the caller's key and payload buffers and the two alt buffers are four
    different buffers of `count` elements each, and `count` is small enough that the thread-block
    count `DivRoundUp(count, 3840)` does not wrap.
  */
  predicate Ready(g: Gpu, args: Args)
  {
    var r := args.resources;
    && args.count + PartitionSize - 1 < TwoTo32
    && Holds(g, args.inputKeys, args.count) && Holds(g, args.inputValues, args.count)
    && Holds(g, r.alt, args.count) && Holds(g, r.altPayload, args.count)
    && args.inputKeys != args.inputValues && args.inputKeys != r.alt && args.inputKeys != r.altPayload
    && args.inputValues != r.alt && args.inputValues != r.altPayload && r.alt != r.altPayload
  }

  /** The four buffers of roles `r` are four different buffers of `n` elements. */
  predicate RolesHold(g: Gpu, r: Roles, n: nat)
  {
    && Holds(g, r.srcKeys, n) && Holds(g, r.srcPayload, n)
    && Holds(g, r.dstKeys, n) && Holds(g, r.dstPayload, n)
    && r.srcKeys != r.srcPayload && r.srcKeys != r.dstKeys && r.srcKeys != r.dstPayload
    && r.srcPayload != r.dstKeys && r.srcPayload != r.dstPayload && r.dstKeys != r.dstPayload
  }

  /** The roles of every pass are the four buffers of `Ready`, in some order. */
  lemma RolesReady(g: Gpu, args: Args, k: nat)
    requires Ready(g, args)
    ensures RolesHold(g, RolesAt(args, k), args.count)
  {
    RolesParity(args, k);
  }

  /** Writing a buffer of the right length keeps `Ready`. */
  lemma ReadyUpdate(g: Gpu, args: Args, b: GraphicsBuffer, contents: seq<uint32>)
    requires Ready(g, args) && b in g.store && |contents| == |g.store[b]|
    ensures Ready(g.(store := g.store[b := contents]), args)
  {
  }

  /** The constants only set integer properties, among them `e_numKeys`. */
  lemma ConstantsRun(pass: GsplatSortPass, depth: uint32 -> uint32, g: Gpu, args: Args)
    ensures var h := Run(pass, depth, g, pass.ConstantCommands(args));
      h.store == g.store && NumKeys(h) == args.count
  {
    var c := pass.ConstantCommands(args);
    FoldThree(Stepper(pass, depth), g, c[0], c[1], c[2]);
    assert c == [c[0], c[1], c[2]];
    var g1 := Step(pass, depth, g, c[0]);
    var g2 := Step(pass, depth, g1, c[1]);
    var g3 := Step(pass, depth, g2, c[2]);
    assert IntParam(g1, NumKeysId) == AsInt32(args.count);
    assert IntParam(g3, NumKeysId) == AsInt32(args.count);
    AsUintAsInt32(args.count);
  }

  /** CalcDistance overwrites the caller's keys with the keys of the primitives its payload names. */
  lemma CalcDistanceRun(pass: GsplatSortPass, depth: uint32 -> uint32, g: Gpu, args: Args)
    requires pass.Wellformed() && pass.valid
    requires Ready(g, args) && NumKeys(g) == args.count
    ensures var h := Run(pass, depth, g, pass.CalcDistanceCommands(args));
      && h.store == g.store[args.inputKeys := Depths(depth, g.store[args.inputValues])]
      && NumKeys(h) == args.count
  {
    pass.KernelsDistinct();
    var c := pass.CalcDistanceCommands(args);
    FoldFour(Stepper(pass, depth), g, c[0], c[1], c[2], c[3]);
    assert c == [c[0], c[1], c[2], c[3]];
    var g1 := Step(pass, depth, g, c[0]);
    var g2 := Step(pass, depth, g1, c[1]);
    var g3 := Step(pass, depth, g2, c[2]);
    assert g3.store == g.store && g3.ints == g.ints;
    assert Bound(g3, pass.kernelCalcDistance, SortId) == args.inputKeys;
    assert Bound(g3, pass.kernelCalcDistance, SortPayloadId) == args.inputValues;
    GroupsCover(args.count, GroupSize);
    var payload := g.store[args.inputValues];
    assert payload[..args.count] == payload;
    WriteAll(g3, args.inputKeys, Depths(depth, payload));
    assert Step(pass, depth, g3, c[3]) == CalcDistanceEffect(pass, depth, g3);
  }

  /** The static histogram bindings and the histogram clear leave buffers and properties alone. */
  lemma HistogramsRun(pass: GsplatSortPass, depth: uint32 -> uint32, g: Gpu, args: Args)
    requires pass.Wellformed() && pass.valid
    ensures var h := Run(pass, depth, g, pass.HistogramBindings(args) + pass.ClearCommands(args));
      h.store == g.store && h.ints == g.ints
  {
    pass.KernelsDistinct();
    var b, c := pass.HistogramBindings(args), pass.ClearCommands(args);
    FoldFive(Stepper(pass, depth), g, b[0], b[1], b[2], b[3], b[4]);
    assert b == [b[0], b[1], b[2], b[3], b[4]];
    var g1 := Run(pass, depth, g, b);
    assert g1.store == g.store && g1.ints == g.ints;
    FoldTwo(Stepper(pass, depth), g1, c[0], c[1]);
    assert c == [c[0], c[1]];
    var g2 := Step(pass, depth, g1, c[0]);
    assert Step(pass, depth, g2, c[1]) == g2;
    RunAppend(pass, depth, g, b, c);
  }

  /** The prologue leaves the caller's keys replaced by the depths of the primitives their payload names. */
  lemma PrologueRun(pass: GsplatSortPass, depth: uint32 -> uint32, g: Gpu, args: Args)
    requires pass.Wellformed() && pass.valid && Ready(g, args)
    ensures var h := Run(pass, depth, g, pass.Prologue(args));
      && h.store == g.store[args.inputKeys := Depths(depth, g.store[args.inputValues])]
      && NumKeys(h) == args.count
  {
    var a, b := pass.ConstantCommands(args), pass.CalcDistanceCommands(args);
    var c := pass.HistogramBindings(args) + pass.ClearCommands(args);
    assert pass.Prologue(args) == a + b + c;
    ConstantsRun(pass, depth, g, args);
    var g1 := Run(pass, depth, g, a);
    assert Ready(g1, args);
    CalcDistanceRun(pass, depth, g1, args);
    var g2 := Run(pass, depth, g1, b);
    HistogramsRun(pass, depth, g2, args);
    RunAppend(pass, depth, g, a, b);
    RunAppend(pass, depth, g, a + b, c);
  }

  /** Upsweep and Scan set the radix shift to `8 * k` and change no buffer. */
  lemma UpsweepScanRun(pass: GsplatSortPass, depth: uint32 -> uint32, g: Gpu, args: Args, k: nat)
    requires pass.Wellformed() && pass.valid
    ensures var h := Run(pass, depth, g, pass.UpsweepCommands(args, k) + pass.ScanCommands());
      && h.store == g.store && NumKeys(h) == NumKeys(g)
      && IntParam(h, RadixShiftId) == 8 * k
  {
    pass.KernelsDistinct();
    var u, sc := pass.UpsweepCommands(args, k), pass.ScanCommands();
    FoldThree(Stepper(pass, depth), g, u[0], u[1], u[2]);
    assert u == [u[0], u[1], u[2]];
    var g1 := Step(pass, depth, g, u[0]);
    var g2 := Step(pass, depth, g1, u[1]);
    assert Step(pass, depth, g2, u[2]) == g2;
    assert IntParam(g2, RadixShiftId) == 8 * k && IntParam(g2, NumKeysId) == IntParam(g, NumKeysId);
    FoldOne(Stepper(pass, depth), g2, sc[0]);
    assert sc == [sc[0]];
    assert Step(pass, depth, g2, sc[0]) == g2;
    RunAppend(pass, depth, g, u, sc);
  }

  /** The four Downsweep bindings of pass `k` bind the roles of pass `k` and change nothing else. */
  lemma DownsweepBindRun(pass: GsplatSortPass, depth: uint32 -> uint32, g: Gpu, args: Args, k: nat)
    ensures var r := RolesAt(args, k);
      var h := Run(pass, depth, g, pass.DownsweepCommands(args, k)[..4]);
      && h.store == g.store && h.ints == g.ints
      && Bound(h, pass.kernelDownsweep, SortId) == r.srcKeys
      && Bound(h, pass.kernelDownsweep, SortPayloadId) == r.srcPayload
      && Bound(h, pass.kernelDownsweep, AltId) == r.dstKeys
      && Bound(h, pass.kernelDownsweep, AltPayloadId) == r.dstPayload
  {
    var d := pass.DownsweepCommands(args, k)[..4];
    FoldFour(Stepper(pass, depth), g, d[0], d[1], d[2], d[3]);
    assert d == [d[0], d[1], d[2], d[3]];
  }

  /** The Downsweep kernel on the roles of pass `k` reads the whole source pair and digit `k`. */
  lemma DownsweepReads(pass: GsplatSortPass, g: Gpu, r: Roles, n: uint32, k: nat)
    requires RolesHold(g, r, n) && NumKeys(g) == n && IntParam(g, RadixShiftId) == 8 * k && k < 4
    requires Bound(g, pass.kernelDownsweep, SortId) == r.srcKeys
    requires Bound(g, pass.kernelDownsweep, SortPayloadId) == r.srcPayload
    requires Bound(g, pass.kernelDownsweep, AltId) == r.dstKeys
    requires Bound(g, pass.kernelDownsweep, AltPayloadId) == r.dstPayload
    ensures var out := Pass(Zip(g.store[r.srcKeys], g.store[r.srcPayload]), k);
      DownsweepEffect(pass, g) == Write(Write(g, r.dstKeys, Keys(out)), r.dstPayload, Payloads(out))
  {
    var keys, payload := g.store[r.srcKeys], g.store[r.srcPayload];
    assert keys[..n] == keys && payload[..n] == payload;
    assert AsUint(8 * k) / RadixBits == k;
  }

  /** The Downsweep kernel on the roles of pass `k` writes one reference pass into the destination pair. */
  lemma DownsweepEffectRun(pass: GsplatSortPass, g: Gpu, r: Roles, n: uint32, k: nat)
    requires RolesHold(g, r, n) && NumKeys(g) == n && IntParam(g, RadixShiftId) == 8 * k && k < 4
    requires Bound(g, pass.kernelDownsweep, SortId) == r.srcKeys
    requires Bound(g, pass.kernelDownsweep, SortPayloadId) == r.srcPayload
    requires Bound(g, pass.kernelDownsweep, AltId) == r.dstKeys
    requires Bound(g, pass.kernelDownsweep, AltPayloadId) == r.dstPayload
    ensures var out := Pass(Zip(g.store[r.srcKeys], g.store[r.srcPayload]), k);
      var h := DownsweepEffect(pass, g);
      h.store == g.store[r.dstKeys := Keys(out)][r.dstPayload := Payloads(out)] && h.ints == g.ints
  {
    var z := Zip(g.store[r.srcKeys], g.store[r.srcPayload]);
    var out := Pass(z, k);
    DownsweepReads(pass, g, r, n, k);
    PassMultiset(z, k);
    assert |out| == |multiset(out)| == |z| == n;
    WriteBoth(g, r, n, Keys(out), Payloads(out));
  }

  /** Full-length writes into the destination pair of `r` replace both buffers and nothing else. */
  lemma WriteBoth(g: Gpu, r: Roles, n: nat, keys: seq<uint32>, payloads: seq<uint32>)
    requires RolesHold(g, r, n) && |keys| == |payloads| == n
    ensures var h := Write(Write(g, r.dstKeys, keys), r.dstPayload, payloads);
      h.store == g.store[r.dstKeys := keys][r.dstPayload := payloads] && h.ints == g.ints
  {
    WriteAll(g, r.dstKeys, keys);
    var g1 := g.(store := g.store[r.dstKeys := keys]);
    assert g1.store[r.dstPayload] == g.store[r.dstPayload];
    WriteAll(g1, r.dstPayload, payloads);
  }

  /** When `count + size - 1` does not wrap, `DivRoundUp(count, size)` groups of `size` threads cover `count` keys. */
  lemma GroupsCover(count: uint32, size: uint32)
    requires size >= 1024 && count + size - 1 < TwoTo32
    ensures AsInt32(DivRoundUp(count, size)) * size >= count
  {
    var t := DivRoundUp(count, size);
    assert t * size < TwoTo32;
    MulMono(size, 1024, t);
    assert t < TwoTo31;
  }

  /** A Downsweep dispatch that covers all keys runs the Downsweep kernel. */
  lemma DispatchStep(pass: GsplatSortPass, depth: uint32 -> uint32, g: Gpu, c: Command, kernel: int, groups: int)
    requires c == DispatchCompute(pass.cs, kernel, groups) && kernel == pass.kernelDownsweep
    requires groups * PartitionSize >= NumKeys(g)
    ensures Step(pass, depth, g, c) == DownsweepEffect(pass, g)
  {
  }

  /** Downsweep of pass `k` writes one counting-sort pass of the source pair into the destination pair. */
  lemma DownsweepRun(pass: GsplatSortPass, depth: uint32 -> uint32, g: Gpu, args: Args, k: nat)
    requires pass.Wellformed() && pass.valid && k < 4
    requires args.count + PartitionSize - 1 < TwoTo32 && RolesHold(g, RolesAt(args, k), args.count)
    requires NumKeys(g) == args.count && IntParam(g, RadixShiftId) == 8 * k
    ensures var r := RolesAt(args, k);
      var out := Pass(Zip(g.store[r.srcKeys], g.store[r.srcPayload]), k);
      var h := Run(pass, depth, g, pass.DownsweepCommands(args, k));
      && h.store == g.store[r.dstKeys := Keys(out)][r.dstPayload := Payloads(out)]
      && NumKeys(h) == args.count
  {
    pass.KernelsDistinct();
    var d := pass.DownsweepCommands(args, k);
    assert d == d[..4] + [d[4]];
    DownsweepBindRun(pass, depth, g, args, k);
    var g4 := Run(pass, depth, g, d[..4]);
    assert NumKeys(g4) == NumKeys(g) && IntParam(g4, RadixShiftId) == IntParam(g, RadixShiftId);
    DownsweepEffectRun(pass, g4, RolesAt(args, k), args.count, k);
    GroupsCover(args.count, PartitionSize);
    DispatchStep(pass, depth, g4, d[4], pass.kernelDownsweep, AsInt32(DivRoundUp(args.count, PartitionSize)));
    FoldOne(Stepper(pass, depth), g4, d[4]);
    RunAppend(pass, depth, g, d[..4], [d[4]]);
  }

  /** The entries after passes `0 .. k - 1`. */
  function After(s: seq<Entry>, k: nat): seq<Entry>
  {
    Iterate(Pass, s, 0, k)
  }

  lemma AfterLength(s: seq<Entry>, k: nat)
    ensures |After(s, k)| == |s|
  {
    forall y: seq<Entry>, q: nat
      ensures |Pass(y, q)| == |y|
    {
      PassMultiset(y, q);
      assert |multiset(Pass(y, q))| == |multiset(y)|;
    }
    IterateKeeps(Pass, (y: seq<Entry>) => |y|, s, 0, k);
  }

  /** At the start of pass `k`, the pass's source pair holds the entries after passes `0 .. k - 1`. */
  ghost predicate AtPass(g: Gpu, args: Args, s: seq<Entry>, k: nat)
  {
    var r := RolesAt(args, k);
    && Ready(g, args) && NumKeys(g) == args.count
    && RolesHold(g, r, args.count)
    && Zip(g.store[r.srcKeys], g.store[r.srcPayload]) == After(s, k)
  }

  /** Writing pass `k` of the reference sort into the destination pair reaches the start of pass `k + 1`. */
  lemma PassAdvances(g: Gpu, h: Gpu, args: Args, s: seq<Entry>, k: nat)
    requires k < 4 && AtPass(g, args, s, k) && NumKeys(h) == args.count
    requires var r, out := RolesAt(args, k), Pass(After(s, k), k);
      h.store == g.store[r.dstKeys := Keys(out)][r.dstPayload := Payloads(out)]
    ensures AtPass(h, args, s, k + 1)
  {
    var out := Pass(After(s, k), k);
    PassMultiset(After(s, k), k);
    assert |out| == |multiset(out)| == args.count;
    PassKeepsReady(g, h, args, RolesAt(args, k), Keys(out), Payloads(out));
    RolesReady(h, args, k + 1);
    PassHandsOver(g, h, args, s, k);
  }

  /** A pass writes two buffers of the right length into the destination pair, so the buffers stay ready. */
  lemma PassKeepsReady(g: Gpu, h: Gpu, args: Args, r: Roles, keys: seq<uint32>, payloads: seq<uint32>)
    requires Ready(g, args) && RolesHold(g, r, args.count)
    requires |keys| == |payloads| == args.count
    requires h.store == g.store[r.dstKeys := keys][r.dstPayload := payloads]
    ensures Ready(h, args)
  {
    var g1 := g.(store := g.store[r.dstKeys := keys]);
    ReadyUpdate(g, args, r.dstKeys, keys);
    ReadyUpdate(g1, args, r.dstPayload, payloads);
  }

  /** What pass `k` writes is what pass `k + 1` reads, and it is the reference state after `k + 1` passes. */
  lemma PassHandsOver(g: Gpu, h: Gpu, args: Args, s: seq<Entry>, k: nat)
    requires k < 4 && AtPass(g, args, s, k)
    requires var r, out := RolesAt(args, k), Pass(After(s, k), k);
      h.store == g.store[r.dstKeys := Keys(out)][r.dstPayload := Payloads(out)]
    ensures var r := RolesAt(args, k + 1);
      Zip(h.store[r.srcKeys], h.store[r.srcPayload]) == After(s, k + 1)
  {
    var r, out := RolesAt(args, k), Pass(After(s, k), k);
    RolesChain(args, k);
    assert h.store[r.dstKeys] == Keys(out) && h.store[r.dstPayload] == Payloads(out);
    IterateLast(Pass, s, 0, k);
    Unzip(out);
  }

  /** One pass block advances the state by one reference pass. */
  lemma PassBlockRun(pass: GsplatSortPass, depth: uint32 -> uint32, g: Gpu, args: Args, s: seq<Entry>, k: nat)
    requires pass.Wellformed() && pass.valid && k < 4 && AtPass(g, args, s, k)
    ensures AtPass(Run(pass, depth, g, pass.PassBlock(args, k)), args, s, k + 1)
  {
    var up := pass.UpsweepCommands(args, k) + pass.ScanCommands();
    var down := pass.DownsweepCommands(args, k);
    assert pass.PassBlock(args, k) == up + down;
    UpsweepScanRun(pass, depth, g, args, k);
    var g1 := Run(pass, depth, g, up);
    assert RolesHold(g1, RolesAt(args, k), args.count);
    DownsweepRun(pass, depth, g1, args, k);
    RunAppend(pass, depth, g, up, down);
    PassAdvances(g, Run(pass, depth, g1, down), args, s, k);
  }

  /** The first `k` pass blocks carry the state from pass 0 to pass `k`. */
  lemma {:induction false} PassesRun(pass: GsplatSortPass, depth: uint32 -> uint32, g: Gpu, args: Args, s: seq<Entry>, k: nat)
    requires pass.Wellformed() && pass.valid && k <= 4 && AtPass(g, args, s, 0)
    ensures AtPass(Run(pass, depth, g, pass.PassesBefore(args, k)), args, s, k)
  {
    if k == 0 {
      assert pass.PassesBefore(args, 0) == [];
    } else {
      var before, block := pass.PassesBefore(args, k - 1), pass.PassBlock(args, k - 1);
      assert pass.PassesBefore(args, k) == before + block;
      PassesRun(pass, depth, g, args, s, k - 1);
      RunAppend(pass, depth, g, before, block);
      PassBlockRun(pass, depth, Run(pass, depth, g, before), args, s, k - 1);
    }
  }

  /** After the prologue, pass 0 is about to run on the (depth, payload) pairs of the caller's buffers. */
  lemma PrologueStarts(pass: GsplatSortPass, depth: uint32 -> uint32, g: Gpu, args: Args)
    requires pass.Wellformed() && pass.valid && Ready(g, args)
    ensures var payload := g.store[args.inputValues];
      AtPass(Run(pass, depth, g, pass.Prologue(args)), args, Zip(Depths(depth, payload), payload), 0)
  {
    var payload := g.store[args.inputValues];
    PrologueRun(pass, depth, g, args);
    var g1 := Run(pass, depth, g, pass.Prologue(args));
    ReadyUpdate(g, args, args.inputKeys, Depths(depth, payload));
    RolesReady(g1, args, 0);
  }

  /**
    The command list of one `Dispatch` sorts: the caller's key and payload buffers end up holding
    the reference four-pass radix sort of the pairs (depth of the primitive named by each payload
    slot, payload), keys and payloads written back to the same two buffers.
  */
  lemma DispatchSorts(pass: GsplatSortPass, depth: uint32 -> uint32, g: Gpu, args: Args)
    requires pass.Wellformed() && pass.valid && Ready(g, args)
    ensures var payload := g.store[args.inputValues];
      var out := Sort(Zip(Depths(depth, payload), payload));
      var h := Run(pass, depth, g, pass.DispatchCommands(args));
      && Contents(h, args.inputKeys) == Keys(out)
      && Contents(h, args.inputValues) == Payloads(out)
  {
    var payload := g.store[args.inputValues];
    var s := Zip(Depths(depth, payload), payload);
    var pro, body := pass.Prologue(args), pass.PassesBefore(args, 4);
    PrologueStarts(pass, depth, g, args);
    var g1 := Run(pass, depth, g, pro);
    PassesRun(pass, depth, g1, args, s, 4);
    RunAppend(pass, depth, g, pro, body);
    var h := Run(pass, depth, g1, body);
    assert h == Run(pass, depth, g, pass.DispatchCommands(args));
    RolesChain(args, 0);
    ZipSplit(h.store[args.inputKeys], h.store[args.inputValues]);
  }

  /** Any rearrangement of (depth, payload) pairs rearranges the payload and keeps each slot beside its depth. */
  lemma PairsOf(depth: uint32 -> uint32, payload: seq<uint32>, out: seq<Entry>)
    requires multiset(out) == multiset(Zip(Depths(depth, payload), payload))
    ensures multiset(Payloads(out)) == multiset(payload)
    ensures forall i :: 0 <= i < |out| ==> out[i].key == depth(out[i].payload)
  {
    var s := Zip(Depths(depth, payload), payload);
    PayloadsMultiset(out, s);
    ZipSplit(Depths(depth, payload), payload);
    forall i | 0 <= i < |out|
      ensures out[i].key == depth(out[i].payload)
    {
      assert out[i] in multiset(s);
      var j :| 0 <= j < |s| && s[j] == out[i];
    }
  }

  /** Sorting (depth, payload) pairs: the payload is rearranged and each slot sits beside its depth, ascending. */
  lemma SortedPairs(depth: uint32 -> uint32, payload: seq<uint32>)
    ensures var out := Sort(Zip(Depths(depth, payload), payload));
      var order, keys := Payloads(out), Keys(out);
      && multiset(order) == multiset(payload)
      && |keys| == |order|
      && (forall i :: 0 <= i < |order| ==> keys[i] == depth(order[i]))
      && (forall i, j :: 0 <= i < j < |keys| ==> keys[i] <= keys[j])
  {
    var s := Zip(Depths(depth, payload), payload);
    var out := Sort(s);
    SortCorrect(s);
    PairsOf(depth, payload, out);
    var order, keys := Payloads(out), Keys(out);
    forall i | 0 <= i < |order|
      ensures keys[i] == depth(order[i])
    {
      assert keys[i] == out[i].key && order[i] == out[i].payload;
    }
    forall i, j | 0 <= i < j < |keys|
      ensures keys[i] <= keys[j]
    {
      assert keys[i] == out[i].key && keys[j] == out[j].key;
    }
  }

  /**
    `order` lists every primitive index `0 .. n - 1` exactly once, by ascending depth, and `keys`
    holds the depth of each.
  */
  ghost predicate DepthOrder(depth: uint32 -> uint32, n: nat, order: seq<uint32>, keys: seq<uint32>)
  {
    && |order| == |keys| == n
    && (forall i :: 0 <= i < |order| ==> order[i] < n && keys[i] == depth(order[i]))
    && (forall i, j :: 0 <= i < j < |order| ==> order[i] != order[j])
    && (forall v: uint32 :: v < n ==> v in order)
    && (forall i, j :: 0 <= i < j < |order| ==> depth(order[i]) <= depth(order[j]))
  }

  /** An ascending rearrangement of the (depth, index) pairs lists the indices in depth order. */
  lemma IdsOf(depth: uint32 -> uint32, n: nat, out: seq<Entry>)
    requires n <= TwoTo32 && |out| == n && Ascending(out) && OrderOf(Depths(depth, Iota(n)), out)
    ensures DepthOrder(depth, n, Payloads(out), Keys(out))
  {
    var keys := Depths(depth, Iota(n));
    forall v: uint32 | v < n
      ensures v in Payloads(out)
    {
      var i :| 0 <= i < |out| && out[i] == Entry(keys[v], v);
      assert Payloads(out)[i] == v;
    }
  }

  /** Sorting (depth, index) pairs for the indices `0 .. n - 1` lists the indices in depth order. */
  lemma SortedIds(depth: uint32 -> uint32, n: nat)
    requires n <= TwoTo32
    ensures var out := Sort(Zip(Depths(depth, Iota(n)), Iota(n)));
      DepthOrder(depth, n, Payloads(out), Keys(out))
  {
    SortIdentityPayload(Depths(depth, Iota(n)));
    IdsOf(depth, n, Sort(Zip(Depths(depth, Iota(n)), Iota(n))));
  }

  /**
    Any later frame: one `Dispatch` rearranges the caller's payload, and leaves each payload slot
    beside the key of the primitive it names, the keys ascending.
  */
  lemma DispatchReorders(pass: GsplatSortPass, depth: uint32 -> uint32, g: Gpu, args: Args)
    requires pass.Wellformed() && pass.valid && Ready(g, args)
    ensures var h := Run(pass, depth, g, pass.DispatchCommands(args));
      var order, keys := Contents(h, args.inputValues), Contents(h, args.inputKeys);
      && multiset(order) == multiset(g.store[args.inputValues])
      && |keys| == |order|
      && (forall i :: 0 <= i < |order| ==> keys[i] == depth(order[i]))
      && (forall i, j :: 0 <= i < j < |keys| ==> keys[i] <= keys[j])
  {
    DispatchSorts(pass, depth, g, args);
    SortedPairs(depth, g.store[args.inputValues]);
  }

  /** `InitPayload` fills the payload buffer with `0, 1, ..., count - 1`. */
  lemma InitPayloadRun(pass: GsplatSortPass, depth: uint32 -> uint32, g: Gpu, b: GraphicsBuffer?, count: uint32)
    requires pass.Wellformed() && pass.valid
    requires Holds(g, b, count) && count + PartitionSize - 1 < TwoTo32
    ensures var h := Run(pass, depth, g, pass.InitPayloadCommands(b, count));
      h.store == g.store[b := Iota(count)] && NumKeys(h) == count
  {
    pass.KernelsDistinct();
    var c := pass.InitPayloadCommands(b, count);
    FoldThree(Stepper(pass, depth), g, c[0], c[1], c[2]);
    assert c == [c[0], c[1], c[2]];
    var g1 := Step(pass, depth, g, c[0]);
    var g2 := Step(pass, depth, g1, c[1]);
    AsUintAsInt32(count);
    assert NumKeys(g2) == count && g2.store == g.store;
    GroupsCover(count, GroupSize);
    WriteAll(g2, b, Iota(count));
    assert Step(pass, depth, g2, c[2]) == InitPayloadEffect(pass, g2);
  }

  /**
    The first frame of a resource: `InitPayload` followed by `Dispatch` leaves in the payload
    buffer every primitive index `0 .. count - 1` exactly once, ordered by ascending depth, and in
    the key buffer the depth of each.
  */
  lemma FirstSortOrders(pass: GsplatSortPass, depth: uint32 -> uint32, g: Gpu, args: Args)
    requires pass.Wellformed() && pass.valid && Ready(g, args)
    ensures var cmds := pass.InitPayloadCommands(args.inputValues, args.count) + pass.DispatchCommands(args);
      var h := Run(pass, depth, g, cmds);
      DepthOrder(depth, args.count, Contents(h, args.inputValues), Contents(h, args.inputKeys))
  {
    var init := pass.InitPayloadCommands(args.inputValues, args.count);
    InitPayloadRun(pass, depth, g, args.inputValues, args.count);
    var g1 := Run(pass, depth, g, init);
    ReadyUpdate(g, args, args.inputValues, Iota(args.count));
    RunAppend(pass, depth, g, init, pass.DispatchCommands(args));
    DispatchSorts(pass, depth, g1, args);
    SortedIds(depth, args.count);
  }
}

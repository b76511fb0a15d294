/**
  `GsplatSorter`, the registry that sorts every live drawable before each camera renders, and
  `GsplatRenderer`, the drawable component (the only implementation of `IGsplat`). They refer to
  each other, so they share a module.

  Engine state they consult is passed in: `srp` says a scriptable render pipeline is active
  (`GraphicsSettings.currentRenderPipeline` is set), `settingsValid` is `GsplatSettings.Instance.Valid`,
  `vulkan` says the device runs Vulkan. `Camera.onPreCull` is a counter of how many times the
  sorter's handler is in the delegate.
*/
module Gsplat {
  import opened Wrappers
  import opened Ints
  import opened Graphics
  import opened SortPass
  import opened SorterResource
  import opened RendererImpl

  /** The imported splat asset: its splat count and number of spherical-harmonics bands. */
  class GsplatAsset {
    const splatCount: uint32
    const shBands: byte

    constructor (splatCount: uint32, shBands: byte)
      ensures this.splatCount == splatCount && this.shBands == shBands
    {
      this.splatCount := splatCount;
      this.shBands := shBands;
    }
  }

  /** One drawable's sort job: its resource and the arguments of its `Dispatch`. */
  datatype Job = Job(res: Resource, args: Args)

  /** The `InitPayload` commands of a job over its order buffer when `init` holds, else none. */
  function InitBlock(pass: GsplatSortPass, a: Args, init: bool): seq<Command>
  {
    if init then pass.InitPayloadCommands(a.inputValues, a.count) else []
  }

  lemma Regroup<T>(x: seq<T>, a: seq<T>, b: seq<T>, p: seq<T>)
    ensures x + (a + b) + p == ((x + a) + b) + p
  {
  }

  /**
    The commands `DispatchSort` records for `jobs` in list order when the resources in `pending`
    are not yet initialised: a job whose resource is pending initialises it first, after which it
    is no longer pending.
  */
  function Plan(pass: GsplatSortPass, jobs: seq<Job>, pending: set<Resource>): seq<Command>
    decreases |jobs|, 1
  {
    if jobs == [] then []
    else InitBlock(pass, jobs[0].args, jobs[0].res in pending) + SortThenPlan(pass, jobs, pending)
  }

  /** The sort `Dispatch` of the first of `jobs`, then the plan of the rest. */
  function SortThenPlan(pass: GsplatSortPass, jobs: seq<Job>, pending: set<Resource>): seq<Command>
    requires jobs != []
    decreases |jobs|, 0
  {
    pass.DispatchCommands(jobs[0].args) + Plan(pass, jobs[1..], pending - {jobs[0].res})
  }

  /** Peeling job `i` off the plan of `jobs[i..]`, with the parentheses where a loop wants them. */
  lemma PlanAdvance(pass: GsplatSortPass, jobs: seq<Job>, i: nat, pending: set<Resource>,
                    whole: seq<Command>, before: seq<Command>)
    requires i < |jobs| && whole == before + Plan(pass, jobs[i..], pending)
    ensures whole == ((before + InitBlock(pass, jobs[i].args, jobs[i].res in pending)) + pass.DispatchCommands(jobs[i].args))
                     + Plan(pass, jobs[i + 1..], pending - {jobs[i].res})
  {
    assert jobs[i..][1..] == jobs[i + 1..];
    assert SortThenPlan(pass, jobs[i..], pending)
        == pass.DispatchCommands(jobs[i].args) + Plan(pass, jobs[i + 1..], pending - {jobs[i].res});
    Regroup(before, InitBlock(pass, jobs[i].args, jobs[i].res in pending), pass.DispatchCommands(jobs[i].args),
            Plan(pass, jobs[i + 1..], pending - {jobs[i].res}));
  }

  /** Once job `i` has run, none of the resources of jobs `0 .. i` is pending. */
  lemma PendingStep(jobs: seq<Job>, i: nat, pending: set<Resource>)
    requires i < |jobs|
    requires forall k :: 0 <= k < i ==> jobs[k].res !in pending
    ensures forall k :: 0 <= k < i + 1 ==> jobs[k].res !in pending - {jobs[i].res}
  {
  }

  /** The resources of `rs` not yet initialised. */
  function Pending(rs: set<Resource>): set<Resource>
    reads rs
  {
    set r | r in rs && !r.initialized
  }

  class GsplatSorter {
    var commandBuffer: CommandBuffer?
    var gsplats: set<GsplatRenderer>
    var camerasInjected: set<Camera>
    var activeGsplats: seq<GsplatRenderer>
    var sortPass: GsplatSortPass?
    /** How many times `OnPreCullCamera` is subscribed to `Camera.onPreCull`. */
    var subscriptions: nat

    constructor ()
      ensures commandBuffer == null && gsplats == {} && camerasInjected == {} && activeGsplats == []
      ensures sortPass == null && subscriptions == 0
    {
      commandBuffer := null;
      gsplats := {};
      camerasInjected := {};
      activeGsplats := [];
      sortPass := null;
      subscriptions := 0;
    }

    /** A sort pass exists and is valid. */
    predicate Valid()
      reads this`sortPass
    {
      sortPass != null && sortPass.valid
    }

    /**
      The cameras the command buffer is attached to are exactly the injected cameras, each once,
      and there is a live command buffer whenever a camera has been injected.
    */
    predicate Attached()
      reads this`commandBuffer, this`camerasInjected, commandBuffer
    {
      && (commandBuffer == null ==> camerasInjected == {})
      && (commandBuffer != null ==> !commandBuffer.released && commandBuffer.attachedTo == multiset(camerasInjected))
    }

    /** Without a scriptable render pipeline, the handler is subscribed exactly while a drawable is registered. */
    predicate Hooked()
      reads this
    {
      subscriptions == if gsplats == {} then 0 else 1
    }

    /** The drawables `GatherGsplatsForCamera` selects. */
    function Eligible(): set<GsplatRenderer>
      reads this`gsplats, gsplats
    {
      set gs | gs in gsplats && gs.activeAndEnabled && gs.Valid()
    }

    /** No camera ever has the command buffer attached twice. */
    lemma InjectedOnce(cam: Camera)
      requires Attached() && commandBuffer != null
      ensures commandBuffer.attachedTo[cam] <= 1
    {
    }

    /** A sort pass over `computeShader`, or none when there is no shader. */
    method InitSorter(computeShader: ComputeShader?, vulkan: bool)
      modifies this`sortPass, computeShader
      ensures computeShader == null ==> sortPass == null && !Valid()
      ensures computeShader != null ==>
        sortPass != null && fresh(sortPass) && sortPass.cs == computeShader && sortPass.Wellformed()
        && (Valid() <==> sortPass.valid)
    {
      if computeShader != null {
        sortPass := new GsplatSortPass(computeShader, vulkan);
      } else {
        sortPass := null;
      }
    }

    /**
      Adds `gs` with set semantics; the handler is subscribed when the registry was empty and no
      scriptable render pipeline is active.
    */
    method RegisterGsplat(gs: GsplatRenderer, srp: bool)
      modifies this`gsplats, this`subscriptions
      ensures gsplats == old(gsplats) + {gs}
      ensures subscriptions == old(subscriptions) + (if old(gsplats) == {} && !srp then 1 else 0)
      ensures gs in old(gsplats) ==> gsplats == old(gsplats) && subscriptions == old(subscriptions)
      ensures !srp && old(Hooked()) ==> Hooked()
    {
      if gsplats == {} {
        if !srp {
          subscriptions := subscriptions + 1;
        }
      }
      gsplats := gsplats + {gs};
    }

    /**
      Removes `gs`. Nothing happens for a non-member; removing another member only shrinks the
      set. Removing the last member detaches the command buffer from every injected camera that
      still exists, forgets the cameras and the active list, releases the command buffer and
      unsubscribes the handler.
    */
    method UnregisterGsplat(gs: GsplatRenderer)
      modifies this`gsplats, this`camerasInjected, this`activeGsplats, this`commandBuffer, this`subscriptions
      modifies commandBuffer
      ensures gs !in old(gsplats) ==> unchanged(this) && (old(commandBuffer) != null ==> unchanged(old(commandBuffer)))
      ensures gsplats == old(gsplats) - {gs}
      ensures gsplats != {} ==> unchanged(this`camerasInjected, this`activeGsplats, this`commandBuffer, this`subscriptions)
                                && (old(commandBuffer) != null ==> unchanged(old(commandBuffer)))
      ensures gs in old(gsplats) && gsplats == {} ==>
        && camerasInjected == {} && activeGsplats == [] && commandBuffer == null
        && subscriptions == (if old(subscriptions) > 0 then old(subscriptions) - 1 else 0)
        && (old(commandBuffer) != null ==>
              && old(commandBuffer).released
              && old(commandBuffer).commands == old(commandBuffer.commands)
              && forall c: Camera :: old(commandBuffer).attachedTo[c] ==
                   if c in old(camerasInjected) && !c.destroyed then 0 else old(commandBuffer.attachedTo)[c])
      ensures old(Attached()) ==> Attached()
      ensures old(Hooked()) ==> Hooked()
    {
      if gs !in gsplats {
        return;
      }
      gsplats := gsplats - {gs};
      if gsplats != {} {
        return;
      }
      if commandBuffer != null {
        DetachAll(commandBuffer, camerasInjected);
      }
      camerasInjected := {};
      activeGsplats := [];
      if commandBuffer != null {
        commandBuffer.Release();
      }
      commandBuffer := null;
      if subscriptions > 0 {
        subscriptions := subscriptions - 1;
      }
    }

    /**
      For a preview camera: false, and the active list is left alone. Otherwise the active list
      becomes the eligible drawables, each once, in the registry's enumeration order, and the
      result says whether there is any.
    */
    method GatherGsplatsForCamera(cam: Camera) returns (found: bool)
      modifies this`activeGsplats
      ensures cam.cameraType == Preview ==> !found && activeGsplats == old(activeGsplats)
      ensures cam.cameraType != Preview ==>
        && (forall gs :: gs in activeGsplats <==> gs in Eligible())
        && (forall i, j :: 0 <= i < j < |activeGsplats| ==> activeGsplats[i] != activeGsplats[j])
        && (found <==> Eligible() != {})
    {
      if cam.cameraType == Preview {
        return false;
      }
      activeGsplats := [];
      var todo := gsplats;
      while todo != {}
        invariant todo <= gsplats
        invariant forall gs :: gs in activeGsplats <==> gs in Eligible() && gs !in todo
        invariant forall i, j :: 0 <= i < j < |activeGsplats| ==> activeGsplats[i] != activeGsplats[j]
        decreases todo
      {
        var gs :| gs in todo;
        if gs.activeAndEnabled && gs.Valid() {
          activeGsplats := activeGsplats + [gs];
        }
        todo := todo - {gs};
      }
      found := |activeGsplats| != 0;
      assert found <==> activeGsplats != [];
      if !found {
        assert forall gs :: gs !in Eligible();
      } else {
        assert activeGsplats[0] in Eligible();
      }
    }

    /**
      Makes sure a command buffer exists, attaches it to `cam` when no scriptable render pipeline
      is active, the camera still exists and has not been injected yet, and clears it.
    */
    method InitialClearCmdBuffer(cam: Camera, srp: bool)
      modifies this`commandBuffer, this`camerasInjected, commandBuffer
      ensures commandBuffer != null && commandBuffer.commands == []
      ensures old(commandBuffer) != null ==> commandBuffer == old(commandBuffer)
      ensures old(commandBuffer) == null ==> fresh(commandBuffer)
      ensures camerasInjected == old(camerasInjected) + (if !srp && !cam.destroyed then {cam} else {})
      ensures old(Attached()) ==> Attached()
    {
      if commandBuffer == null {
        commandBuffer := new CommandBuffer();
      }
      if !srp && !cam.destroyed && cam !in camerasInjected {
        cam.AddCommandBuffer(commandBuffer);
        camerasInjected := camerasInjected + {cam};
      }
      commandBuffer.Clear();
    }

    /** The sorter resources of the registered drawables that have one. */
    function Resources(): set<Resource>
      reads this`gsplats, gsplats, set gs | gs in gsplats :: gs.impl
    {
      set gs | gs in gsplats && gs.impl != null && gs.impl.sorterResource != null :: gs.impl.sorterResource
    }

    /**
      For every active drawable in list order: `InitPayload` on its order buffer when its resource
      is not yet initialised, then one sort `Dispatch` with the drawable's count, its model-view
      matrix for `camera`, and its resource's buffers. `rs` holds every active resource; each one
      met ends up initialised.
    */
    method DispatchSort(cmd: CommandBuffer, camera: Camera, ghost rs: set<Resource>) returns (ghost jobs: seq<Job>)
      requires Valid()
      requires forall gs :: gs in activeGsplats ==> gs.impl != null && gs.impl.sorterResource != null && gs.impl.sorterResource in rs
      modifies cmd`commands, rs`initialized
      ensures |jobs| == |activeGsplats|
      ensures forall i :: 0 <= i < |jobs| ==> jobs[i] == old(activeGsplats[i].JobFor(camera))
      ensures cmd.commands == old(cmd.commands) + Plan(sortPass, jobs, old(Pending(rs)))
      ensures forall k :: 0 <= k < |jobs| ==> jobs[k].res.initialized
      ensures forall r :: r in rs && old(r.initialized) ==> r.initialized
    {
      var list := activeGsplats;
      forall k | 0 <= k < |list|
        ensures list[k].impl != null && list[k].impl.sorterResource != null && list[k].impl.sorterResource in rs
      {
        assert list[k] in activeGsplats;
      }
      jobs := seq(|list|, k requires 0 <= k < |list| && list[k].impl != null && list[k].impl.sorterResource != null
                            reads list, set g | g in list :: g.impl
                            reads (set g | g in list && g.impl != null :: g.impl.sorterResource)`inputKeys
                            => list[k].JobFor(camera));
      ghost var pending := Pending(rs);
      ghost var whole := cmd.commands + Plan(sortPass, jobs, pending);
      SortAll(cmd, camera, list, jobs, rs, pending, whole);
    }

    /** The loop of `DispatchSort` over `list`, whose jobs are `jobs`. */
    method SortAll(cmd: CommandBuffer, camera: Camera, list: seq<GsplatRenderer>,
                   ghost jobs: seq<Job>, ghost rs: set<Resource>, ghost pending0: set<Resource>, ghost whole: seq<Command>)
      requires Valid() && |jobs| == |list|
      requires forall k :: 0 <= k < |list| ==> list[k].impl != null && list[k].impl.sorterResource != null
      requires forall k :: 0 <= k < |list| ==> jobs[k] == list[k].JobFor(camera) && jobs[k].res in rs
      requires forall r :: r in rs ==> (r.initialized <==> r !in pending0)
      requires whole == cmd.commands + Plan(sortPass, jobs, pending0)
      modifies cmd`commands, rs`initialized
      ensures whole == cmd.commands
      ensures forall k :: 0 <= k < |jobs| ==> jobs[k].res.initialized
      ensures forall r :: r in rs && old(r.initialized) ==> r.initialized
    {
      ghost var pending := pending0;
      for i := 0 to |list|
        invariant pending <= pending0
        invariant forall r :: r in rs ==> (r.initialized <==> r !in pending)
        invariant forall k :: 0 <= k < i ==> jobs[k].res !in pending
        invariant whole == cmd.commands + Plan(sortPass, jobs[i..], pending)
      {
        PendingStep(jobs, i, pending);
        SortStep(cmd, camera, list, i, jobs, rs, pending, whole);
        pending := pending - {jobs[i].res};
      }
      assert jobs[|list|..] == [];
    }

    /**
      The loop body of `DispatchSort` for drawable `i` of `list`: initialises its resource when it
      is pending, then records the sort; the commands still to come are the plan of the remaining
      jobs, with that resource no longer pending.
    */
    method SortStep(cmd: CommandBuffer, camera: Camera, list: seq<GsplatRenderer>, i: nat,
                    ghost jobs: seq<Job>, ghost rs: set<Resource>, ghost pending: set<Resource>, ghost whole: seq<Command>)
      requires Valid() && i < |list| == |jobs|
      requires list[i].impl != null && list[i].impl.sorterResource != null
      requires jobs[i] == list[i].JobFor(camera) && jobs[i].res in rs
      requires forall r :: r in rs ==> (r.initialized <==> r !in pending)
      requires whole == cmd.commands + Plan(sortPass, jobs[i..], pending)
      modifies cmd`commands, jobs[i].res`initialized
      ensures forall r :: r in rs ==> (r.initialized <==> r !in pending - {jobs[i].res})
      ensures whole == cmd.commands + Plan(sortPass, jobs[i + 1..], pending - {jobs[i].res})
    {
      var gs := list[i];
      PlanAdvance(sortPass, jobs, i, pending, whole, cmd.commands);
      assert jobs[i].res in pending <==> !jobs[i].res.initialized;
      SortJob(cmd, gs, gs.impl.sorterResource, camera);
    }

    /** Initialises `res` if it is not yet initialised, then records the sort of `gs` for `camera`. */
    method SortJob(cmd: CommandBuffer, gs: GsplatRenderer, res: Resource, camera: Camera)
      requires Valid() && gs.impl != null && gs.impl.sorterResource == res
      modifies cmd`commands, res`initialized
      ensures res.initialized
      ensures cmd.commands == (old(cmd.commands) + InitBlock(sortPass, old(gs.JobFor(camera)).args, !old(res.initialized)))
                              + sortPass.DispatchCommands(old(gs.JobFor(camera)).args)
    {
      ghost var job := gs.JobFor(camera);
      ghost var mid := cmd.commands + InitBlock(sortPass, job.args, !res.initialized);
      if !res.initialized {
        sortPass.InitPayload(cmd, res.orderBuffer, gs.SplatCount());
        res.initialized := true;
      } else {
        assert cmd.commands + [] == cmd.commands;
      }
      var args := Args(gs.SplatCount(), Mul(camera.worldToCameraMatrix, gs.localToWorld),
                       res.positionBuffer, res.inputKeys, res.orderBuffer, res.resources);
      assert args == job.args && cmd.commands == mid;
      sortPass.Dispatch(cmd, args);
    }

    /**
      Before a camera culls: when the sorter and the settings are valid and the camera has
      eligible drawables, clears (and if needed attaches) the command buffer and records one sort
      per active drawable into it.
    */
    method OnPreCullCamera(camera: Camera, settingsValid: bool, srp: bool) returns (ghost jobs: seq<Job>)
      requires forall gs :: gs in Eligible() ==> gs.impl != null && gs.impl.sorterResource != null
      modifies this`activeGsplats, this`commandBuffer, this`camerasInjected, commandBuffer, Resources()`initialized
      ensures !Valid() || !settingsValid || camera.cameraType == Preview ==>
        unchanged(this) && (old(commandBuffer) != null ==> unchanged(old(commandBuffer))) && unchanged(old(Resources()))
      ensures Valid() && settingsValid && camera.cameraType != Preview ==>
        (forall gs :: gs in activeGsplats <==> gs in old(Eligible()))
      ensures Valid() && settingsValid && camera.cameraType != Preview && old(Eligible()) == {} ==>
        unchanged(this`commandBuffer, this`camerasInjected) && (old(commandBuffer) != null ==> unchanged(old(commandBuffer)))
        && unchanged(old(Resources()))
      ensures Valid() && settingsValid && camera.cameraType != Preview && old(Eligible()) != {} ==>
        && commandBuffer != null
        && camerasInjected == old(camerasInjected) + (if !srp && !camera.destroyed then {camera} else {})
        && |jobs| == |activeGsplats|
        && (forall i :: 0 <= i < |jobs| ==>
              activeGsplats[i].impl != null && activeGsplats[i].impl.sorterResource != null
              && jobs[i] == activeGsplats[i].JobFor(camera))
        && commandBuffer.commands == Plan(sortPass, jobs, old(Pending(Resources())))
        && (forall k :: 0 <= k < |jobs| ==> jobs[k].res.initialized)
      ensures forall r :: r in old(Resources()) && old(r.initialized) ==> r.initialized
      ensures old(Attached()) ==> Attached()
    {
      jobs := [];
      if !Valid() || !settingsValid {
        return;
      }
      ghost var rs := Resources();
      ghost var pending := Pending(rs);
      var found := GatherGsplatsForCamera(camera);
      ghost var attached := Attached();
      assert attached == old(Attached());
      ghost var eligible := Eligible();
      assert eligible == old(Eligible());
      if !found {
        return;
      }
      forall gs | gs in activeGsplats
        ensures gs.impl != null && gs.impl.sorterResource != null && gs.impl.sorterResource in rs
      {
        assert gs in Eligible();
      }
      ghost var active := activeGsplats;
      assert forall gs :: gs in active <==> gs in eligible;
      jobs := ClearAndSort(camera, srp, rs);
      assert activeGsplats == active;
    }

    /**
      What `OnPreCullCamera` does once it has drawables to sort: `InitialClearCmdBuffer`, then
      `DispatchSort` into the command buffer.
    */
    method ClearAndSort(camera: Camera, srp: bool, ghost rs: set<Resource>) returns (ghost jobs: seq<Job>)
      requires Valid()
      requires forall gs :: gs in activeGsplats ==> gs.impl != null && gs.impl.sorterResource != null && gs.impl.sorterResource in rs
      modifies this`commandBuffer, this`camerasInjected, commandBuffer, rs`initialized
      ensures commandBuffer != null
      ensures camerasInjected == old(camerasInjected) + (if !srp && !camera.destroyed then {camera} else {})
      ensures |jobs| == |activeGsplats|
      ensures forall i :: 0 <= i < |jobs| ==> jobs[i] == old(activeGsplats[i].JobFor(camera))
      ensures forall i :: 0 <= i < |jobs| ==>
        activeGsplats[i].impl != null && activeGsplats[i].impl.sorterResource != null && jobs[i] == activeGsplats[i].JobFor(camera)
      ensures commandBuffer.commands == Plan(sortPass, jobs, old(Pending(rs)))
      ensures forall k :: 0 <= k < |jobs| ==> jobs[k].res.initialized
      ensures forall r :: r in rs && old(r.initialized) ==> r.initialized
      ensures old(Attached()) ==> Attached()
    {
      ghost var attached := Attached();
      ghost var pending := Pending(rs);
      InitialClearCmdBuffer(camera, srp);
      ghost var cb: CommandBuffer := commandBuffer;
      assert attached ==> Attached();
      assert Pending(rs) == pending;
      label dispatch:
      jobs := DispatchSort(commandBuffer, camera, rs);
      assert unchanged@dispatch(this, cb`released, cb`attachedTo);
      assert attached ==> Attached();
    }
  }

  /** `cam.RemoveCommandBuffer(cb)` for every camera of `cams` that still exists. */
  method DetachAll(cb: CommandBuffer, cams: set<Camera>)
    modifies cb`attachedTo
    ensures forall c: Camera :: cb.attachedTo[c] == if c in cams && !c.destroyed then 0 else old(cb.attachedTo)[c]
  {
    var todo := cams;
    while todo != {}
      invariant todo <= cams
      invariant forall c: Camera ::
        cb.attachedTo[c] == if c in cams && c !in todo && !c.destroyed then 0 else old(cb.attachedTo)[c]
      decreases todo
    {
      var cam :| cam in todo;
      if !cam.destroyed {
        cam.RemoveCommandBuffer(cb);
      }
      todo := todo - {cam};
    }
  }

  /** How an `Update` ends: no draw, a `Render` call on the impl, or a call on a missing impl. */
  datatype UpdateOutcome = NoDraw | Rendered(outcome: RenderOutcome) | NullRenderer

  class GsplatRenderer {
    const sorter: GsplatSorter
    var asset: GsplatAsset?
    var prevAsset: GsplatAsset?
    var impl: GsplatRendererImpl?
    /** `isActiveAndEnabled`, which the engine sets before `OnEnable` and clears before `OnDisable`. */
    var activeAndEnabled: bool
    /** The engine has destroyed the component, so Unity's overloaded `== null` holds for it. */
    var destroyed: bool
    var localToWorld: Matrix
    var shDegree: int
    var gammaToLinear: bool

    constructor (sorter: GsplatSorter, asset: GsplatAsset?, localToWorld: Matrix)
      ensures this.sorter == sorter && this.asset == asset && this.localToWorld == localToWorld
      ensures prevAsset == null && impl == null && !activeAndEnabled && !destroyed
      ensures shDegree == 3 && !gammaToLinear
    {
      this.sorter := sorter;
      this.asset := asset;
      this.localToWorld := localToWorld;
      prevAsset := null;
      impl := null;
      activeAndEnabled := false;
      destroyed := false;
      shDegree := 3;
      gammaToLinear := false;
    }

    /** An asset is assigned. */
    predicate Valid()
      reads this
    {
      asset != null
    }

    /** The asset's splat count, or 0 without an asset. */
    function SplatCount(): (n: uint32)
      reads this
      ensures asset != null ==> n == asset.splatCount
      ensures asset == null ==> n == 0
    {
      if asset != null then asset.splatCount else 0
    }

    /** The sort job `DispatchSort` builds for this drawable and `camera`. */
    function JobFor(camera: Camera): Job
      requires impl != null && impl.sorterResource != null
      reads this, impl, impl.sorterResource`inputKeys
    {
      var res := impl.sorterResource;
      Job(res, Args(SplatCount(), Mul(camera.worldToCameraMatrix, localToWorld),
                    res.positionBuffer, res.inputKeys, res.orderBuffer, res.resources))
    }

    /** Once an asset has been seen by `Update`, an impl exists. */
    predicate Consistent()
      reads this
    {
      prevAsset != null ==> impl != null
    }

    /** Registers with the sorter, even without an asset, and builds an impl when there is one. */
    method OnEnable(srp: bool)
      modifies this`activeAndEnabled, this`impl, sorter`gsplats, sorter`subscriptions
      ensures activeAndEnabled
      ensures sorter.gsplats == old(sorter.gsplats) + {this}
      ensures sorter.subscriptions == old(sorter.subscriptions) + (if old(sorter.gsplats) == {} && !srp then 1 else 0)
      ensures asset == null ==> impl == old(impl)
      ensures asset != null ==>
        impl != null && fresh(impl) && impl.splatCount == asset.splatCount && impl.shBands == asset.shBands
        && impl.Built() && impl.Valid()
      ensures old(Consistent()) ==> Consistent()
    {
      activeAndEnabled := true;
      sorter.RegisterGsplat(this, srp);
      if asset == null {
        return;
      }
      impl := new GsplatRendererImpl(asset.splatCount, asset.shBands);
    }

    /**
      Unregisters, disposes the impl and drops it. Also forgets the last asset `Update` saw, so
      that re-enabling and assigning that asset again rebuilds the impl.
    */
    method OnDisable()
      modifies this`activeAndEnabled, this`impl, this`prevAsset
      modifies sorter`gsplats, sorter`camerasInjected, sorter`activeGsplats, sorter`commandBuffer
      modifies sorter`subscriptions, sorter.commandBuffer
      modifies if impl != null then impl.Footprint() + {impl} else {}
      ensures !activeAndEnabled && impl == null && prevAsset == null && Consistent()
      ensures sorter.gsplats == old(sorter.gsplats) - {this}
      ensures old(impl) != null ==> old(impl).BufferFields() == [null, null, null, null, null, null]
      ensures old(impl) != null ==> forall b :: b in old(Present(impl.BufferFields())) ==> b.released
      ensures old(impl) != null && old(impl.sorterResource) != null ==>
        forall b :: b in old(impl.sorterResource.Owned()) ==> b.released
      ensures old(sorter.Attached()) ==> sorter.Attached()
      ensures old(sorter.Hooked()) ==> sorter.Hooked()
    {
      activeAndEnabled := false;
      sorter.UnregisterGsplat(this);
      if impl != null {
        impl.Dispose();
      }
      impl := null;
      prevAsset := null;
    }

    /** `OnDisable` as the source writes it: the last asset `Update` saw is kept. */
    method OnDisableKeepingAsset()
      modifies this`activeAndEnabled, this`impl
      modifies sorter`gsplats, sorter`camerasInjected, sorter`activeGsplats, sorter`commandBuffer
      modifies sorter`subscriptions, sorter.commandBuffer
      modifies if impl != null then impl.Footprint() + {impl} else {}
      ensures !activeAndEnabled && impl == null && prevAsset == old(prevAsset)
      ensures sorter.gsplats == old(sorter.gsplats) - {this}
      ensures old(impl) != null ==> old(impl).BufferFields() == [null, null, null, null, null, null]
      ensures old(impl) != null ==> forall b :: b in old(Present(impl.BufferFields())) ==> b.released
      ensures old(impl) != null && old(impl.sorterResource) != null ==>
        forall b :: b in old(impl.sorterResource.Owned()) ==> b.released
      ensures old(sorter.Attached()) ==> sorter.Attached()
      ensures old(sorter.Hooked()) ==> sorter.Hooked()
    {
      activeAndEnabled := false;
      sorter.UnregisterGsplat(this);
      if impl != null {
        impl.Dispose();
      }
      impl := null;
    }

    /**
      When the asset reference changed since the last `Update`: remember it, and with an asset
      create a missing impl or recreate the existing one for its count and bands. Then, with an
      asset, render through the impl.
    */
    method Update(env: Environment) returns (outcome: UpdateOutcome)
      modifies this`prevAsset, this`impl
      modifies if impl != null then impl.Footprint() + {impl} else {}
      ensures prevAsset == asset
      ensures old(prevAsset) == asset ==> impl == old(impl)
      ensures old(prevAsset) != asset && asset != null ==>
        && impl != null && impl.splatCount == asset.splatCount && impl.shBands == asset.shBands
        && (old(impl) != null ==> impl == old(impl))
      ensures old(prevAsset) != asset && asset == null ==> impl == old(impl)
      ensures asset == null ==> outcome == NoDraw
      ensures asset != null && impl == null ==> outcome == NullRenderer
      ensures asset != null && impl != null ==> outcome.Rendered?
      ensures old(Consistent()) ==> Consistent() && outcome != NullRenderer
    {
      if prevAsset != asset {
        prevAsset := asset;
        if asset != null {
          if impl == null {
            impl := new GsplatRendererImpl(asset.splatCount, asset.shBands);
          } else {
            impl.RecreateResources(asset.splatCount, asset.shBands);
          }
        }
      }
      if !Valid() {
        return NoDraw;
      }
      if impl == null {
        return NullRenderer;
      }
      var r := impl.Render(asset.splatCount, localToWorld, gammaToLinear, shDegree, env);
      outcome := Rendered(r);
    }
  }
  /**
    Disable, clear the asset, enable, then assign the asset `Update` last saw again: with
    `OnDisable` as written, the next `Update` sees no change of asset, builds no impl and calls
    `Render` on the missing one.
  */
  method ReassignAfterDisableAsWritten(r: GsplatRenderer, a: GsplatAsset, srp: bool, env: Environment)
    returns (outcome: UpdateOutcome)
    requires r.asset == a && r.prevAsset == a
    modifies r, r.sorter, r.sorter.commandBuffer
    modifies if r.impl != null then r.impl.Footprint() + {r.impl} else {}
    ensures outcome == NullRenderer
  {
    r.OnDisableKeepingAsset();
    r.asset := null;
    r.OnEnable(srp);
    r.asset := a;
    outcome := r.Update(env);
  }

  /** The same steps with `OnDisable` forgetting the last asset: the next `Update` rebuilds the impl and draws. */
  method ReassignAfterDisable(r: GsplatRenderer, a: GsplatAsset, srp: bool, env: Environment)
    returns (outcome: UpdateOutcome)
    requires r.asset == a && r.prevAsset == a
    modifies r, r.sorter, r.sorter.commandBuffer
    modifies if r.impl != null then r.impl.Footprint() + {r.impl} else {}
    ensures outcome.Rendered?
  {
    r.OnDisable();
    r.asset := null;
    r.OnEnable(srp);
    r.asset := a;
    outcome := r.Update(env);
  }
}

/**
  The legacy registry `GsplatRenderSystem`: the same drawable registry and camera bookkeeping as
  `GsplatSorter`, driving a `GpuSorting` sorter whose implementation is not part of this model.
*/
module RenderSystem {
  import opened Graphics
  import opened Gsplat

  /**
    The arguments handed to the legacy sorter: `gs.SorterArgs` (a property that is not part of
    this model, so it is named by its drawable) with `MatrixMv` overwritten.
  */
  datatype SorterArgs = SorterArgs(of: GsplatRenderer, matrixMv: Matrix)

  /** One `Dispatch` call on the legacy sorter: the command buffer and the arguments. */
  datatype SortCall = SortCall(cmd: CommandBuffer, args: SorterArgs)

  /**
    The legacy sorter. Only what the registry observes is modelled: whether it is valid, and the
    `Dispatch` calls it receives, in order.
  */
  class GpuSorting {
    const cs: ComputeShader
    const valid: bool
    var calls: seq<SortCall>

    constructor (cs: ComputeShader, valid: bool)
      ensures this.cs == cs && this.valid == valid && calls == []
    {
      this.cs := cs;
      this.valid := valid;
      calls := [];
    }

    method Dispatch(cmd: CommandBuffer, args: SorterArgs)
      modifies this`calls
      ensures calls == old(calls) + [SortCall(cmd, args)]
    {
      calls := calls + [SortCall(cmd, args)];
    }
  }

  /** The call `OnPreCullCamera` makes for drawable `gs` and `camera`. */
  function CallFor(cmd: CommandBuffer, gs: GsplatRenderer, camera: Camera): SortCall
    reads gs
  {
    SortCall(cmd, SorterArgs(gs, Mul(camera.worldToCameraMatrix, gs.localToWorld)))
  }

  /** The calls `OnPreCullCamera` makes for the drawables of `list`, in list order. */
  function CallsFor(cmd: CommandBuffer, list: seq<GsplatRenderer>, camera: Camera): (calls: seq<SortCall>)
    reads list
    ensures |calls| == |list|
  {
    if list == [] then []
    else CallsFor(cmd, list[..|list| - 1], camera) + [CallFor(cmd, list[|list| - 1], camera)]
  }

  /** Call `k` is the one for drawable `k`: one call per drawable, in list order. */
  lemma {:induction false} CallsForAt(cmd: CommandBuffer, list: seq<GsplatRenderer>, camera: Camera, k: nat)
    requires k < |list|
    ensures CallsFor(cmd, list, camera)[k] == CallFor(cmd, list[k], camera)
    decreases |list|
  {
    if k < |list| - 1 {
      var front := list[..|list| - 1];
      CallsForAt(cmd, front, camera, k);
      assert front[k] == list[k];
    }
  }

  class GsplatRenderSystem {
    var commandBuffer: CommandBuffer?
    var gsplats: set<GsplatRenderer>
    var camerasDone: set<Camera>
    var activeGsplats: seq<GsplatRenderer>
    var sorter: GpuSorting?
    /** How many times `OnPreCullCamera` is subscribed to `Camera.onPreCull`. */
    var subscriptions: nat

    constructor ()
      ensures commandBuffer == null && gsplats == {} && camerasDone == {} && activeGsplats == []
      ensures sorter == null && subscriptions == 0
    {
      commandBuffer := null;
      gsplats := {};
      camerasDone := {};
      activeGsplats := [];
      sorter := null;
      subscriptions := 0;
    }

    /** A sorter exists and is valid. */
    predicate Valid()
      reads this`sorter
    {
      sorter != null && sorter.valid
    }

    /**
      The cameras the command buffer is attached to are exactly the cameras marked done, each
      once, and there is a live command buffer whenever a camera is marked done.
    */
    predicate Attached()
      reads this`commandBuffer, this`camerasDone, commandBuffer
    {
      && (commandBuffer == null ==> camerasDone == {})
      && (commandBuffer != null ==> !commandBuffer.released && commandBuffer.attachedTo == multiset(camerasDone))
    }

    /** Without a scriptable render pipeline, the handler is subscribed exactly while a drawable is registered. */
    predicate Hooked()
      reads this
    {
      subscriptions == if gsplats == {} then 0 else 1
    }

    /** The drawables `GatherSplatsForCamera` selects: not destroyed, active and enabled, and valid. */
    function Eligible(): set<GsplatRenderer>
      reads this`gsplats, gsplats
    {
      set gs | gs in gsplats && !gs.destroyed && gs.activeAndEnabled && gs.Valid()
    }

    /** A sorter for `computeShader`, or none when there is no shader; `valid` is what the sorter reports. */
    method InitSorter(computeShader: ComputeShader?, valid: bool)
      modifies this`sorter
      ensures computeShader == null ==> sorter == null && !Valid()
      ensures computeShader != null ==> sorter != null && fresh(sorter) && sorter.cs == computeShader
      ensures computeShader != null ==> (Valid() <==> valid)
    {
      if computeShader != null {
        sorter := new GpuSorting(computeShader, valid);
      } else {
        sorter := null;
      }
    }

    /** Adds `gs` with set semantics, subscribing when the registry was empty and there is no scriptable pipeline. */
    method RegisterGsplat(gs: GsplatRenderer, srp: bool)
      modifies this`gsplats, this`subscriptions
      ensures gsplats == old(gsplats) + {gs}
      ensures subscriptions == old(subscriptions) + (if old(gsplats) == {} && !srp then 1 else 0)
      ensures gs in old(gsplats) ==> gsplats == old(gsplats) && subscriptions == old(subscriptions)
      ensures !srp && old(Hooked()) ==> Hooked()
    {
      if gsplats == {} {
        if !srp {
          subscriptions := subscriptions + 1;
        }
      }
      gsplats := gsplats + {gs};
    }

    /**
      Removes `gs`; a non-member changes nothing. Removing the last member detaches the command
      buffer from every camera marked done that still exists, forgets the cameras and the active
      list, releases the command buffer and unsubscribes.
    */
    method UnregisterGsplat(gs: GsplatRenderer)
      modifies this`gsplats, this`camerasDone, this`activeGsplats, this`commandBuffer, this`subscriptions
      modifies commandBuffer
      ensures gs !in old(gsplats) ==> unchanged(this) && (old(commandBuffer) != null ==> unchanged(old(commandBuffer)))
      ensures gsplats == old(gsplats) - {gs}
      ensures gsplats != {} ==> unchanged(this`camerasDone, this`activeGsplats, this`commandBuffer, this`subscriptions)
                                && (old(commandBuffer) != null ==> unchanged(old(commandBuffer)))
      ensures gs in old(gsplats) && gsplats == {} ==>
        && camerasDone == {} && activeGsplats == [] && commandBuffer == null
        && subscriptions == (if old(subscriptions) > 0 then old(subscriptions) - 1 else 0)
        && (old(commandBuffer) != null ==>
              && old(commandBuffer).released
              && forall c: Camera :: old(commandBuffer).attachedTo[c] ==
                   if c in old(camerasDone) && !c.destroyed then 0 else old(commandBuffer.attachedTo)[c])
      ensures old(Attached()) ==> Attached()
      ensures old(Hooked()) ==> Hooked()
    {
      if gs !in gsplats {
        return;
      }
      gsplats := gsplats - {gs};
      if gsplats == {} {
        if commandBuffer != null {
          DetachAll(commandBuffer, camerasDone);
        }
        camerasDone := {};
        activeGsplats := [];
        if commandBuffer != null {
          commandBuffer.Release();
        }
        commandBuffer := null;
        if subscriptions > 0 {
          subscriptions := subscriptions - 1;
        }
      }
    }

    /**
      For a preview camera: false, with the active list left alone. Otherwise the active list
      becomes the eligible drawables, each once, and the result says whether there is any.
    */
    method GatherSplatsForCamera(cam: Camera) returns (found: bool)
      modifies this`activeGsplats
      ensures cam.cameraType == Preview ==> !found && activeGsplats == old(activeGsplats)
      ensures cam.cameraType != Preview ==>
        && (forall gs :: gs in activeGsplats <==> gs in Eligible())
        && (forall i, j :: 0 <= i < j < |activeGsplats| ==> activeGsplats[i] != activeGsplats[j])
        && (found <==> Eligible() != {})
    {
      if cam.cameraType == Preview {
        return false;
      }
      activeGsplats := [];
      var todo := gsplats;
      while todo != {}
        invariant todo <= gsplats
        invariant forall gs :: gs in activeGsplats <==> gs in Eligible() && gs !in todo
        invariant forall i, j :: 0 <= i < j < |activeGsplats| ==> activeGsplats[i] != activeGsplats[j]
        decreases todo
      {
        var gs :| gs in todo;
        if !gs.destroyed && gs.activeAndEnabled && gs.Valid() {
          activeGsplats := activeGsplats + [gs];
        }
        todo := todo - {gs};
      }
      if activeGsplats == [] {
        assert forall gs :: gs !in Eligible();
        return false;
      }
      assert activeGsplats[0] in Eligible();
      return true;
    }

    /**
      Makes sure a command buffer exists, attaches it to `cam` when there is no scriptable render
      pipeline, the camera still exists and is not marked done yet, and clears it.
    */
    method InitialClearCmdBuffer(cam: Camera, srp: bool)
      modifies this`commandBuffer, this`camerasDone, commandBuffer
      ensures commandBuffer != null && commandBuffer.commands == []
      ensures old(commandBuffer) != null ==> commandBuffer == old(commandBuffer)
      ensures old(commandBuffer) == null ==> fresh(commandBuffer)
      ensures camerasDone == old(camerasDone) + (if !srp && !cam.destroyed then {cam} else {})
      ensures old(Attached()) ==> Attached()
    {
      if commandBuffer == null {
        commandBuffer := new CommandBuffer();
      }
      if !srp && !cam.destroyed && cam !in camerasDone {
        cam.AddCommandBuffer(commandBuffer);
        camerasDone := camerasDone + {cam};
      }
      commandBuffer.Clear();
    }

    /**
      Does nothing unless the system and the settings are valid and the camera has something to
      draw; then clears the command buffer and asks the sorter for one dispatch per active drawable,
      in list order.
    */
    method OnPreCullCamera(camera: Camera, settingsValid: bool, srp: bool)
      modifies this`activeGsplats, this`commandBuffer, this`camerasDone, commandBuffer, sorter
      ensures !Valid() || !settingsValid || camera.cameraType == Preview ==>
        unchanged(this) && (old(commandBuffer) != null ==> unchanged(old(commandBuffer)))
        && (sorter != null ==> unchanged(sorter))
      ensures Valid() && settingsValid && camera.cameraType != Preview ==>
        forall gs :: gs in activeGsplats <==> gs in old(Eligible())
      ensures Valid() && settingsValid && camera.cameraType != Preview && old(Eligible()) != {} ==>
        && commandBuffer != null && commandBuffer.commands == []
        && camerasDone == old(camerasDone) + (if !srp && !camera.destroyed then {camera} else {})
        && sorter.calls == old(sorter.calls) + CallsFor(commandBuffer, activeGsplats, camera)
      ensures Valid() && settingsValid && camera.cameraType != Preview && old(Eligible()) == {} ==>
        unchanged(this`commandBuffer, this`camerasDone) && (old(commandBuffer) != null ==> unchanged(old(commandBuffer)))
        && unchanged(sorter)
      ensures old(Attached()) ==> Attached()
    {
      if !Valid() || !settingsValid {
        return;
      }
      GatherAndDispatch(camera, srp);
    }

    /** `OnPreCullCamera` past its validity checks: gather the drawables, then sort any there are. */
    method GatherAndDispatch(camera: Camera, srp: bool)
      requires sorter != null
      modifies this`activeGsplats, this`commandBuffer, this`camerasDone, commandBuffer, sorter
      ensures camera.cameraType == Preview ==>
        unchanged(this) && (old(commandBuffer) != null ==> unchanged(old(commandBuffer))) && unchanged(sorter)
      ensures camera.cameraType != Preview ==> forall gs :: gs in activeGsplats <==> gs in old(Eligible())
      ensures camera.cameraType != Preview && old(Eligible()) != {} ==>
        && commandBuffer != null && commandBuffer.commands == []
        && camerasDone == old(camerasDone) + (if !srp && !camera.destroyed then {camera} else {})
        && sorter.calls == old(sorter.calls) + CallsFor(commandBuffer, activeGsplats, camera)
      ensures camera.cameraType != Preview && old(Eligible()) == {} ==>
        unchanged(this`commandBuffer, this`camerasDone) && (old(commandBuffer) != null ==> unchanged(old(commandBuffer)))
        && unchanged(sorter)
      ensures old(Attached()) ==> Attached()
    {
      ghost var eligible := Eligible();
      ghost var attached := Attached();
      var found := GatherSplatsForCamera(camera);
      assert Eligible() == eligible && Attached() == attached;
      if !found {
        return;
      }
      ghost var active := activeGsplats;
      ClearAndDispatch(camera, srp);
      assert activeGsplats == active;
    }

    /** `InitialClearCmdBuffer`, then one sorter `Dispatch` per active drawable. */
    method ClearAndDispatch(camera: Camera, srp: bool)
      requires sorter != null
      modifies this`commandBuffer, this`camerasDone, commandBuffer, sorter
      ensures commandBuffer != null && commandBuffer.commands == []
      ensures camerasDone == old(camerasDone) + (if !srp && !camera.destroyed then {camera} else {})
      ensures sorter.calls == old(sorter.calls) + CallsFor(commandBuffer, activeGsplats, camera)
      ensures old(Attached()) ==> Attached()
    {
      InitialClearCmdBuffer(camera, srp);
      ghost var cb: CommandBuffer := commandBuffer;
      ghost var attached := Attached();
      label dispatch:
      DispatchAll(camera);
      assert unchanged@dispatch(this, cb);
      assert Attached() == attached;
    }

    /** One sorter `Dispatch` per active drawable, in list order. */
    method DispatchAll(camera: Camera)
      requires sorter != null && commandBuffer != null
      modifies sorter`calls
      ensures sorter.calls == old(sorter.calls) + CallsFor(commandBuffer, activeGsplats, camera)
    {
      var target, cmd, list := sorter, commandBuffer, activeGsplats;
      ghost var before := target.calls;
      for i := 0 to |list|
        invariant target.calls == before + CallsFor(cmd, list[..i], camera)
      {
        DispatchNext(target, cmd, list, camera, i, before);
      }
      assert list[..|list|] == list;
    }
  }

  /** The sorter `Dispatch` for drawable `i` of `list`, after those for the drawables before it. */
  method DispatchNext(target: GpuSorting, cmd: CommandBuffer, list: seq<GsplatRenderer>, camera: Camera,
                      i: nat, ghost before: seq<SortCall>)
    requires i < |list| && target.calls == before + CallsFor(cmd, list[..i], camera)
    modifies target`calls
    ensures target.calls == before + CallsFor(cmd, list[..i + 1], camera)
  {
    var gs := list[i];
    assert list[..i + 1][..i] == list[..i];
    target.Dispatch(cmd, SorterArgs(gs, Mul(camera.worldToCameraMatrix, gs.localToWorld)));
  }
}

/** The animation driver of engine/raymarcher.js over the WebGPU renderer
    of view/gpu_manager.js: `update` moves the camera while the GUI has
    focus and copies the camera's field of view, rotation matrix and
    position into the uniforms; `render` uploads, draws and counts the
    frame. */
module RayMarcher {
  import opened Wrappers
  import opened Values
  import opened Uniforms
  import opened Frames
  import Gm = GpuManager
  import Matrix
  import opened Vector
  import opened CameraControl
  import opened Lifecycle

  /** The writes of `update`, in its order. */
  function Posing(rotation: Value, position: Triple, fov: real): seq<(string, Value)>
  {
    [("fov", Scalar(fov)), ("camera_rotation", rotation), ("camera_position", Value.Vec(position))]
  }

  /** `update`'s effect on the record. */
  function Posed(u: Record, rotation: Value, position: Triple, fov: real): Record
  {
    SetAll(u, Posing(rotation, position, fov))
  }

  /** After `update` the three camera fields hold the camera and every
      other field is as it was. */
  lemma PosedGet(u: Record, rotation: Value, position: Triple, fov: real, k: string)
    ensures Get(Posed(u, rotation, position, fov), k) ==
      if k == "fov" then Some(Scalar(fov))
      else if k == "camera_rotation" then Some(rotation)
      else if k == "camera_position" then Some(Value.Vec(position))
      else Get(u, k)
  {
    var ws := Posing(rotation, position, fov);
    GetSetAll(u, ws, k);
    var w1, w2 := ws[..1], ws[..2];
    assert w2[..1] == w1 && w1[..0] == [];
    assert LastWrite(w1, k) == if k == "fov" then Some(Scalar(fov)) else None;
    assert LastWrite(w2, k) == if k == "camera_rotation" then Some(rotation) else LastWrite(w1, k);
    assert LastWrite(ws, k) == if k == "camera_position" then Some(Value.Vec(position)) else LastWrite(w2, k);
  }

  /** `update` leaves the counter alone: between refreshes only `render`
      moves it. */
  lemma PosedCounts(u: Record, rotation: Value, position: Triple, fov: real)
    requires Counts(u)
    ensures Counts(Posed(u, rotation, position, fov))
    ensures ScalarOf(Posed(u, rotation, position, fov), Counter) == ScalarOf(u, Counter)
  {
    PosedGet(u, rotation, position, fov, Counter);
  }

  /** A record that fits its buffer has a number counter. */
  lemma FitsCounts(u: Record, n: nat)
    requires Gm.Fits(u, n)
    ensures Counts(u)
  {
    assert Gm.ShapeOf(Counter).Some?;
  }

  /** Writes of values of the listed shapes keep the record fitting its
      buffer. */
  lemma {:induction false} SetAllFits(u: Record, n: nat, ws: seq<(string, Value)>)
    requires Gm.Fits(u, n)
    requires forall i :: 0 <= i < |ws| ==> Gm.ShapeOf(ws[i].0).Some? && Matches(ws[i].1, Gm.ShapeOf(ws[i].0).value)
    ensures Gm.Fits(SetAll(u, ws), n)
  {
    if ws != [] {
      var last := ws[|ws| - 1];
      SetAllFits(u, n, ws[..|ws| - 1]);
      Gm.SetKeeps(SetAll(u, ws[..|ws| - 1]), SetAll(u, ws), n, last.0, last.1);
    }
  }

  /** `update` keeps the record fitting its buffer, provided the rotation
      it copies is a 4×4 matrix. */
  lemma PosedFits(u: Record, n: nat, rotation: Value, position: Triple, fov: real)
    requires Gm.Fits(u, n) && Matrix.Test(rotation)
    ensures Gm.Fits(Posed(u, rotation, position, fov), n)
  {
    SetAllFits(u, n, Posing(rotation, position, fov));
  }

  /** `render` keeps the record fitting its buffer. */
  lemma RenderedFits(u: Record, n: nat)
    requires Gm.Fits(u, n)
    ensures Counts(u) && Gm.Fits(Rendered(u), n)
  {
    FitsCounts(u, n);
    Gm.SetKeeps(u, Rendered(u), n, Counter, Scalar(ScalarOf(u, Counter) + 1.0));
  }

  class RayMarcher {
    /** The renderer; `destroy` forgets it. */
    var gpuManager: Gm.GPUManager?
    const camera: Camera
    var frame: nat
    var running: bool

    ghost predicate Valid()
      reads this`gpuManager, gpuManager, camera`sensitivity
    {
      && camera.Valid()
      && (gpuManager != null ==> gpuManager.Valid() && Counts(gpuManager.uniforms))
    }

    /** `new RayMarcher(gpu_manager)` with a canvas whose bounding
        rectangle is `rectWidth`×`rectHeight`. The `destroy` call the constructor
        makes while registering the unload handler runs before the renderer
        is assigned, so it destroys nothing; the resolution is then synced
        once. */
    constructor (gpu: Gm.GPUManager, rectWidth: real, rectHeight: real)
      requires gpu.Valid()
      modifies gpu`uniforms, gpu`canvasSize
      ensures Valid() && gpuManager == gpu && fresh(camera)
      ensures frame == 0 && running
      ensures gpu.uniforms == Gm.Synced(old(gpu.uniforms), rectWidth, rectHeight)
      ensures gpu.canvasSize == RectPixels(rectWidth, rectHeight)
      ensures unchanged(gpu`released, gpu`device, gpu`colorBuffer, gpu`uniformBuffer)
    {
      frame := 0;
      running := true;
      gpuManager := null;
      camera := new Camera.Default();
      new;
      Destroy();
      gpuManager := gpu;
      gpu.SyncResolution(rectWidth, rectHeight);
      FitsCounts(gpu.uniforms, |gpu.uniformData|);
    }

    /** `update()`: `focused` is the GUI's focus, `moved` and `placed`
        where the camera's key movement or orbit takes it, and `rotation`
        the camera's rotation matrix. */
    method Update(focused: bool, moved: Triple, placed: Triple, rotation: Value)
      requires Valid() && gpuManager != null && Matrix.Test(rotation)
      modifies camera`rotation, camera`position, gpuManager`uniforms
      ensures Valid()
      ensures !focused ==> camera.rotation == old(camera.rotation) && camera.position == old(camera.position)
      ensures focused && (!camera.enabled || LocalDirection(camera.keyStates) == [0.0, 0.0, 0.0]) ==>
        camera.rotation == old(camera.rotation) && camera.position == old(camera.position)
      ensures focused && camera.enabled && LocalDirection(camera.keyStates) != [0.0, 0.0, 0.0] && !camera.orbitMode ==>
        camera.rotation == old(camera.rotation) && camera.position == moved
      ensures focused && camera.enabled && LocalDirection(camera.keyStates) != [0.0, 0.0, 0.0] && camera.orbitMode ==>
        camera.rotation == Rotated(old(camera.rotation), Drag(-LocalDirection(camera.keyStates)[0], camera.speed, camera.sensitivity),
                                   Drag(LocalDirection(camera.keyStates)[2], camera.speed, camera.sensitivity),
                                   camera.sensitivity, camera.fov) &&
        camera.position == placed
      ensures gpuManager.uniforms == Posed(old(gpuManager.uniforms), rotation, camera.position, camera.fov)
    {
      if focused {
        camera.Update(moved, placed);
      }
      ghost var n := |gpuManager.uniformData|;
      var u := Posed(gpuManager.uniforms, rotation, camera.position, camera.fov);
      PosedFits(gpuManager.uniforms, n, rotation, camera.position, camera.fov);
      FitsCounts(u, n);
      gpuManager.uniforms := u;
    }

    /** `render()`: the upload comes before the draw, and then the frame and
        the counter each grow by one; an upload that throws ends the call
        before either is counted. */
    method Render() returns (outcome: Gm.WriteOutcome)
      requires Valid() && gpuManager != null
      modifies gpuManager`uniformData, gpuManager`uniforms, this`frame
      ensures Valid()
      ensures outcome == Gm.Thrown <==> gpuManager.device.None? || gpuManager.uniformBuffer.None?
      ensures outcome == Gm.Written ==> gpuManager.uniformData == Pack(old(gpuManager.uniforms))
      ensures outcome == Gm.Thrown ==>
        frame == old(frame) && gpuManager.uniforms == old(gpuManager.uniforms) && gpuManager.uniformData == old(gpuManager.uniformData)
      ensures outcome == Gm.Written ==>
        frame == old(frame) + 1 && gpuManager.uniforms == Rendered(old(gpuManager.uniforms))
    {
      outcome := gpuManager.WriteUniforms();
      if outcome == Gm.Thrown {
        return;
      }
      Advance();
    }

    /** The part of `render` after the upload: the frame and the counter
        each grow by one. */
    method Advance()
      requires Valid() && gpuManager != null
      modifies gpuManager`uniforms, this`frame
      ensures Valid()
      ensures frame == old(frame) + 1 && gpuManager.uniforms == Rendered(old(gpuManager.uniforms))
    {
      frame := frame + 1;
      ghost var n := |gpuManager.uniformData|;
      RenderedFits(gpuManager.uniforms, n);
      FitsCounts(Rendered(gpuManager.uniforms), n);
      gpuManager.uniforms := Rendered(gpuManager.uniforms);
    }

    /** `destroy()`: the renderer is destroyed and forgotten; a second
        call finds nothing to destroy. */
    method Destroy()
      modifies this`gpuManager, gpuManager
      ensures gpuManager == null
      ensures old(gpuManager) != null ==>
        old(gpuManager).colorBuffer.None? && old(gpuManager).uniformBuffer.None? && old(gpuManager).device.None?
    {
      if gpuManager != null {
        gpuManager.Destroy();
        gpuManager := null;
      }
    }
  }
}

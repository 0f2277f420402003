/** The animation driver of raymarcher/engine.js over the WebGPU renderer
    of raymarcher/view/gpu.js: per frame it moves the camera while the GUI
    has focus, restarts the accumulation when a key is held under auto
    refresh, copies the sun and camera into the uniforms, uploads them,
    draws and counts the frame. It also saves the camera and the four custom
    SDF parameters to local storage under "renderer-raymarcher" and loads
    them back at start. */
module RaymarcherEngine {
  import opened Wrappers
  import opened Values
  import opened Uniforms
  import opened Frames
  import Gpu = RaymarcherGpu
  import Matrix
  import opened Vector
  import opened CameraControl

  const StorageName: string := "renderer-raymarcher"

  /** The fields of `uniforms` that are saved. */
  predicate NumberAt(u: Record, k: string)
  {
    Get(u, k).Some? && Get(u, k).value.Scalar?
  }

  predicate HasCustoms(u: Record)
  {
    NumberAt(u, "custom_a") && NumberAt(u, "custom_b") && NumberAt(u, "custom_c") && NumberAt(u, "custom_d")
  }

  /** The stored entry `save` writes: eight fields. */
  datatype Saved = Saved(
    cameraPosition: Triple, cameraFov: real, cameraSpeed: real, cameraRotation: (real, real),
    customA: real, customB: real, customC: real, customD: real)

  /** What `save` reads and `load` writes: the camera's position,
      rotation, field of view and speed, and the uniform record. */
  datatype Snapshot = Snapshot(position: Triple, rotation: (real, real), fov: real, speed: real, uniforms: Record)

  /** `save()`'s entry. */
  function SaveOf(s: Snapshot): Saved
    requires HasCustoms(s.uniforms)
  {
    Saved(s.position, s.fov, s.speed, s.rotation,
          ScalarOf(s.uniforms, "custom_a"), ScalarOf(s.uniforms, "custom_b"),
          ScalarOf(s.uniforms, "custom_c"), ScalarOf(s.uniforms, "custom_d"))
  }

  /** The writes `load` makes to `uniforms`, in its order. */
  function CustomWrites(d: Saved): seq<(string, Value)>
  {
    [("custom_a", Scalar(d.customA)), ("custom_b", Scalar(d.customB)),
     ("custom_c", Scalar(d.customC)), ("custom_d", Scalar(d.customD))]
  }

  /** After `load` the custom fields hold the stored values and every other
      field is as it was. */
  lemma CustomGet(u: Record, d: Saved, k: string)
    ensures Get(SetAll(u, CustomWrites(d)), k) ==
      if k == "custom_a" then Some(Scalar(d.customA))
      else if k == "custom_b" then Some(Scalar(d.customB))
      else if k == "custom_c" then Some(Scalar(d.customC))
      else if k == "custom_d" then Some(Scalar(d.customD))
      else Get(u, k)
  {
    var ws := CustomWrites(d);
    GetSetAll(u, ws, k);
    var w1, w2, w3 := ws[..1], ws[..2], ws[..3];
    assert w3[..2] == w2 && w2[..1] == w1 && w1[..0] == [];
    assert LastWrite(w1, k) == if k == "custom_a" then Some(Scalar(d.customA)) else None;
    assert LastWrite(w2, k) == if k == "custom_b" then Some(Scalar(d.customB)) else LastWrite(w1, k);
    assert LastWrite(w3, k) == if k == "custom_c" then Some(Scalar(d.customC)) else LastWrite(w2, k);
    assert LastWrite(ws, k) == if k == "custom_d" then Some(Scalar(d.customD)) else LastWrite(w3, k);
  }

  /** `load()`: with no stored entry nothing changes; otherwise the camera
      takes the stored pose and the custom fields the stored values, and
      saving again gives back exactly the stored entry. */
  function LoadOf(s: Snapshot, stored: Option<Saved>): (r: Snapshot)
    ensures stored.None? ==> r == s
    ensures stored.Some? ==> HasCustoms(r.uniforms) && SaveOf(r) == stored.value
    ensures forall k :: k != "custom_a" && k != "custom_b" && k != "custom_c" && k != "custom_d" ==>
      Get(r.uniforms, k) == Get(s.uniforms, k)
  {
    match stored
    case None => s
    case Some(d) =>
      var u := SetAll(s.uniforms, CustomWrites(d));
      CustomGet(s.uniforms, d, "custom_a");
      CustomGet(s.uniforms, d, "custom_b");
      CustomGet(s.uniforms, d, "custom_c");
      CustomGet(s.uniforms, d, "custom_d");
      forall k | k != "custom_a" && k != "custom_b" && k != "custom_c" && k != "custom_d"
        ensures Get(u, k) == Get(s.uniforms, k)
      {
        CustomGet(s.uniforms, d, k);
      }
      Snapshot(d.cameraPosition, d.cameraRotation, d.cameraFov, d.cameraSpeed, u)
  }

  /** Loading what was just saved changes nothing. */
  lemma LoadAfterSave(s: Snapshot)
    requires HasCustoms(s.uniforms)
    ensures LoadOf(s, Some(SaveOf(s))) == s
  {
    var d := SaveOf(s);
    var ws := CustomWrites(d);
    forall i | 0 <= i < |ws| ensures Get(s.uniforms, ws[i].0) == Some(ws[i].1) {
    }
    SetAllUnchanged(s.uniforms, ws);
  }

  /** The entry local storage holds under the engine's name. */
  function Stored(storage: map<string, Saved>): Option<Saved>
  {
    if StorageName in storage then Some(storage[StorageName]) else None
  }

  /** A record that fits its buffer has a number counter and number custom
      fields. */
  lemma FitsNumbers(u: Record, n: nat)
    requires Gpu.Fits(u, n)
    ensures Counts(u) && HasCustoms(u)
  {
    assert Gpu.ShapeOf(Counter).Some?;
    assert Gpu.ShapeOf("custom_a").Some? && Gpu.ShapeOf("custom_b").Some?;
    assert Gpu.ShapeOf("custom_c").Some? && Gpu.ShapeOf("custom_d").Some?;
  }

  /** Writes of values of the listed shapes keep the record fitting its
      buffer. */
  lemma {:induction false} SetAllFits(u: Record, n: nat, ws: seq<(string, Value)>)
    requires Gpu.Fits(u, n)
    requires forall i :: 0 <= i < |ws| ==> Gpu.ShapeOf(ws[i].0).Some? && Matches(ws[i].1, Gpu.ShapeOf(ws[i].0).value)
    ensures Gpu.Fits(SetAll(u, ws), n)
  {
    if ws != [] {
      var last := ws[|ws| - 1];
      SetAllFits(u, n, ws[..|ws| - 1]);
      Gpu.SetKeeps(SetAll(u, ws[..|ws| - 1]), SetAll(u, ws), n, last.0, last.1);
    }
  }

  /** `update` keeps the record fitting its buffer, provided the rotation
      it copies is a 4×4 matrix. */
  lemma UpdatedFits(u: Record, n: nat, refresh: bool, v: View)
    requires Gpu.Fits(u, n) && Matrix.Test(v.rotation)
    ensures Gpu.Fits(Updated(u, refresh, v), n)
  {
    var u1 := if refresh then Refreshed(u) else u;
    if refresh {
      Gpu.SetKeeps(u, u1, n, Counter, Scalar(1.0));
    }
    SetAllFits(u1, n, Copies(v));
  }

  /** `render` keeps the record fitting its buffer. */
  lemma RenderedFits(u: Record, n: nat)
    requires Gpu.Fits(u, n)
    ensures Counts(u) && Gpu.Fits(Rendered(u), n)
  {
    FitsNumbers(u, n);
    Gpu.SetKeeps(u, Rendered(u), n, Counter, Scalar(ScalarOf(u, Counter) + 1.0));
  }

  /** `load` keeps the record fitting its buffer. */
  lemma LoadFits(s: Snapshot, n: nat, stored: Option<Saved>)
    requires Gpu.Fits(s.uniforms, n)
    ensures Gpu.Fits(LoadOf(s, stored).uniforms, n)
  {
    if stored.Some? {
      SetAllFits(s.uniforms, n, CustomWrites(stored.value));
    }
  }

  class Engine {
    /** The renderer; `destroy` forgets it. */
    var gpu: Gpu.GPUManager?
    const camera: Camera
    var frame: nat
    /** The browser's local storage, by entry name. */
    var storage: map<string, Saved>

    ghost predicate Valid()
      reads this`gpu, gpu, camera`sensitivity
    {
      && camera.Valid()
      && (gpu != null ==> gpu.Valid() && Counts(gpu.uniforms) && HasCustoms(gpu.uniforms))
    }

    /** What `save` reads and `load` writes. */
    function Snap(): Snapshot
      reads this`gpu, gpu, camera
      requires gpu != null
    {
      Snapshot(camera.position, camera.rotation, camera.fov, camera.speed, gpu.uniforms)
    }

    /** `new Engine(gpu)`: a default camera, frame 0, and whatever local
        storage holds loaded. */
    constructor (gpu: Gpu.GPUManager, storage: map<string, Saved>)
      requires gpu.Valid()
      modifies gpu`uniforms
      ensures Valid() && this.gpu == gpu && fresh(camera)
      ensures frame == 0 && this.storage == storage
      ensures Snap() == LoadOf(Snapshot([0.0, 0.0, 0.0], (0.0, 0.0), 0.5, 0.05, old(gpu.uniforms)), Stored(storage))
    {
      FitsNumbers(gpu.uniforms, |gpu.uniformData|);
      this.gpu := gpu;
      camera := new Camera.Default();
      frame := 0;
      this.storage := storage;
      new;
      Load();
    }

    /** `load()`. */
    method Load()
      requires Valid() && gpu != null
      modifies camera`position, camera`rotation, camera`fov, camera`speed, gpu`uniforms
      ensures Valid()
      ensures Snap() == LoadOf(old(Snap()), Stored(storage))
    {
      ghost var n := |gpu.uniformData|;
      var r := LoadOf(Snap(), Stored(storage));
      LoadFits(Snap(), n, Stored(storage));
      FitsNumbers(r.uniforms, n);
      gpu.uniforms := r.uniforms;
      assert gpu.Valid();
      Pose(r);
    }

    /** The camera part of `load`. */
    method Pose(r: Snapshot)
      modifies camera`position, camera`rotation, camera`fov, camera`speed
      ensures camera.position == r.position && camera.rotation == r.rotation
      ensures camera.fov == r.fov && camera.speed == r.speed
    {
      camera.position := r.position;
      camera.rotation := r.rotation;
      camera.fov := r.fov;
      camera.speed := r.speed;
    }

    /** `save()`. */
    method Save()
      requires Valid() && gpu != null
      modifies this`storage
      ensures storage == old(storage)[StorageName := SaveOf(Snap())]
    {
      storage := storage[StorageName := SaveOf(Snap())];
    }

    /** `update()`: `focused` is the GUI's focus, `local`, `moved` and
        `placed` what `updatePosition` is handed and where it takes the
        camera, `keyPressed` and `autoRefresh` the input's and the GUI's
        answers, `sun` the direction of the sun rotation and `rotation` the
        camera's rotation matrix. */
    method Update(focused: bool, local: Triple, moved: Triple, placed: Triple,
                  keyPressed: bool, autoRefresh: bool, sun: Triple, rotation: Value)
      requires Valid() && gpu != null && Matrix.Test(rotation)
      modifies camera`rotation, camera`position, gpu`uniforms
      ensures Valid()
      ensures !focused ==> camera.rotation == old(camera.rotation) && camera.position == old(camera.position)
      ensures focused && local == [0.0, 0.0, 0.0] ==>
        camera.rotation == old(camera.rotation) && camera.position == old(camera.position)
      ensures focused && local != [0.0, 0.0, 0.0] && !camera.orbitMode ==>
        camera.rotation == old(camera.rotation) && camera.position == moved
      ensures focused && local != [0.0, 0.0, 0.0] && camera.orbitMode ==>
        camera.rotation == Rotated(old(camera.rotation), Drag(-local[0], camera.speed, camera.sensitivity),
                                   Drag(local[2], camera.speed, camera.sensitivity), camera.sensitivity, camera.fov) &&
        camera.position == placed
      ensures gpu.uniforms ==
        Updated(old(gpu.uniforms), keyPressed && autoRefresh, View(sun, rotation, camera.position, camera.fov))
    {
      if focused {
        camera.UpdatePosition(local, moved, placed);
      }
      Copy(keyPressed && autoRefresh, View(sun, rotation, camera.position, camera.fov));
    }

    /** The uniform part of `update`: the refresh, then the copies. */
    method Copy(refresh: bool, view: View)
      requires Valid() && gpu != null && Matrix.Test(view.rotation)
      modifies gpu`uniforms
      ensures Valid()
      ensures gpu.uniforms == Updated(old(gpu.uniforms), refresh, view)
    {
      if refresh {
        gpu.RefreshScreen();
      }
      UpdatedFits(gpu.uniforms, |gpu.uniformData|, false, view);
      FitsNumbers(Updated(gpu.uniforms, false, view), |gpu.uniformData|);
      gpu.uniforms := Updated(gpu.uniforms, false, view);
    }

    /** `render()`: the upload comes before the draw, and then the frame and
        the counter each grow by one; an upload that throws ends the call
        before either is counted. */
    method Render() returns (outcome: Gpu.WriteOutcome)
      requires Valid() && gpu != null
      modifies gpu`uniformData, gpu`uniforms, this`frame
      ensures Valid()
      ensures outcome == Gpu.Thrown <==> gpu.device.None? || gpu.uniformBuffer.None?
      ensures outcome == Gpu.Written ==> gpu.uniformData == Pack(old(gpu.uniforms))
      ensures outcome == Gpu.Thrown ==>
        frame == old(frame) && gpu.uniforms == old(gpu.uniforms) && gpu.uniformData == old(gpu.uniformData)
      ensures outcome == Gpu.Written ==>
        frame == old(frame) + 1 && gpu.uniforms == Rendered(old(gpu.uniforms))
    {
      outcome := gpu.WriteUniforms();
      if outcome == Gpu.Thrown {
        return;
      }
      Advance();
    }

    /** The part of `render` after the upload: the frame and the counter
        each grow by one. */
    method Advance()
      requires Valid() && gpu != null
      modifies gpu`uniforms, this`frame
      ensures Valid()
      ensures frame == old(frame) + 1 && gpu.uniforms == Rendered(old(gpu.uniforms))
    {
      frame := frame + 1;
      ghost var n := |gpu.uniformData|;
      RenderedFits(gpu.uniforms, n);
      FitsNumbers(Rendered(gpu.uniforms), n);
      gpu.uniforms := Rendered(gpu.uniforms);
      assert gpu.Valid();
    }

    /** `destroy()`: the renderer is destroyed and forgotten; a second
        call finds nothing to destroy. */
    method Destroy()
      modifies this`gpu, gpu
      ensures gpu == null
      ensures old(gpu) != null ==>
        old(gpu).colorBuffer.None? && old(gpu).uniformBuffer.None? && old(gpu).device.None?
    {
      if gpu != null {
        gpu.Destroy();
        gpu := null;
      }
    }
  }
}

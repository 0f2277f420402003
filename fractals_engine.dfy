/** The animation driver of fractals/engine.js over the WebGL renderer.
    Each frame `update` moves the camera, counts the frame, restarts the
    accumulation when a key is held under auto refresh, and copies the sun
    and camera into the uniforms; `render` draws and then adds one to
    `temporal_counter`. */
module FractalsEngine {
  import opened Values
  import opened Uniforms
  import opened Frames
  import Gl = WebGlManager
  import Matrix
  import opened Vector
  import opened CameraControl
  import opened Fps

  /** A record that fits its buffer has a number `temporal_counter`. */
  lemma FitsCounts(u: Record, n: nat)
    requires Gl.Fits(u, n)
    ensures Counts(u)
  {
    assert Gl.ShapeOf(Counter).Some?;
  }

  /** Writes of values of the listed shapes keep the record fitting its
      buffer. */
  lemma {:induction false} SetAllFits(u: Record, n: nat, ws: seq<(string, Value)>)
    requires Gl.Fits(u, n)
    requires forall i :: 0 <= i < |ws| ==> Gl.ShapeOf(ws[i].0).Some? && Matches(ws[i].1, Gl.ShapeOf(ws[i].0).value)
    ensures Gl.Fits(SetAll(u, ws), n)
  {
    if ws != [] {
      var last := ws[|ws| - 1];
      SetAllFits(u, n, ws[..|ws| - 1]);
      Gl.SetKeeps(SetAll(u, ws[..|ws| - 1]), SetAll(u, ws), n, last.0, last.1);
    }
  }

  /** `update` keeps the record fitting its buffer, provided the rotation
      it copies is a 4×4 matrix. */
  lemma UpdatedFits(u: Record, n: nat, refresh: bool, v: View)
    requires Gl.Fits(u, n) && Matrix.Test(v.rotation)
    ensures Gl.Fits(Updated(u, refresh, v), n)
  {
    var u1 := if refresh then Refreshed(u) else u;
    if refresh {
      Gl.SetKeeps(u, u1, n, Counter, Scalar(1.0));
    }
    SetAllFits(u1, n, Copies(v));
  }

  /** `render` keeps the record fitting its buffer. */
  lemma RenderedFits(u: Record, n: nat)
    requires Gl.Fits(u, n)
    ensures Counts(u) && Gl.Fits(Rendered(u), n)
  {
    FitsCounts(u, n);
    Gl.SetKeeps(u, Rendered(u), n, Counter, Scalar(ScalarOf(u, Counter) + 1.0));
  }

  /** Any run of frames whose rotations are matrices keeps the record
      fitting its buffer, so the 44-float upload never changes size. */
  lemma {:induction false} RunFits(u: Record, n: nat, frames: seq<(bool, View)>)
    requires Gl.Fits(u, n)
    requires forall i :: 0 <= i < |frames| ==> Matrix.Test(frames[i].1.rotation)
    ensures Counts(u) && Gl.Fits(Run(u, frames), n)
  {
    FitsCounts(u, n);
    if frames != [] {
      var init := frames[..|frames| - 1];
      var last := frames[|frames| - 1];
      RunFits(u, n, init);
      UpdatedFits(Run(u, init), n, last.0, last.1);
      RenderedFits(Updated(Run(u, init), last.0, last.1), n);
    }
  }

  class Engine {
    const gpu: Gl.WebGLManager
    const camera: Camera
    const fps: FPSCounter

    ghost predicate Valid()
      reads gpu`uniforms, camera`sensitivity
    {
      gpu.Valid() && Counts(gpu.uniforms) && camera.Valid()
    }

    /** `new Engine(gpu)`: a camera at (4, 4, 4) turned to (−135°, 35°)
        and a frame-rate counter with the suffix " fps", started at clock
        reading `now`. */
    constructor (gpu: Gl.WebGLManager, hasFpsElement: bool, now: real)
      requires gpu.Valid()
      ensures Valid()
      ensures this.gpu == gpu && fresh(camera) && fresh(fps)
      ensures camera.position == [4.0, 4.0, 4.0] && camera.rotation == (-135.0, 35.0)
      ensures camera.fov == 0.5 && camera.speed == 0.05 && !camera.enabled
      ensures fps.State() == Tally(0.0, 0, now) && fps.prefix == "" && fps.suffix == " fps"
    {
      FitsCounts(gpu.uniforms, 44);
      this.gpu := gpu;
      camera := new Camera([4.0, 4.0, 4.0], (-135.0, 35.0), 0.5, 0.05, 0.2, false, false, [0.0, 0.0, 0.0]);
      fps := new FPSCounter(hasFpsElement, "", " fps", 0, now);
    }

    /** `update()` at clock reading `now`: `moved` and `placed` are where the
        camera's key movement or orbit takes it, `sun` is the direction of
        the sun rotation and `rotation` the camera's rotation matrix;
        `keyPressed` and `autoRefresh` are the GUI's answers. */
    method Update(now: real, keyPressed: bool, autoRefresh: bool, moved: Triple, placed: Triple,
                  sun: Triple, rotation: Value)
      requires Valid() && Matrix.Test(rotation)
      modifies camera`rotation, camera`position, fps`delta, fps`frames, fps`timePrevious, gpu`uniforms
      ensures Valid()
      ensures !camera.enabled || LocalDirection(camera.keyStates) == [0.0, 0.0, 0.0] ==>
        camera.rotation == old(camera.rotation) && camera.position == old(camera.position)
      ensures camera.enabled && LocalDirection(camera.keyStates) != [0.0, 0.0, 0.0] && !camera.orbitMode ==>
        camera.rotation == old(camera.rotation) && camera.position == moved
      ensures camera.enabled && LocalDirection(camera.keyStates) != [0.0, 0.0, 0.0] && camera.orbitMode ==>
        camera.rotation == Rotated(old(camera.rotation), Drag(-LocalDirection(camera.keyStates)[0], camera.speed, camera.sensitivity),
                                   Drag(LocalDirection(camera.keyStates)[2], camera.speed, camera.sensitivity),
                                   camera.sensitivity, camera.fov) &&
        camera.position == placed
      ensures fps.State() == Ticked(old(fps.State()), now)
      ensures gpu.uniforms ==
        Updated(old(gpu.uniforms), keyPressed && autoRefresh, View(sun, rotation, camera.position, camera.fov))
    {
      camera.Update(moved, placed);
      fps.Update(now);
      Copy(keyPressed && autoRefresh, View(sun, rotation, camera.position, camera.fov));
    }

    /** The uniform part of `update`: the refresh, then the copies. */
    method Copy(refresh: bool, view: View)
      requires Valid() && Matrix.Test(view.rotation)
      modifies gpu`uniforms
      ensures Valid()
      ensures gpu.uniforms == Updated(old(gpu.uniforms), refresh, view)
    {
      ghost var u0 := gpu.uniforms;
      if refresh {
        gpu.Refresh();
      }
      UpdatedFits(gpu.uniforms, 44, false, view);
      FitsCounts(Updated(gpu.uniforms, false, view), 44);
      gpu.uniforms := Updated(gpu.uniforms, false, view);
    }

    /** `render()`: the renderer uploads the packing, when it has a
        uniform buffer, and draws; then the counter grows by one. */
    method Render() returns (compute: (int, int), canvas: (int, int))
      requires Valid()
      modifies gpu`uniformData, gpu`uniforms
      ensures Valid()
      ensures gpu.uniformBuffer.Some? ==> gpu.uniformData == Pack(old(gpu.uniforms))
      ensures gpu.uniformBuffer.None? ==> gpu.uniformData == old(gpu.uniformData)
      ensures gpu.uniforms == Rendered(old(gpu.uniforms))
    {
      compute, canvas := gpu.Render();
      RenderedFits(gpu.uniforms, 44);
      gpu.uniforms := Rendered(gpu.uniforms);
    }
  }
}

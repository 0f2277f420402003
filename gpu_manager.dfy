/** The first WebGPU raymarcher's `GPUManager` (view/gpu_manager.js): its
    uniform record, the colour texture and uniform buffer created once, the
    uniform upload, the resolution sync, the compute dispatch in 8×8
    workgroups and `destroy`. Pipelines, bind groups and shader modules are
    left to the GPU. */
module GpuManager {
  import opened Wrappers
  import opened Values
  import opened Uniforms
  import opened Lifecycle
  import opened Numbers
  import Matrix

  /** The uniform record the constructor builds, in its key order and in
      the groups of four slots the source lays it out in. */
  function Defaults(): Record
  {
    Sizes() + View() + Shading() + Marching() + Focus()
  }
  /** `canvas_size`, `render_scale`, `temporal_counter`. */
  function Sizes(): Record
  {
    [ ("canvas_size", Value.Vec([2560.0, 1440.0])),
      ("render_scale", Scalar(1.0)),
      ("temporal_counter", Scalar(0.0)) ]
  }
  function View(): Record
  {
    [ ("camera_rotation", List(Matrix.Mat(1.0))),
      ("camera_position", Value.Vec([0.0, 0.0, 0.0])),
      ("fov", Scalar(1.0)) ]
  }
  function Shading(): Record
  {
    [ ("sun_direction", Value.Vec([1.0, 1.0, 1.0])),
      ("shader_mode", Scalar(0.0)) ]
  }
  function Marching(): Record
  {
    [ ("max_bounces", Scalar(5.0)),
      ("max_marches", Scalar(100.0)),
      ("epsilon", Scalar(0.0001)),
      ("detail", Scalar(10.0)) ]
  }
  function Focus(): Record
  {
    [ ("focus_distance", Scalar(1.0)),
      ("focus_strength", Scalar(0.0)),
      ("padding_1", Scalar(1.0)),
      ("padding_2", Scalar(0.0)) ]
  }

  /** Every default field packs to numbers. */
  lemma DefaultsWellFormed()
    ensures AllWellFormed(Defaults())
  {
    Fields3(Sizes()[0], Sizes()[1], Sizes()[2]);
    assert Sizes() == [Sizes()[0], Sizes()[1], Sizes()[2]];
    Fields3(View()[0], View()[1], View()[2]);
    assert View() == [View()[0], View()[1], View()[2]];
    Fields2(Shading()[0], Shading()[1]);
    assert Shading() == [Shading()[0], Shading()[1]];
    Fields4(Marching()[0], Marching()[1], Marching()[2], Marching()[3]);
    assert Marching() == [Marching()[0], Marching()[1], Marching()[2], Marching()[3]];
    Fields4(Focus()[0], Focus()[1], Focus()[2], Focus()[3]);
    assert Focus() == [Focus()[0], Focus()[1], Focus()[2], Focus()[3]];
    AllWellFormedAppend(Sizes(), View());
    AllWellFormedAppend(Sizes() + View(), Shading());
    AllWellFormedAppend(Sizes() + View() + Shading(), Marching());
    AllWellFormedAppend(Sizes() + View() + Shading() + Marching(), Focus());
  }

  /** The default record packs to 36 numbers, all of them numbers, in groups
      of four. */
  lemma DefaultsPack()
    ensures |Pack(Defaults())| == 36 && |Pack(Defaults())| % 4 == 0
    ensures AllReal(Pack(Defaults()))
    ensures SlotSum(Defaults()) == 36
  {
    DefaultsWellFormed();
    Fields3(Sizes()[0], Sizes()[1], Sizes()[2]);
    assert Sizes() == [Sizes()[0], Sizes()[1], Sizes()[2]];
    Fields3(View()[0], View()[1], View()[2]);
    assert View() == [View()[0], View()[1], View()[2]];
    Fields2(Shading()[0], Shading()[1]);
    assert Shading() == [Shading()[0], Shading()[1]];
    Fields4(Marching()[0], Marching()[1], Marching()[2], Marching()[3]);
    assert Marching() == [Marching()[0], Marching()[1], Marching()[2], Marching()[3]];
    Fields4(Focus()[0], Focus()[1], Focus()[2], Focus()[3]);
    assert Focus() == [Focus()[0], Focus()[1], Focus()[2], Focus()[3]];
    SlotSumAppend(Sizes(), View());
    SlotSumAppend(Sizes() + View(), Shading());
    SlotSumAppend(Sizes() + View() + Shading(), Marching());
    SlotSumAppend(Sizes() + View() + Shading() + Marching(), Focus());
    PackWellFormed(Defaults());
  }

  lemma SizesGet(k: string)
    ensures Get(Sizes(), k) ==
      if k == "canvas_size" then Some(Value.Vec([2560.0, 1440.0]))
      else if k == "render_scale" then Some(Scalar(1.0))
      else if k == "temporal_counter" then Some(Scalar(0.0))
      else None
  {
  }

  lemma ViewGet(k: string)
    ensures Get(View(), k) ==
      if k == "camera_rotation" then Some(List(Matrix.Mat(1.0)))
      else if k == "camera_position" then Some(Value.Vec([0.0, 0.0, 0.0]))
      else if k == "fov" then Some(Scalar(1.0))
      else None
  {
  }

  lemma ShadingGet(k: string)
    ensures Get(Shading(), k) ==
      if k == "sun_direction" then Some(Value.Vec([1.0, 1.0, 1.0]))
      else if k == "shader_mode" then Some(Scalar(0.0))
      else None
  {
  }

  lemma MarchingGet(k: string)
    ensures Get(Marching(), k) ==
      if k == "max_bounces" then Some(Scalar(5.0))
      else if k == "max_marches" then Some(Scalar(100.0))
      else if k == "epsilon" then Some(Scalar(0.0001))
      else if k == "detail" then Some(Scalar(10.0))
      else None
  {
  }

  lemma FocusGet(k: string)
    ensures Get(Focus(), k) ==
      if k == "focus_distance" then Some(Scalar(1.0))
      else if k == "focus_strength" then Some(Scalar(0.0))
      else if k == "padding_1" then Some(Scalar(1.0))
      else if k == "padding_2" then Some(Scalar(0.0))
      else None
  {
  }

  /** Looking a field up in the default record. */
  lemma DefaultsGet(k: string)
    ensures Get(Defaults(), k) ==
      if k == "canvas_size" then Some(Value.Vec([2560.0, 1440.0]))
      else if k == "render_scale" then Some(Scalar(1.0))
      else if k == "temporal_counter" then Some(Scalar(0.0))
      else if k == "camera_rotation" then Some(List(Matrix.Mat(1.0)))
      else if k == "camera_position" then Some(Value.Vec([0.0, 0.0, 0.0]))
      else if k == "fov" then Some(Scalar(1.0))
      else if k == "sun_direction" then Some(Value.Vec([1.0, 1.0, 1.0]))
      else if k == "shader_mode" then Some(Scalar(0.0))
      else if k == "max_bounces" then Some(Scalar(5.0))
      else if k == "max_marches" then Some(Scalar(100.0))
      else if k == "epsilon" then Some(Scalar(0.0001))
      else if k == "detail" then Some(Scalar(10.0))
      else if k == "focus_distance" then Some(Scalar(1.0))
      else if k == "focus_strength" then Some(Scalar(0.0))
      else if k == "padding_1" then Some(Scalar(1.0))
      else if k == "padding_2" then Some(Scalar(0.0))
      else None
  {
    SizesGet(k);
    ViewGet(k);
    ShadingGet(k);
    MarchingGet(k);
    FocusGet(k);
    GetAppend(Sizes(), View(), k);
    GetAppend(Sizes() + View(), Shading(), k);
    GetAppend(Sizes() + View() + Shading(), Marching(), k);
    GetAppend(Sizes() + View() + Shading() + Marching(), Focus(), k);
  }

  /** The shape of each field the renderer or its engine rewrites: a
      2-vector canvas size, a positive render scale, number fields,
      a 4×4 camera rotation and a 3-vector camera position. */
  function ShapeOf(k: string): Option<Shape>
  {
    if k == "canvas_size" then Some(Vector(2))
    else if k == "render_scale" then Some(Positive)
    else if k == "temporal_counter" then Some(Number)
    else if k == "camera_rotation" then Some(Matrix4)
    else if k == "camera_position" then Some(Vector(3))
    else if k == "fov" then Some(Number)
    else None
  }

  /** Every field listed by `ShapeOf` is present with its shape. */
  ghost predicate Shaped(u: Record)
  {
    forall k :: ShapeOf(k).Some? ==> Get(u, k).Some? && Matches(Get(u, k).value, ShapeOf(k).value)
  }

  lemma DefaultsShaped()
    ensures Shaped(Defaults())
  {
    forall k | ShapeOf(k).Some?
      ensures Get(Defaults(), k).Some? && Matches(Get(Defaults(), k).value, ShapeOf(k).value)
    {
      DefaultsGet(k);
    }
  }

  /** The record keeps the shapes the renderer relies on, packs to
      numbers only, and fills `n` slots. */
  ghost predicate Fits(u: Record, n: nat)
  {
    Shaped(u) && AllWellFormed(u) && SlotSum(u) == n
  }

  /** The default record fits a buffer of 36 numbers. */
  lemma DefaultsFit()
    ensures Fits(Defaults(), 36) && |Pack(Defaults())| == 36
  {
    DefaultsPack();
    DefaultsShaped();
    DefaultsWellFormed();
  }

  /** Overwriting a listed field with a value of its shape keeps the
      record fitting its buffer. */
  lemma SetKeeps(u: Record, u': Record, n: nat, k: string, v: Value)
    requires Fits(u, n) && ShapeOf(k).Some? && Matches(v, ShapeOf(k).value)
    requires u' == Set(u, k, v)
    ensures Fits(u', n)
  {
    MatchesSlots(Get(u, k).value, v, ShapeOf(k).value);
    SetSameSlots(u, k, v);
  }

  /** The colour texture: 2560×1440 texels of four 32-bit floats. */
  const TextureSize: (int, int) := (BaseWidth, BaseHeight)

  datatype WriteOutcome = Written | Refused | Thrown

  class GPUManager {
    var uniforms: Record
    /** The canvas element's pixel size. */
    var canvasSize: (int, int)
    var device: Option<Handle>
    var colorBuffer: Option<Handle>
    var uniformBuffer: Option<Handle>
    /** The texture size the colour buffer was created with. */
    const colorTextureSize: (int, int)
    /** The colour texture each pipeline's bind group holds a view of. */
    const computeTexture: Handle
    const renderTexture: Handle
    /** Byte size the uniform buffer was created with. */
    const uniformBufferBytes: nat
    /** The uniform buffer's contents, one float per slot. */
    var uniformData: seq<Float>
    /** Every handle `destroy` released, in order. */
    var released: seq<Handle>

    /** The uniform buffer is exactly as long as the packing of the
        record, every field of which packs to numbers, and the fields the
        renderer rewrites keep their shapes. */
    ghost predicate Valid()
      reads this`uniforms, this`uniformData
    {
      && Fits(uniforms, |uniformData|)
      && 4 * |uniformData| == uniformBufferBytes
    }

    /** `new GPUManager(canvas, device, ...)`: the default record, one
        colour texture of the base size bound into both pipelines, and a
        uniform buffer sized from the first packing. */
    constructor (dev: Handle, color: Handle, uniform: Handle, width: int, height: int)
      ensures Valid()
      ensures uniforms == Defaults()
      ensures device == Some(dev) && colorBuffer == Some(color) && uniformBuffer == Some(uniform)
      ensures colorTextureSize == TextureSize
      ensures computeTexture == color && renderTexture == color
      ensures uniformBufferBytes == 144 && |uniformData| == 36
      ensures canvasSize == (width, height)
      ensures released == []
    {
      device := Some(dev);
      colorBuffer := Some(color);
      uniformBuffer := Some(uniform);
      colorTextureSize := TextureSize;
      computeTexture := color;
      renderTexture := color;
      canvasSize := (width, height);
      released := [];
      DefaultsFit();
      uniformBufferBytes := 144;
      uniforms := Defaults();
      uniformData := seq(36, _ => Real(0.0));
    }

    /** `destroy()`: releases and forgets the colour texture, the uniform
        buffer and the device, each only if still held. */
    method Destroy()
      modifies this`colorBuffer, this`uniformBuffer, this`device, this`released
      ensures colorBuffer.None? && uniformBuffer.None? && device.None?
      ensures released == old(released) + Present([old(colorBuffer), old(uniformBuffer), old(device)])
      ensures old(colorBuffer).None? && old(uniformBuffer).None? && old(device).None? ==>
        released == old(released)
    {
      var hs := Present([colorBuffer, uniformBuffer, device]);
      released := released + hs;
      colorBuffer := None;
      uniformBuffer := None;
      device := None;
    }

    /** `writeUniforms()`: the whole packing at offset 0. The buffer was
        sized from the packing, so a held buffer is always written whole. */
    method WriteUniforms() returns (outcome: WriteOutcome)
      requires Valid()
      modifies this`uniformData
      ensures Valid()
      ensures outcome == Thrown <==> device.None? || uniformBuffer.None?
      ensures outcome == Refused <==> device.Some? && uniformBuffer.Some? && |Pack(uniforms)| > |old(uniformData)|
      ensures outcome != Refused
      ensures outcome == Written ==> uniformData == Pack(uniforms)
      ensures outcome != Written ==> uniformData == old(uniformData)
    {
      PackWellFormed(uniforms);
      var data := Pack(uniforms);
      if device.None? || uniformBuffer.None? {
        outcome := Thrown;
      } else if |data| > |uniformData| {
        outcome := Refused;
      } else {
        uniformData := data + uniformData[|data|..];
        outcome := Written;
      }
    }

    /** `syncResolution()`: the canvas's bounding rectangle, capped at
        2560×1440, goes into `canvas_size` with its fractions and onto the
        canvas element in whole pixels; nothing is allocated. */
    method SyncResolution(rectWidth: real, rectHeight: real)
      requires Valid()
      modifies this`uniforms, this`canvasSize
      ensures Valid()
      ensures canvasSize == RectPixels(rectWidth, rectHeight)
      ensures uniforms == Synced(old(uniforms), rectWidth, rectHeight)
    {
      var size := CappedRect(rectWidth, rectHeight);
      var u := Set(uniforms, "canvas_size", Value.Vec([size.0, size.1]));
      SetKeeps(uniforms, u, |uniformData|, "canvas_size", Value.Vec([size.0, size.1]));
      canvasSize := (Trunc(size.0), Trunc(size.1));
      uniforms := u;
    }

    /** The workgroup counts `render` dispatches. */
    function DispatchCounts(): (n: (int, int))
      reads this`uniforms, this`uniformData
      requires Valid()
      ensures n == Dispatch(VecOf(uniforms, "canvas_size"), ScalarOf(uniforms, "render_scale"))
    {
      Dispatch(VecOf(uniforms, "canvas_size"), ScalarOf(uniforms, "render_scale"))
    }
  }

  /** The record after `syncResolution` with a bounding rectangle of
      `w`×`h`: `canvas_size` keeps the capped sides, fractions included. */
  function Synced(u: Record, w: real, h: real): Record
  {
    var size := CappedRect(w, h);
    Set(u, "canvas_size", Value.Vec([size.0, size.1]))
  }

  /** Syncing twice to the same rectangle is syncing once, and the canvas
      size stored is the rectangle capped at 2560×1440. */
  lemma SyncedIdempotent(u: Record, w: real, h: real)
    ensures Synced(Synced(u, w, h), w, h) == Synced(u, w, h)
    ensures Get(Synced(u, w, h), "canvas_size") ==
      Some(Value.Vec([if w < 2560.0 then w else 2560.0, if h < 1440.0 then h else 1440.0]))
  {
    var size := CappedRect(w, h);
    SetTwice(u, "canvas_size", Value.Vec([size.0, size.1]), Value.Vec([size.0, size.1]));
  }

  /** The workgroup counts for a canvas of size `c` at render scale `rs`:
      8×8 groups covering the scaled canvas, with no group to spare. */
  function Dispatch(c: seq<real>, rs: real): (n: (int, int))
    requires |c| == 2 && rs > 0.0
    ensures (n.0 as real) * (8.0 * rs) >= c[0] && ((n.0 - 1) as real) * (8.0 * rs) < c[0]
    ensures (n.1 as real) * (8.0 * rs) >= c[1] && ((n.1 - 1) as real) * (8.0 * rs) < c[1]
  {
    (Workgroups(c[0], rs, 8), Workgroups(c[1], rs, 8))
  }
}

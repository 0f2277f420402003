/** The gravitational-lensing renderer's `WebGLManager` (lensing/gpu.js):
    its uniform record, the upload and viewport of `render`,
    `synchronize` and the sizes `screenshot` uses. GL calls and the pixel
    read-back are left to the GPU. */
module LensingGpu {
  import opened Wrappers
  import opened Values
  import opened Uniforms
  import opened Lifecycle
  import opened Numbers
  import Matrix

  /** The uniform record the constructor builds, in its key order and in
      the groups of four slots the source lays it out in. */
  function Defaults(): Record
  {
    Sizes() + Accumulation() + View() + Marching() + Rings()
  }
  function Sizes(): Record
  {
    [ ("canvas_size", Value.Vec([2560.0, 1440.0])),
      ("buffer_size", Value.Vec([2560.0, 1440.0])) ]
  }
  function Accumulation(): Record
  {
    [ ("render_scale", Scalar(1.0)),
      ("temporal_counter", Scalar(1.0)),
      ("shader_mode", Scalar(1.0)),
      ("force_threshold", Scalar(0.5)) ]
  }
  function View(): Record
  {
    [ ("camera_rotation", List(Matrix.Mat(1.0))),
      ("camera_position", Value.Vec([0.0, -3.0, 0.0])),
      ("fov", Scalar(1.0)) ]
  }
  function Marching(): Record
  {
    [ ("max_marches", Scalar(200.0)),
      ("march_size", Scalar(0.5)),
      ("force_strenth", Scalar(1.0)),
      ("ring_density", Scalar(50.0)) ]
  }
  function Rings(): Record
  {
    [ ("ring_radius", Scalar(0.0)),
      ("padding_a", Scalar(0.0)),
      ("padding_b", Scalar(0.0)),
      ("padding_c", Scalar(0.0)) ]
  }

  /** Every default field packs to numbers. */
  lemma DefaultsWellFormed()
    ensures AllWellFormed(Defaults())
  {
    Fields2(Sizes()[0], Sizes()[1]);
    assert Sizes() == [Sizes()[0], Sizes()[1]];
    Fields4(Accumulation()[0], Accumulation()[1], Accumulation()[2], Accumulation()[3]);
    assert Accumulation() == [Accumulation()[0], Accumulation()[1], Accumulation()[2], Accumulation()[3]];
    Fields3(View()[0], View()[1], View()[2]);
    assert View() == [View()[0], View()[1], View()[2]];
    Fields4(Marching()[0], Marching()[1], Marching()[2], Marching()[3]);
    assert Marching() == [Marching()[0], Marching()[1], Marching()[2], Marching()[3]];
    Fields4(Rings()[0], Rings()[1], Rings()[2], Rings()[3]);
    assert Rings() == [Rings()[0], Rings()[1], Rings()[2], Rings()[3]];
    AllWellFormedAppend(Sizes(), Accumulation());
    AllWellFormedAppend(Sizes() + Accumulation(), View());
    AllWellFormedAppend(Sizes() + Accumulation() + View(), Marching());
    AllWellFormedAppend(Sizes() + Accumulation() + View() + Marching(), Rings());
  }

  /** The default record packs to 36 numbers, all of them numbers, in groups
      of four. */
  lemma DefaultsPack()
    ensures |Pack(Defaults())| == 36 && |Pack(Defaults())| % 4 == 0
    ensures AllReal(Pack(Defaults()))
    ensures SlotSum(Defaults()) == 36
  {
    DefaultsWellFormed();
    Fields2(Sizes()[0], Sizes()[1]);
    assert Sizes() == [Sizes()[0], Sizes()[1]];
    Fields4(Accumulation()[0], Accumulation()[1], Accumulation()[2], Accumulation()[3]);
    assert Accumulation() == [Accumulation()[0], Accumulation()[1], Accumulation()[2], Accumulation()[3]];
    Fields3(View()[0], View()[1], View()[2]);
    assert View() == [View()[0], View()[1], View()[2]];
    Fields4(Marching()[0], Marching()[1], Marching()[2], Marching()[3]);
    assert Marching() == [Marching()[0], Marching()[1], Marching()[2], Marching()[3]];
    Fields4(Rings()[0], Rings()[1], Rings()[2], Rings()[3]);
    assert Rings() == [Rings()[0], Rings()[1], Rings()[2], Rings()[3]];
    SlotSumAppend(Sizes(), Accumulation());
    SlotSumAppend(Sizes() + Accumulation(), View());
    SlotSumAppend(Sizes() + Accumulation() + View(), Marching());
    SlotSumAppend(Sizes() + Accumulation() + View() + Marching(), Rings());
    PackWellFormed(Defaults());
  }

  lemma SizesGet(k: string)
    ensures Get(Sizes(), k) ==
      if k == "canvas_size" then Some(Value.Vec([2560.0, 1440.0]))
      else if k == "buffer_size" then Some(Value.Vec([2560.0, 1440.0]))
      else None
  {
  }

  lemma AccumulationGet(k: string)
    ensures Get(Accumulation(), k) ==
      if k == "render_scale" then Some(Scalar(1.0))
      else if k == "temporal_counter" then Some(Scalar(1.0))
      else if k == "shader_mode" then Some(Scalar(1.0))
      else if k == "force_threshold" then Some(Scalar(0.5))
      else None
  {
  }

  lemma ViewGet(k: string)
    ensures Get(View(), k) ==
      if k == "camera_rotation" then Some(List(Matrix.Mat(1.0)))
      else if k == "camera_position" then Some(Value.Vec([0.0, -3.0, 0.0]))
      else if k == "fov" then Some(Scalar(1.0))
      else None
  {
  }

  lemma MarchingGet(k: string)
    ensures Get(Marching(), k) ==
      if k == "max_marches" then Some(Scalar(200.0))
      else if k == "march_size" then Some(Scalar(0.5))
      else if k == "force_strenth" then Some(Scalar(1.0))
      else if k == "ring_density" then Some(Scalar(50.0))
      else None
  {
  }

  lemma RingsGet(k: string)
    ensures Get(Rings(), k) ==
      if k == "ring_radius" then Some(Scalar(0.0))
      else if k == "padding_a" then Some(Scalar(0.0))
      else if k == "padding_b" then Some(Scalar(0.0))
      else if k == "padding_c" then Some(Scalar(0.0))
      else None
  {
  }

  /** Looking a field up in the default record. */
  lemma DefaultsGet(k: string)
    ensures Get(Defaults(), k) ==
      if k == "canvas_size" then Some(Value.Vec([2560.0, 1440.0]))
      else if k == "buffer_size" then Some(Value.Vec([2560.0, 1440.0]))
      else if k == "render_scale" then Some(Scalar(1.0))
      else if k == "temporal_counter" then Some(Scalar(1.0))
      else if k == "shader_mode" then Some(Scalar(1.0))
      else if k == "force_threshold" then Some(Scalar(0.5))
      else if k == "camera_rotation" then Some(List(Matrix.Mat(1.0)))
      else if k == "camera_position" then Some(Value.Vec([0.0, -3.0, 0.0]))
      else if k == "fov" then Some(Scalar(1.0))
      else if k == "max_marches" then Some(Scalar(200.0))
      else if k == "march_size" then Some(Scalar(0.5))
      else if k == "force_strenth" then Some(Scalar(1.0))
      else if k == "ring_density" then Some(Scalar(50.0))
      else if k == "ring_radius" then Some(Scalar(0.0))
      else if k == "padding_a" then Some(Scalar(0.0))
      else if k == "padding_b" then Some(Scalar(0.0))
      else if k == "padding_c" then Some(Scalar(0.0))
      else None
  {
    SizesGet(k);
    AccumulationGet(k);
    ViewGet(k);
    MarchingGet(k);
    RingsGet(k);
    GetAppend(Sizes(), Accumulation(), k);
    GetAppend(Sizes() + Accumulation(), View(), k);
    GetAppend(Sizes() + Accumulation() + View(), Marching(), k);
    GetAppend(Sizes() + Accumulation() + View() + Marching(), Rings(), k);
  }

  /** The shape of each field the renderer or its engine rewrites: a
      2-vector canvas and buffer size, a positive render scale, a
      number temporal counter and fov, a matrix camera rotation and
      a 3-vector camera position. */
  function ShapeOf(k: string): Option<Shape>
  {
    if k == "canvas_size" then Some(Vector(2))
    else if k == "buffer_size" then Some(Vector(2))
    else if k == "render_scale" then Some(Positive)
    else if k == "temporal_counter" then Some(Number)
    else if k == "camera_rotation" then Some(Matrix4)
    else if k == "camera_position" then Some(Vector(3))
    else if k == "fov" then Some(Number)
    else None
  }

  /** Every field listed by `ShapeOf` is present with its shape. */
  ghost predicate Shaped(u: Record)
  {
    forall k :: ShapeOf(k).Some? ==> Get(u, k).Some? && Matches(Get(u, k).value, ShapeOf(k).value)
  }

  lemma DefaultsShaped()
    ensures Shaped(Defaults())
  {
    forall k | ShapeOf(k).Some?
      ensures Get(Defaults(), k).Some? && Matches(Get(Defaults(), k).value, ShapeOf(k).value)
    {
      DefaultsGet(k);
    }
  }

  /** The record keeps the shapes the renderer relies on, packs to
      numbers only, and fills `n` slots. */
  ghost predicate Fits(u: Record, n: nat)
  {
    Shaped(u) && AllWellFormed(u) && SlotSum(u) == n
  }

  /** The default record fits a buffer of 36 numbers. */
  lemma DefaultsFit()
    ensures Fits(Defaults(), 36) && |Pack(Defaults())| == 36
  {
    DefaultsPack();
    DefaultsShaped();
    DefaultsWellFormed();
  }

  /** Overwriting a listed field with a value of its shape keeps the
      record fitting its buffer. */
  lemma SetKeeps(u: Record, u': Record, n: nat, k: string, v: Value)
    requires Fits(u, n) && ShapeOf(k).Some? && Matches(v, ShapeOf(k).value)
    requires u' == Set(u, k, v)
    ensures Fits(u', n)
  {
    MatchesSlots(Get(u, k).value, v, ShapeOf(k).value);
    SetSameSlots(u, k, v);
  }

  class WebGLManager {
    var uniforms: Record
    /** The canvas element's pixel size: the capped client size in scaled
        pixels. */
    var canvasPixels: (int, int)
    const program: Handle
    const vertexBuffer: Handle
    const uniformBuffer: Handle
    /** The sky texture the shader samples. */
    const skyTexture: Handle
    /** The uniform buffer's contents, one float per slot. */
    var uniformData: seq<Float>

    /** The record keeps its shapes and its 36 slots. */
    ghost predicate Valid()
      reads this`uniforms
    {
      Fits(uniforms, 36)
    }

    /** `new WebGLManager(canvas, fragment, texture)`: the default record,
        a uniform buffer sized from the first packing, then
        `synchronize`. */
    constructor (prog: Handle, vertices: Handle, buffer: Handle, texture: Handle,
                 clientWidth: nat, clientHeight: nat)
      ensures Valid()
      ensures uniforms == Synced(Defaults(), clientWidth, clientHeight)
      ensures canvasPixels == Capped(clientWidth, clientHeight)
      ensures program == prog && vertexBuffer == vertices && uniformBuffer == buffer && skyTexture == texture
      ensures |uniformData| == 36
    {
      program := prog;
      vertexBuffer := vertices;
      uniformBuffer := buffer;
      skyTexture := texture;
      uniformData := seq(36, _ => Real(0.0));
      DefaultsFit();
      // synchronize, at the default render scale of 1
      var size := Capped(clientWidth, clientHeight);
      var d := Defaults();
      var u := Set(d, "canvas_size", Value.Vec([size.0 as real, size.1 as real]));
      SetKeeps(d, u, 36, "canvas_size", Value.Vec([size.0 as real, size.1 as real]));
      WholePixels(size.0);
      WholePixels(size.1);
      canvasPixels := ScaledSize([size.0 as real, size.1 as real], 1.0);
      uniforms := u;
    }

    /** `render()`: reallocates the uniform buffer with the whole packing,
        whatever its length, and draws into a viewport of the canvas in
        scaled pixels. */
    method Render() returns (viewport: (int, int))
      requires Valid()
      modifies this`uniformData
      ensures uniformData == Pack(uniforms)
      ensures viewport == ScaledSize(VecOf(uniforms, "canvas_size"), ScalarOf(uniforms, "render_scale"))
    {
      uniformData := Pack(uniforms);
      viewport := ScaledSize(VecOf(uniforms, "canvas_size"), ScalarOf(uniforms, "render_scale"));
    }

    /** `synchronize()`: the client size, capped at 2560×1440, goes into
        `canvas_size`; the canvas element gets that size in scaled
        pixels. */
    method Synchronize(clientWidth: nat, clientHeight: nat)
      requires Valid()
      modifies this`uniforms, this`canvasPixels
      ensures Valid()
      ensures uniforms == Synced(old(uniforms), clientWidth, clientHeight)
      ensures canvasPixels == ScaledSize(VecOf(uniforms, "canvas_size"), ScalarOf(uniforms, "render_scale"))
      ensures ScalarOf(uniforms, "render_scale") == ScalarOf(old(uniforms), "render_scale")
    {
      var size := Capped(clientWidth, clientHeight);
      var u := Set(uniforms, "canvas_size", Value.Vec([size.0 as real, size.1 as real]));
      SetKeeps(uniforms, u, 36, "canvas_size", Value.Vec([size.0 as real, size.1 as real]));
      canvasPixels := ScaledSize([size.0 as real, size.1 as real], ScalarOf(uniforms, "render_scale"));
      uniforms := u;
    }

    /** `screenshot()`: the texture size and the read-back size. */
    function Screenshot(): (r: ((int, int), (int, int)))
      reads this`uniforms
      requires Valid()
      ensures r == ScreenshotSizes(VecOf(uniforms, "buffer_size"), VecOf(uniforms, "canvas_size"),
        ScalarOf(uniforms, "render_scale"))
    {
      ScreenshotSizes(VecOf(uniforms, "buffer_size"), VecOf(uniforms, "canvas_size"),
        ScalarOf(uniforms, "render_scale"))
    }
  }

  /** A canvas size `c` in pixels of render scale `rs`, as the canvas
      element and the viewport take it. */
  function ScaledSize(c: seq<real>, rs: real): (n: (int, int))
    requires |c| == 2 && rs > 0.0
    ensures c[0] >= 0.0 ==> n.0 >= 0 && (n.0 as real) * rs <= c[0] < ((n.0 + 1) as real) * rs
    ensures c[1] >= 0.0 ==> n.1 >= 0 && (n.1 as real) * rs <= c[1] < ((n.1 + 1) as real) * rs
  {
    (TruncScaled(c[0], rs), TruncScaled(c[1], rs))
  }

  /** At render scale 1 a whole pixel count is its own scaled size. */
  lemma WholePixels(x: int)
    requires x >= 0
    ensures TruncScaled(x as real, 1.0) == x
  {
    var n := TruncScaled(x as real, 1.0);
    assert (n as real) * 1.0 == n as real;
    assert ((n + 1) as real) * 1.0 == (n + 1) as real;
  }

  /** The record after `synchronize` with a client size of `w`×`h`. */
  function Synced(u: Record, w: int, h: int): Record
  {
    var size := Capped(w, h);
    Set(u, "canvas_size", Value.Vec([size.0 as real, size.1 as real]))
  }

  /** Synchronizing twice to the same size is synchronizing once, and the
      canvas size stored is the capped client size. */
  lemma SyncedIdempotent(u: Record, w: int, h: int)
    ensures Synced(Synced(u, w, h), w, h) == Synced(u, w, h)
    ensures Get(Synced(u, w, h), "canvas_size") ==
      Some(Value.Vec([Min(w, BaseWidth) as real, Min(h, BaseHeight) as real]))
  {
    var size := Capped(w, h);
    SetTwice(u, "canvas_size", Value.Vec([size.0 as real, size.1 as real]),
      Value.Vec([size.0 as real, size.1 as real]));
  }
}

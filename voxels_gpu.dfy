/** The voxel height-map renderer's `WebGLManager` (voxels/gpu.js): its
    uniform record, built around the height texture's size, the upload and
    viewport of `render`, `synchronize`, `reloadImage` and the sizes
    `screenshot` uses. GL calls and the pixel read-back are left to the
    GPU. */
module VoxelsGpu {
  import opened Wrappers
  import opened Values
  import opened Uniforms
  import opened Lifecycle
  import opened Numbers
  import Matrix

  /** The uniform record the constructor builds, in its key order and in
      the groups of four slots the source lays it out in. */
  function Defaults(gridWidth: real, gridHeight: real): Record
  {
    Sizes() + Grid(gridWidth, gridHeight) + View() + Shading() + Height() + Blend()
  }
  function Sizes(): Record
  {
    [ ("canvas_size", Value.Vec([2560.0, 1440.0])),
      ("buffer_size", Value.Vec([2560.0, 1440.0])) ]
  }
  function Grid(gridWidth: real, gridHeight: real): Record
  {
    [ ("grid_size", Value.Vec([gridWidth, gridHeight, 256.0])),
      ("render_scale", Scalar(1.0)) ]
  }
  function View(): Record
  {
    [ ("camera_rotation", List(Matrix.Mat(1.0))),
      ("camera_position", Value.Vec([0.0, -3.0, 0.0])),
      ("fov", Scalar(1.0)) ]
  }
  function Shading(): Record
  {
    [ ("grid_scale", Scalar(1.0)),
      ("shading_mode", Scalar(0.0)),
      ("padding_a", Scalar(0.0)),
      ("padding_b", Scalar(0.0)) ]
  }
  function Height(): Record
  {
    [ ("height_offset", Scalar(0.0)),
      ("height_multiplier", Scalar(0.25)),
      ("height_gamma", Scalar(1.0)),
      ("height_invert", Scalar(0.0)) ]
  }
  function Blend(): Record
  {
    [ ("fade_blend", Scalar(1.0)),
      ("voxel_blend", Scalar(0.0)),
      ("grayscale_blend", Scalar(0.0)),
      ("normals_epsilon", Scalar(2.0)) ]
  }

  /** Every default field packs to numbers. */
  lemma DefaultsWellFormed(gridWidth: real, gridHeight: real)
    ensures AllWellFormed(Defaults(gridWidth, gridHeight))
  {
    Fields2(Sizes()[0], Sizes()[1]);
    assert Sizes() == [Sizes()[0], Sizes()[1]];
    Fields2(Grid(gridWidth, gridHeight)[0], Grid(gridWidth, gridHeight)[1]);
    assert Grid(gridWidth, gridHeight) == [Grid(gridWidth, gridHeight)[0], Grid(gridWidth, gridHeight)[1]];
    Fields3(View()[0], View()[1], View()[2]);
    assert View() == [View()[0], View()[1], View()[2]];
    Fields4(Shading()[0], Shading()[1], Shading()[2], Shading()[3]);
    assert Shading() == [Shading()[0], Shading()[1], Shading()[2], Shading()[3]];
    Fields4(Height()[0], Height()[1], Height()[2], Height()[3]);
    assert Height() == [Height()[0], Height()[1], Height()[2], Height()[3]];
    Fields4(Blend()[0], Blend()[1], Blend()[2], Blend()[3]);
    assert Blend() == [Blend()[0], Blend()[1], Blend()[2], Blend()[3]];
    AllWellFormedAppend(Sizes(), Grid(gridWidth, gridHeight));
    AllWellFormedAppend(Sizes() + Grid(gridWidth, gridHeight), View());
    AllWellFormedAppend(Sizes() + Grid(gridWidth, gridHeight) + View(), Shading());
    AllWellFormedAppend(Sizes() + Grid(gridWidth, gridHeight) + View() + Shading(), Height());
    AllWellFormedAppend(Sizes() + Grid(gridWidth, gridHeight) + View() + Shading() + Height(), Blend());
  }

  /** The default record packs to 40 numbers, all of them numbers, in groups
      of four. */
  lemma DefaultsPack(gridWidth: real, gridHeight: real)
    ensures |Pack(Defaults(gridWidth, gridHeight))| == 40 && |Pack(Defaults(gridWidth, gridHeight))| % 4 == 0
    ensures AllReal(Pack(Defaults(gridWidth, gridHeight)))
    ensures SlotSum(Defaults(gridWidth, gridHeight)) == 40
  {
    DefaultsWellFormed(gridWidth, gridHeight);
    Fields2(Sizes()[0], Sizes()[1]);
    assert Sizes() == [Sizes()[0], Sizes()[1]];
    Fields2(Grid(gridWidth, gridHeight)[0], Grid(gridWidth, gridHeight)[1]);
    assert Grid(gridWidth, gridHeight) == [Grid(gridWidth, gridHeight)[0], Grid(gridWidth, gridHeight)[1]];
    Fields3(View()[0], View()[1], View()[2]);
    assert View() == [View()[0], View()[1], View()[2]];
    Fields4(Shading()[0], Shading()[1], Shading()[2], Shading()[3]);
    assert Shading() == [Shading()[0], Shading()[1], Shading()[2], Shading()[3]];
    Fields4(Height()[0], Height()[1], Height()[2], Height()[3]);
    assert Height() == [Height()[0], Height()[1], Height()[2], Height()[3]];
    Fields4(Blend()[0], Blend()[1], Blend()[2], Blend()[3]);
    assert Blend() == [Blend()[0], Blend()[1], Blend()[2], Blend()[3]];
    SlotSumAppend(Sizes(), Grid(gridWidth, gridHeight));
    SlotSumAppend(Sizes() + Grid(gridWidth, gridHeight), View());
    SlotSumAppend(Sizes() + Grid(gridWidth, gridHeight) + View(), Shading());
    SlotSumAppend(Sizes() + Grid(gridWidth, gridHeight) + View() + Shading(), Height());
    SlotSumAppend(Sizes() + Grid(gridWidth, gridHeight) + View() + Shading() + Height(), Blend());
    PackWellFormed(Defaults(gridWidth, gridHeight));
  }

  lemma SizesGet(gridWidth: real, gridHeight: real, k: string)
    ensures Get(Sizes(), k) ==
      if k == "canvas_size" then Some(Value.Vec([2560.0, 1440.0]))
      else if k == "buffer_size" then Some(Value.Vec([2560.0, 1440.0]))
      else None
  {
  }

  lemma GridGet(gridWidth: real, gridHeight: real, k: string)
    ensures Get(Grid(gridWidth, gridHeight), k) ==
      if k == "grid_size" then Some(Value.Vec([gridWidth, gridHeight, 256.0]))
      else if k == "render_scale" then Some(Scalar(1.0))
      else None
  {
    var g := Grid(gridWidth, gridHeight);
    if k == "grid_size" {
      GetAt(g, 0, k);
    } else if k == "render_scale" {
      GetAt(g, 1, k);
    } else {
      assert g[1..][1..] == [];
    }
  }

  lemma ViewGet(gridWidth: real, gridHeight: real, k: string)
    ensures Get(View(), k) ==
      if k == "camera_rotation" then Some(List(Matrix.Mat(1.0)))
      else if k == "camera_position" then Some(Value.Vec([0.0, -3.0, 0.0]))
      else if k == "fov" then Some(Scalar(1.0))
      else None
  {
  }

  lemma ShadingGet(gridWidth: real, gridHeight: real, k: string)
    ensures Get(Shading(), k) ==
      if k == "grid_scale" then Some(Scalar(1.0))
      else if k == "shading_mode" then Some(Scalar(0.0))
      else if k == "padding_a" then Some(Scalar(0.0))
      else if k == "padding_b" then Some(Scalar(0.0))
      else None
  {
  }

  lemma HeightGet(gridWidth: real, gridHeight: real, k: string)
    ensures Get(Height(), k) ==
      if k == "height_offset" then Some(Scalar(0.0))
      else if k == "height_multiplier" then Some(Scalar(0.25))
      else if k == "height_gamma" then Some(Scalar(1.0))
      else if k == "height_invert" then Some(Scalar(0.0))
      else None
  {
  }

  lemma BlendGet(gridWidth: real, gridHeight: real, k: string)
    ensures Get(Blend(), k) ==
      if k == "fade_blend" then Some(Scalar(1.0))
      else if k == "voxel_blend" then Some(Scalar(0.0))
      else if k == "grayscale_blend" then Some(Scalar(0.0))
      else if k == "normals_epsilon" then Some(Scalar(2.0))
      else None
  {
  }

  /** Looking a field up in the default record. */
  lemma DefaultsGet(gridWidth: real, gridHeight: real, k: string)
    ensures Get(Defaults(gridWidth, gridHeight), k) ==
      if k == "canvas_size" then Some(Value.Vec([2560.0, 1440.0]))
      else if k == "buffer_size" then Some(Value.Vec([2560.0, 1440.0]))
      else if k == "grid_size" then Some(Value.Vec([gridWidth, gridHeight, 256.0]))
      else if k == "render_scale" then Some(Scalar(1.0))
      else if k == "camera_rotation" then Some(List(Matrix.Mat(1.0)))
      else if k == "camera_position" then Some(Value.Vec([0.0, -3.0, 0.0]))
      else if k == "fov" then Some(Scalar(1.0))
      else if k == "grid_scale" then Some(Scalar(1.0))
      else if k == "shading_mode" then Some(Scalar(0.0))
      else if k == "padding_a" then Some(Scalar(0.0))
      else if k == "padding_b" then Some(Scalar(0.0))
      else if k == "height_offset" then Some(Scalar(0.0))
      else if k == "height_multiplier" then Some(Scalar(0.25))
      else if k == "height_gamma" then Some(Scalar(1.0))
      else if k == "height_invert" then Some(Scalar(0.0))
      else if k == "fade_blend" then Some(Scalar(1.0))
      else if k == "voxel_blend" then Some(Scalar(0.0))
      else if k == "grayscale_blend" then Some(Scalar(0.0))
      else if k == "normals_epsilon" then Some(Scalar(2.0))
      else None
  {
    SizesGet(gridWidth, gridHeight, k);
    GridGet(gridWidth, gridHeight, k);
    ViewGet(gridWidth, gridHeight, k);
    ShadingGet(gridWidth, gridHeight, k);
    HeightGet(gridWidth, gridHeight, k);
    BlendGet(gridWidth, gridHeight, k);
    GetAppend(Sizes(), Grid(gridWidth, gridHeight), k);
    GetAppend(Sizes() + Grid(gridWidth, gridHeight), View(), k);
    GetAppend(Sizes() + Grid(gridWidth, gridHeight) + View(), Shading(), k);
    GetAppend(Sizes() + Grid(gridWidth, gridHeight) + View() + Shading(), Height(), k);
    GetAppend(Sizes() + Grid(gridWidth, gridHeight) + View() + Shading() + Height(), Blend(), k);
  }

  /** The shape of each field the renderer or its engine rewrites: a
      2-vector canvas and buffer size, a 3-vector grid size, a
      positive render scale, a matrix camera rotation, a 3-vector
      camera position and a number fov. */
  function ShapeOf(k: string): Option<Shape>
  {
    if k == "canvas_size" then Some(Vector(2))
    else if k == "buffer_size" then Some(Vector(2))
    else if k == "grid_size" then Some(Vector(3))
    else if k == "render_scale" then Some(Positive)
    else if k == "camera_rotation" then Some(Matrix4)
    else if k == "camera_position" then Some(Vector(3))
    else if k == "fov" then Some(Number)
    else None
  }

  /** Every field listed by `ShapeOf` is present with its shape. */
  ghost predicate Shaped(u: Record)
  {
    forall k :: ShapeOf(k).Some? ==> Get(u, k).Some? && Matches(Get(u, k).value, ShapeOf(k).value)
  }

  lemma DefaultsShaped(gridWidth: real, gridHeight: real)
    ensures Shaped(Defaults(gridWidth, gridHeight))
  {
    forall k | ShapeOf(k).Some?
      ensures Get(Defaults(gridWidth, gridHeight), k).Some? && Matches(Get(Defaults(gridWidth, gridHeight), k).value, ShapeOf(k).value)
    {
      DefaultsGet(gridWidth, gridHeight, k);
    }
  }

  /** The record keeps the shapes the renderer relies on, packs to
      numbers only, and fills `n` slots. */
  ghost predicate Fits(u: Record, n: nat)
  {
    Shaped(u) && AllWellFormed(u) && SlotSum(u) == n
  }

  /** The default record fits a buffer of 40 numbers. */
  lemma DefaultsFit(gridWidth: real, gridHeight: real)
    ensures Fits(Defaults(gridWidth, gridHeight), 40) && |Pack(Defaults(gridWidth, gridHeight))| == 40
  {
    DefaultsPack(gridWidth, gridHeight);
    DefaultsShaped(gridWidth, gridHeight);
    DefaultsWellFormed(gridWidth, gridHeight);
  }

  /** Overwriting a listed field with a value of its shape keeps the
      record fitting its buffer. */
  lemma SetKeeps(u: Record, u': Record, n: nat, k: string, v: Value)
    requires Fits(u, n) && ShapeOf(k).Some? && Matches(v, ShapeOf(k).value)
    requires u' == Set(u, k, v)
    ensures Fits(u', n)
  {
    MatchesSlots(Get(u, k).value, v, ShapeOf(k).value);
    SetSameSlots(u, k, v);
  }

  class WebGLManager {
    var uniforms: Record
    /** The canvas element's pixel size: the capped client size in scaled
        pixels. */
    var canvasPixels: (int, int)
    const program: Handle
    const vertexBuffer: Handle
    const uniformBuffer: Handle
    /** The height texture the shader samples. */
    var heightTexture: Handle
    /** Every height texture `reloadImage` destroyed, in order. */
    var releasedTextures: seq<Handle>
    /** The uniform buffer's contents, one float per slot. */
    var uniformData: seq<Float>

    /** The record keeps its shapes and its 40 slots. */
    ghost predicate Valid()
      reads this`uniforms
    {
      Fits(uniforms, 40)
    }

    /** `new WebGLManager(canvas, fragment, texture)`: the default record,
        a uniform buffer sized from the first packing, then
        `synchronize`. */
    constructor (prog: Handle, vertices: Handle, buffer: Handle, texture: Handle, gridWidth: nat, gridHeight: nat,
                 clientWidth: nat, clientHeight: nat)
      ensures Valid()
      ensures uniforms == Synced(Defaults(gridWidth as real, gridHeight as real), clientWidth, clientHeight)
      ensures canvasPixels == Capped(clientWidth, clientHeight)
      ensures program == prog && vertexBuffer == vertices && uniformBuffer == buffer && heightTexture == texture
      ensures releasedTextures == []
      ensures |uniformData| == 40
    {
      program := prog;
      vertexBuffer := vertices;
      uniformBuffer := buffer;
      heightTexture := texture;
      releasedTextures := [];
      uniformData := seq(40, _ => Real(0.0));
      DefaultsFit(gridWidth as real, gridHeight as real);
      // synchronize, at the default render scale of 1
      var size := Capped(clientWidth, clientHeight);
      var d := Defaults(gridWidth as real, gridHeight as real);
      var u := Set(d, "canvas_size", Value.Vec([size.0 as real, size.1 as real]));
      SetKeeps(d, u, 40, "canvas_size", Value.Vec([size.0 as real, size.1 as real]));
      WholePixels(size.0);
      WholePixels(size.1);
      canvasPixels := ScaledSize([size.0 as real, size.1 as real], 1.0);
      uniforms := u;
    }

    /** `render()`: reallocates the uniform buffer with the whole packing,
        whatever its length, and draws into a viewport of the canvas in
        scaled pixels. */
    method Render() returns (viewport: (int, int))
      requires Valid()
      modifies this`uniformData
      ensures uniformData == Pack(uniforms)
      ensures viewport == ScaledSize(VecOf(uniforms, "canvas_size"), ScalarOf(uniforms, "render_scale"))
    {
      uniformData := Pack(uniforms);
      viewport := ScaledSize(VecOf(uniforms, "canvas_size"), ScalarOf(uniforms, "render_scale"));
    }

    /** `synchronize()`: the client size, capped at 2560×1440, goes into
        `canvas_size`; the canvas element gets that size in scaled
        pixels. */
    method Synchronize(clientWidth: nat, clientHeight: nat)
      requires Valid()
      modifies this`uniforms, this`canvasPixels
      ensures Valid()
      ensures uniforms == Synced(old(uniforms), clientWidth, clientHeight)
      ensures canvasPixels == ScaledSize(VecOf(uniforms, "canvas_size"), ScalarOf(uniforms, "render_scale"))
      ensures ScalarOf(uniforms, "render_scale") == ScalarOf(old(uniforms), "render_scale")
    {
      var size := Capped(clientWidth, clientHeight);
      var u := Set(uniforms, "canvas_size", Value.Vec([size.0 as real, size.1 as real]));
      SetKeeps(uniforms, u, 40, "canvas_size", Value.Vec([size.0 as real, size.1 as real]));
      canvasPixels := ScaledSize([size.0 as real, size.1 as real], ScalarOf(uniforms, "render_scale"));
      uniforms := u;
    }

    /** `reloadImage(image)`: the old height texture is destroyed and the
        new image's texture takes its place; `grid_size` becomes the image
        size with a depth of 256, in place, so the record keeps its shape
        and its slot count. */
    method ReloadImage(image: Handle, width: nat, height: nat)
      requires Valid()
      modifies this`heightTexture, this`releasedTextures, this`uniforms
      ensures Valid()
      ensures heightTexture == image
      ensures releasedTextures == old(releasedTextures) + [old(heightTexture)]
      ensures uniforms == Set(old(uniforms), "grid_size", Value.Vec([width as real, height as real, 256.0]))
    {
      var u := Set(uniforms, "grid_size", Value.Vec([width as real, height as real, 256.0]));
      SetKeeps(uniforms, u, 40, "grid_size", Value.Vec([width as real, height as real, 256.0]));
      releasedTextures := releasedTextures + [heightTexture];
      heightTexture := image;
      uniforms := u;
    }

    /** `screenshot()`: the texture size and the read-back size. */
    function Screenshot(): (r: ((int, int), (int, int)))
      reads this`uniforms
      requires Valid()
      ensures r == ScreenshotSizes(VecOf(uniforms, "buffer_size"), VecOf(uniforms, "canvas_size"),
        ScalarOf(uniforms, "render_scale"))
    {
      ScreenshotSizes(VecOf(uniforms, "buffer_size"), VecOf(uniforms, "canvas_size"),
        ScalarOf(uniforms, "render_scale"))
    }
  }

  /** A canvas size `c` in pixels of render scale `rs`, as the canvas
      element and the viewport take it. */
  function ScaledSize(c: seq<real>, rs: real): (n: (int, int))
    requires |c| == 2 && rs > 0.0
    ensures c[0] >= 0.0 ==> n.0 >= 0 && (n.0 as real) * rs <= c[0] < ((n.0 + 1) as real) * rs
    ensures c[1] >= 0.0 ==> n.1 >= 0 && (n.1 as real) * rs <= c[1] < ((n.1 + 1) as real) * rs
  {
    (TruncScaled(c[0], rs), TruncScaled(c[1], rs))
  }

  /** At render scale 1 a whole pixel count is its own scaled size. */
  lemma WholePixels(x: int)
    requires x >= 0
    ensures TruncScaled(x as real, 1.0) == x
  {
    var n := TruncScaled(x as real, 1.0);
    assert (n as real) * 1.0 == n as real;
    assert ((n + 1) as real) * 1.0 == (n + 1) as real;
  }

  /** The record after `synchronize` with a client size of `w`×`h`. */
  function Synced(u: Record, w: int, h: int): Record
  {
    var size := Capped(w, h);
    Set(u, "canvas_size", Value.Vec([size.0 as real, size.1 as real]))
  }

  /** Synchronizing twice to the same size is synchronizing once, and the
      canvas size stored is the capped client size. */
  lemma SyncedIdempotent(u: Record, w: int, h: int)
    ensures Synced(Synced(u, w, h), w, h) == Synced(u, w, h)
    ensures Get(Synced(u, w, h), "canvas_size") ==
      Some(Value.Vec([Min(w, BaseWidth) as real, Min(h, BaseHeight) as real]))
  {
    var size := Capped(w, h);
    SetTwice(u, "canvas_size", Value.Vec([size.0 as real, size.1 as real]),
      Value.Vec([size.0 as real, size.1 as real]));
  }
}

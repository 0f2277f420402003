/** The WebGL2 raymarcher's `WebGLManager`
    (raymarcher/view/webgl_manager.js): its uniform record, the programs
    `setup` builds from the composed shader sources, the uniform buffer
    each `setup` creates, the upload and viewports of `render`,
    `synchronize` and `refresh`. GL state calls are left to the GPU. */
module WebGlManager {
  import opened Wrappers
  import opened Values
  import opened Uniforms
  import opened Lifecycle
  import opened Numbers
  import Matrix

  /** The uniform record the constructor builds, in its key order and in
      the groups of four slots the source lays it out in. */
  function Defaults(): Record
  {
    Sizes() + Accumulation() + View() + Shading() + Marching() + Lighting() + Custom()
  }
  function Sizes(): Record
  {
    [ ("canvas_size", Value.Vec([2560.0, 1440.0])),
      ("buffer_size", Value.Vec([2560.0, 1440.0])) ]
  }
  function Accumulation(): Record
  {
    [ ("render_scale", Scalar(1.0)),
      ("temporal_counter", Scalar(1.0)),
      ("focus_distance", Scalar(1.0)),
      ("focus_strength", Scalar(0.0)) ]
  }
  function View(): Record
  {
    [ ("camera_rotation", List(Matrix.Mat(1.0))),
      ("camera_position", Value.Vec([0.0, -3.0, 0.0])),
      ("fov", Scalar(1.0)) ]
  }
  function Shading(): Record
  {
    [ ("sun_direction", Value.Vec([1.0, 1.0, 1.0])),
      ("shader_mode", Scalar(1.0)) ]
  }
  function Marching(): Record
  {
    [ ("max_bounces", Scalar(3.0)),
      ("max_marches", Scalar(50.0)),
      ("epsilon", Scalar(0.001)),
      ("normals_precision", Scalar(0.0001)) ]
  }
  function Lighting(): Record
  {
    [ ("detail", Scalar(10.0)),
      ("sun_intensity", Scalar(100.0)),
      ("sky_intensity", Scalar(0.5)),
      ("custom_a", Scalar(-2.0)) ]
  }
  function Custom(): Record
  {
    [ ("custom_b", Scalar(1.0)),
      ("custom_c", Scalar(0.5)),
      ("custom_d", Scalar(2.0)),
      ("custom_e", Scalar(2.0)) ]
  }

  /** Every default field packs to numbers. */
  lemma DefaultsWellFormed()
    ensures AllWellFormed(Defaults())
  {
    Fields2(Sizes()[0], Sizes()[1]);
    assert Sizes() == [Sizes()[0], Sizes()[1]];
    Fields4(Accumulation()[0], Accumulation()[1], Accumulation()[2], Accumulation()[3]);
    assert Accumulation() == [Accumulation()[0], Accumulation()[1], Accumulation()[2], Accumulation()[3]];
    Fields3(View()[0], View()[1], View()[2]);
    assert View() == [View()[0], View()[1], View()[2]];
    Fields2(Shading()[0], Shading()[1]);
    assert Shading() == [Shading()[0], Shading()[1]];
    Fields4(Marching()[0], Marching()[1], Marching()[2], Marching()[3]);
    assert Marching() == [Marching()[0], Marching()[1], Marching()[2], Marching()[3]];
    Fields4(Lighting()[0], Lighting()[1], Lighting()[2], Lighting()[3]);
    assert Lighting() == [Lighting()[0], Lighting()[1], Lighting()[2], Lighting()[3]];
    Fields4(Custom()[0], Custom()[1], Custom()[2], Custom()[3]);
    assert Custom() == [Custom()[0], Custom()[1], Custom()[2], Custom()[3]];
    AllWellFormedAppend(Sizes(), Accumulation());
    AllWellFormedAppend(Sizes() + Accumulation(), View());
    AllWellFormedAppend(Sizes() + Accumulation() + View(), Shading());
    AllWellFormedAppend(Sizes() + Accumulation() + View() + Shading(), Marching());
    AllWellFormedAppend(Sizes() + Accumulation() + View() + Shading() + Marching(), Lighting());
    AllWellFormedAppend(Sizes() + Accumulation() + View() + Shading() + Marching() + Lighting(), Custom());
  }

  /** The default record packs to 44 numbers, all of them numbers, in groups
      of four. */
  lemma DefaultsPack()
    ensures |Pack(Defaults())| == 44 && |Pack(Defaults())| % 4 == 0
    ensures AllReal(Pack(Defaults()))
    ensures SlotSum(Defaults()) == 44
  {
    DefaultsWellFormed();
    Fields2(Sizes()[0], Sizes()[1]);
    assert Sizes() == [Sizes()[0], Sizes()[1]];
    Fields4(Accumulation()[0], Accumulation()[1], Accumulation()[2], Accumulation()[3]);
    assert Accumulation() == [Accumulation()[0], Accumulation()[1], Accumulation()[2], Accumulation()[3]];
    Fields3(View()[0], View()[1], View()[2]);
    assert View() == [View()[0], View()[1], View()[2]];
    Fields2(Shading()[0], Shading()[1]);
    assert Shading() == [Shading()[0], Shading()[1]];
    Fields4(Marching()[0], Marching()[1], Marching()[2], Marching()[3]);
    assert Marching() == [Marching()[0], Marching()[1], Marching()[2], Marching()[3]];
    Fields4(Lighting()[0], Lighting()[1], Lighting()[2], Lighting()[3]);
    assert Lighting() == [Lighting()[0], Lighting()[1], Lighting()[2], Lighting()[3]];
    Fields4(Custom()[0], Custom()[1], Custom()[2], Custom()[3]);
    assert Custom() == [Custom()[0], Custom()[1], Custom()[2], Custom()[3]];
    SlotSumAppend(Sizes(), Accumulation());
    SlotSumAppend(Sizes() + Accumulation(), View());
    SlotSumAppend(Sizes() + Accumulation() + View(), Shading());
    SlotSumAppend(Sizes() + Accumulation() + View() + Shading(), Marching());
    SlotSumAppend(Sizes() + Accumulation() + View() + Shading() + Marching(), Lighting());
    SlotSumAppend(Sizes() + Accumulation() + View() + Shading() + Marching() + Lighting(), Custom());
    PackWellFormed(Defaults());
  }

  lemma SizesGet(k: string)
    ensures Get(Sizes(), k) ==
      if k == "canvas_size" then Some(Value.Vec([2560.0, 1440.0]))
      else if k == "buffer_size" then Some(Value.Vec([2560.0, 1440.0]))
      else None
  {
  }

  lemma AccumulationGet(k: string)
    ensures Get(Accumulation(), k) ==
      if k == "render_scale" then Some(Scalar(1.0))
      else if k == "temporal_counter" then Some(Scalar(1.0))
      else if k == "focus_distance" then Some(Scalar(1.0))
      else if k == "focus_strength" then Some(Scalar(0.0))
      else None
  {
  }

  lemma ViewGet(k: string)
    ensures Get(View(), k) ==
      if k == "camera_rotation" then Some(List(Matrix.Mat(1.0)))
      else if k == "camera_position" then Some(Value.Vec([0.0, -3.0, 0.0]))
      else if k == "fov" then Some(Scalar(1.0))
      else None
  {
  }

  lemma ShadingGet(k: string)
    ensures Get(Shading(), k) ==
      if k == "sun_direction" then Some(Value.Vec([1.0, 1.0, 1.0]))
      else if k == "shader_mode" then Some(Scalar(1.0))
      else None
  {
  }

  lemma MarchingGet(k: string)
    ensures Get(Marching(), k) ==
      if k == "max_bounces" then Some(Scalar(3.0))
      else if k == "max_marches" then Some(Scalar(50.0))
      else if k == "epsilon" then Some(Scalar(0.001))
      else if k == "normals_precision" then Some(Scalar(0.0001))
      else None
  {
  }

  lemma LightingGet(k: string)
    ensures Get(Lighting(), k) ==
      if k == "detail" then Some(Scalar(10.0))
      else if k == "sun_intensity" then Some(Scalar(100.0))
      else if k == "sky_intensity" then Some(Scalar(0.5))
      else if k == "custom_a" then Some(Scalar(-2.0))
      else None
  {
  }

  lemma CustomGet(k: string)
    ensures Get(Custom(), k) ==
      if k == "custom_b" then Some(Scalar(1.0))
      else if k == "custom_c" then Some(Scalar(0.5))
      else if k == "custom_d" then Some(Scalar(2.0))
      else if k == "custom_e" then Some(Scalar(2.0))
      else None
  {
  }

  /** Looking a field up in the default record. */
  lemma DefaultsGet(k: string)
    ensures Get(Defaults(), k) ==
      if k == "canvas_size" then Some(Value.Vec([2560.0, 1440.0]))
      else if k == "buffer_size" then Some(Value.Vec([2560.0, 1440.0]))
      else if k == "render_scale" then Some(Scalar(1.0))
      else if k == "temporal_counter" then Some(Scalar(1.0))
      else if k == "focus_distance" then Some(Scalar(1.0))
      else if k == "focus_strength" then Some(Scalar(0.0))
      else if k == "camera_rotation" then Some(List(Matrix.Mat(1.0)))
      else if k == "camera_position" then Some(Value.Vec([0.0, -3.0, 0.0]))
      else if k == "fov" then Some(Scalar(1.0))
      else if k == "sun_direction" then Some(Value.Vec([1.0, 1.0, 1.0]))
      else if k == "shader_mode" then Some(Scalar(1.0))
      else if k == "max_bounces" then Some(Scalar(3.0))
      else if k == "max_marches" then Some(Scalar(50.0))
      else if k == "epsilon" then Some(Scalar(0.001))
      else if k == "normals_precision" then Some(Scalar(0.0001))
      else if k == "detail" then Some(Scalar(10.0))
      else if k == "sun_intensity" then Some(Scalar(100.0))
      else if k == "sky_intensity" then Some(Scalar(0.5))
      else if k == "custom_a" then Some(Scalar(-2.0))
      else if k == "custom_b" then Some(Scalar(1.0))
      else if k == "custom_c" then Some(Scalar(0.5))
      else if k == "custom_d" then Some(Scalar(2.0))
      else if k == "custom_e" then Some(Scalar(2.0))
      else None
  {
    SizesGet(k);
    AccumulationGet(k);
    ViewGet(k);
    ShadingGet(k);
    MarchingGet(k);
    LightingGet(k);
    CustomGet(k);
    GetAppend(Sizes(), Accumulation(), k);
    GetAppend(Sizes() + Accumulation(), View(), k);
    GetAppend(Sizes() + Accumulation() + View(), Shading(), k);
    GetAppend(Sizes() + Accumulation() + View() + Shading(), Marching(), k);
    GetAppend(Sizes() + Accumulation() + View() + Shading() + Marching(), Lighting(), k);
    GetAppend(Sizes() + Accumulation() + View() + Shading() + Marching() + Lighting(), Custom(), k);
  }

  /** The shape of each field the renderer or its engine rewrites: a
      2-vector canvas size, a positive render scale, number temporal
      counter, fov, shading mode and custom parameters, a matrix camera rotation
      and 3-vector camera position and sun direction. */
  function ShapeOf(k: string): Option<Shape>
  {
    if k == "canvas_size" then Some(Vector(2))
    else if k == "render_scale" then Some(Positive)
    else if k == "temporal_counter" then Some(Number)
    else if k == "camera_rotation" then Some(Matrix4)
    else if k == "camera_position" then Some(Vector(3))
    else if k == "fov" then Some(Number)
    else if k == "sun_direction" then Some(Vector(3))
    else if k == "shader_mode" then Some(Number)
    else if k == "custom_a" then Some(Number)
    else if k == "custom_b" then Some(Number)
    else if k == "custom_c" then Some(Number)
    else if k == "custom_d" then Some(Number)
    else if k == "custom_e" then Some(Number)
    else None
  }

  /** Every field listed by `ShapeOf` is present with its shape. */
  ghost predicate Shaped(u: Record)
  {
    forall k :: ShapeOf(k).Some? ==> Get(u, k).Some? && Matches(Get(u, k).value, ShapeOf(k).value)
  }

  lemma DefaultsShaped()
    ensures Shaped(Defaults())
  {
    forall k | ShapeOf(k).Some?
      ensures Get(Defaults(), k).Some? && Matches(Get(Defaults(), k).value, ShapeOf(k).value)
    {
      DefaultsGet(k);
    }
  }

  /** The record keeps the shapes the renderer relies on, packs to
      numbers only, and fills `n` slots. */
  ghost predicate Fits(u: Record, n: nat)
  {
    Shaped(u) && AllWellFormed(u) && SlotSum(u) == n
  }

  /** The default record fits a buffer of 44 numbers. */
  lemma DefaultsFit()
    ensures Fits(Defaults(), 44) && |Pack(Defaults())| == 44
  {
    DefaultsPack();
    DefaultsShaped();
    DefaultsWellFormed();
  }

  /** Overwriting a listed field with a value of its shape keeps the
      record fitting its buffer. */
  lemma SetKeeps(u: Record, u': Record, n: nat, k: string, v: Value)
    requires Fits(u, n) && ShapeOf(k).Some? && Matches(v, ShapeOf(k).value)
    requires u' == Set(u, k, v)
    ensures Fits(u', n)
  {
    MatchesSlots(Get(u, k).value, v, ShapeOf(k).value);
    SetSameSlots(u, k, v);
  }

  /** A linked program, identified by the fragment source it was built
      from; the vertex stage is the same fixed full-screen quad for every
      program. */
  datatype Program = Program(fragment: string)

  /** How `setup` ended: both programs built, or `makeProgram` threw while
      building the compute or the render program. */
  datatype SetupOutcome = Ready | ComputeFailed | RenderFailed

  /** The compute fragment source each entry point compiles: the
      constructor appends the SDF source directly, `recompile` puts a line
      break between them. */
  function ComputeSource(compute: string, sdf: string, separated: bool): (s: string)
    ensures |s| == |compute| + |sdf| + (if separated then 1 else 0)
    ensures s[..|compute|] == compute && s[|s| - |sdf|..] == sdf
    ensures separated ==> s[|compute|] == '\n'
  {
    if separated then compute + "\n" + sdf else compute + sdf
  }

  /** The two compositions never agree: the recompiled source is one
      character longer. */
  lemma SourcesDiffer(compute: string, sdf: string)
    ensures ComputeSource(compute, sdf, false) != ComputeSource(compute, sdf, true)
  {
    assert |ComputeSource(compute, sdf, true)| == |ComputeSource(compute, sdf, false)| + 1;
  }

  /** The compute pass's viewport for a canvas of size `c` at render
      scale `rs`: the scaled pixels covering the canvas, and no more. */
  function ComputeViewport(c: seq<real>, rs: real): (v: (int, int))
    requires |c| == 2 && rs > 0.0
    ensures (v.0 as real) * rs >= c[0] && ((v.0 - 1) as real) * rs < c[0]
    ensures (v.1 as real) * rs >= c[1] && ((v.1 - 1) as real) * rs < c[1]
  {
    (CeilScaled(c[0], rs), CeilScaled(c[1], rs))
  }

  /** The render pass's viewport: the whole canvas, in whole pixels (the
      GL size argument truncates). */
  function CanvasViewport(c: seq<real>): (v: (int, int))
    requires |c| == 2
    ensures c[0] >= 0.0 ==> v.0 as real <= c[0] < v.0 as real + 1.0
    ensures c[1] >= 0.0 ==> v.1 as real <= c[1] < v.1 as real + 1.0
  {
    (Trunc(c[0]), Trunc(c[1]))
  }

  class WebGLManager {
    var uniforms: Record
    /** The canvas element's pixel size. */
    var canvasSize: (int, int)
    const computeShaderCode: string
    const renderShaderCode: string
    /** Created once by the constructor. */
    const vertexBuffer: Handle
    const colorBuffer: Handle
    const frameBuffer: Handle
    var computeProgram: Option<Program>
    var renderProgram: Option<Program>
    var uniformBuffer: Option<Handle>
    /** Every uniform buffer `setup` created, in order. */
    var uniformBuffers: seq<Handle>
    /** The uniform buffer's contents, one float per slot. */
    var uniformData: seq<Float>

    /** The record keeps its shapes and its 44 slots. */
    ghost predicate Valid()
      reads this`uniforms
    {
      Fits(uniforms, 44)
    }

    /** The state before `setup`: the default record, the vertex buffer,
        the colour texture and the framebuffer it draws into. */
    constructor Init(compute: string, render: string, vertices: Handle, color: Handle, frame: Handle)
      ensures Valid()
      ensures uniforms == Defaults()
      ensures computeShaderCode == compute && renderShaderCode == render
      ensures vertexBuffer == vertices && colorBuffer == color && frameBuffer == frame
      ensures computeProgram.None? && renderProgram.None? && uniformBuffer.None?
      ensures uniformBuffers == [] && uniformData == []
      ensures canvasSize == (BaseWidth, BaseHeight)
    {
      computeShaderCode := compute;
      renderShaderCode := render;
      vertexBuffer := vertices;
      colorBuffer := color;
      frameBuffer := frame;
      computeProgram := None;
      renderProgram := None;
      uniformBuffer := None;
      uniformBuffers := [];
      uniformData := [];
      canvasSize := (BaseWidth, BaseHeight);
      DefaultsFit();
      uniforms := Defaults();
    }

    /** `setup(computeSource, renderSource)`: builds the compute program,
        then the render program (either may throw, and what was assigned
        before the throw stays), then creates a fresh uniform buffer sized
        from the packing. `computeOk`/`renderOk` are the GL compiler's and
        linker's verdicts; `buffer` is the buffer GL creates. */
    method Setup(computeSource: string, renderSource: string, computeOk: bool, renderOk: bool, buffer: Handle)
      returns (outcome: SetupOutcome)
      requires Valid()
      modifies this`computeProgram, this`renderProgram, this`uniformBuffer, this`uniformBuffers, this`uniformData
      ensures outcome == Ready <==> computeOk && renderOk
      ensures outcome == ComputeFailed <==> !computeOk
      ensures computeProgram == if computeOk then Some(Program(computeSource)) else old(computeProgram)
      ensures renderProgram == if outcome == Ready then Some(Program(renderSource)) else old(renderProgram)
      ensures outcome == Ready ==> uniformBuffer == Some(buffer) && uniformBuffers == old(uniformBuffers) + [buffer]
      ensures outcome == Ready ==> |uniformData| == 44 && |uniformData| == |Pack(uniforms)|
      ensures outcome != Ready ==> uniformBuffer == old(uniformBuffer) && uniformBuffers == old(uniformBuffers)
      ensures outcome != Ready ==> uniformData == old(uniformData)
    {
      if !computeOk {
        return ComputeFailed;
      }
      computeProgram := Some(Program(computeSource));
      if !renderOk {
        return RenderFailed;
      }
      renderProgram := Some(Program(renderSource));
      PackWellFormed(uniforms);
      var size := |Pack(uniforms)|;
      uniformBuffer := Some(buffer);
      uniformBuffers := uniformBuffers + [buffer];
      uniformData := seq(size, _ => Real(0.0));
      outcome := Ready;
    }

    /** `recompile(sdf)`: `setup` again with the stored compute source, a
        line break and the new SDF source, and the stored render source.
        The record, the colour texture, the framebuffer and the vertex
        buffer are untouched. */
    method Recompile(sdf: string, computeOk: bool, renderOk: bool, buffer: Handle)
      returns (outcome: SetupOutcome)
      requires Valid()
      modifies this`computeProgram, this`renderProgram, this`uniformBuffer, this`uniformBuffers, this`uniformData
      ensures outcome == Ready <==> computeOk && renderOk
      ensures outcome == ComputeFailed <==> !computeOk
      ensures computeProgram == if computeOk then Some(Program(ComputeSource(computeShaderCode, sdf, true))) else old(computeProgram)
      ensures renderProgram == if outcome == Ready then Some(Program(renderShaderCode)) else old(renderProgram)
      ensures outcome == Ready ==> uniformBuffer == Some(buffer) && uniformBuffers == old(uniformBuffers) + [buffer]
      ensures outcome == Ready ==> |uniformData| == 44 && |uniformData| == |Pack(uniforms)|
      ensures outcome != Ready ==> uniformBuffer == old(uniformBuffer) && uniformBuffers == old(uniformBuffers)
      ensures outcome != Ready ==> uniformData == old(uniformData)
    {
      outcome := Setup(ComputeSource(computeShaderCode, sdf, true), renderShaderCode, computeOk, renderOk, buffer);
    }

    /** `render()`: uploads the whole packing, reallocating the buffer,
        and draws the compute pass into a viewport of the canvas in scaled
        pixels, then the render pass over the whole canvas. With no uniform
        buffer bound the upload is a GL error that stores nothing, and with
        a program missing the draws fail the same way; neither throws, so
        the viewports are set all the same. */
    method Render() returns (compute: (int, int), render: (int, int))
      requires Valid()
      modifies this`uniformData
      ensures uniformBuffer.Some? ==> uniformData == Pack(uniforms)
      ensures uniformBuffer.None? ==> uniformData == old(uniformData)
      ensures compute == ComputeViewport(VecOf(uniforms, "canvas_size"), ScalarOf(uniforms, "render_scale"))
      ensures render == CanvasViewport(VecOf(uniforms, "canvas_size"))
    {
      if uniformBuffer.Some? {
        uniformData := Pack(uniforms);
      }
      compute := ComputeViewport(VecOf(uniforms, "canvas_size"), ScalarOf(uniforms, "render_scale"));
      render := CanvasViewport(VecOf(uniforms, "canvas_size"));
    }

    /** `synchronize()`: the client size, capped at 2560×1440, goes into
        `canvas_size` and onto the canvas element. */
    method Synchronize(clientWidth: int, clientHeight: int)
      requires Valid()
      modifies this`uniforms, this`canvasSize
      ensures Valid()
      ensures canvasSize == Capped(clientWidth, clientHeight)
      ensures uniforms == Synced(old(uniforms), clientWidth, clientHeight)
    {
      var size := Capped(clientWidth, clientHeight);
      var u := Set(uniforms, "canvas_size", Value.Vec([size.0 as real, size.1 as real]));
      SetKeeps(uniforms, u, 44, "canvas_size", Value.Vec([size.0 as real, size.1 as real]));
      canvasSize := size;
      uniforms := u;
    }

    /** `refresh()`: the accumulation restarts at 1. */
    method Refresh()
      requires Valid()
      modifies this`uniforms
      ensures Valid()
      ensures uniforms == Set(old(uniforms), "temporal_counter", Scalar(1.0))
    {
      var u := Set(uniforms, "temporal_counter", Scalar(1.0));
      SetKeeps(uniforms, u, 44, "temporal_counter", Scalar(1.0));
      uniforms := u;
    }
  }

  /** `new WebGLManager(canvas, compute, render, sdf)`: the initial state,
      `setup` on the compute source followed directly by the SDF source,
      then `synchronize`. A throw from `setup` escapes the constructor, so
      no manager results. */
  method Open(compute: string, render: string, sdf: string, vertices: Handle, color: Handle, frame: Handle,
              computeOk: bool, renderOk: bool, buffer: Handle, clientWidth: int, clientHeight: int)
    returns (r: Option<WebGLManager>)
    ensures r.Some? <==> computeOk && renderOk
    ensures r.Some? ==> fresh(r.value) && r.value.Valid()
    ensures r.Some? ==> r.value.computeProgram == Some(Program(ComputeSource(compute, sdf, false)))
    ensures r.Some? ==> r.value.renderProgram == Some(Program(render))
    ensures r.Some? ==> r.value.uniformBuffers == [buffer] && |r.value.uniformData| == 44
    ensures r.Some? ==> r.value.uniforms == Synced(Defaults(), clientWidth, clientHeight)
    ensures r.Some? ==> r.value.canvasSize == Capped(clientWidth, clientHeight)
  {
    var m := new WebGLManager.Init(compute, render, vertices, color, frame);
    var outcome := m.Setup(ComputeSource(compute, sdf, false), render, computeOk, renderOk, buffer);
    if outcome != Ready {
      return None;
    }
    m.Synchronize(clientWidth, clientHeight);
    r := Some(m);
  }

  /** The record after `synchronize` with a client size of `w`×`h`. */
  function Synced(u: Record, w: int, h: int): Record
  {
    var size := Capped(w, h);
    Set(u, "canvas_size", Value.Vec([size.0 as real, size.1 as real]))
  }

  /** Synchronizing twice to the same size is synchronizing once, and the
      canvas size stored is the capped client size. */
  lemma SyncedIdempotent(u: Record, w: int, h: int)
    ensures Synced(Synced(u, w, h), w, h) == Synced(u, w, h)
    ensures Get(Synced(u, w, h), "canvas_size") ==
      Some(Value.Vec([Min(w, BaseWidth) as real, Min(h, BaseHeight) as real]))
  {
    var size := Capped(w, h);
    SetTwice(u, "canvas_size", Value.Vec([size.0 as real, size.1 as real]),
      Value.Vec([size.0 as real, size.1 as real]));
  }
}

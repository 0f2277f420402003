/** The WebGL2 grid simulator of pong/particle_simulator.js: a grid of
    squares blended frame to frame through two colour textures, each with
    its own framebuffer. Its uniform record holds `vec` vectors and is
    packed by the vector/matrix/scalar dispatch. GL calls are left to the
    GPU; `Math.random` and `Math.sqrt` are values handed in. */
module Pong {
  import opened Wrappers
  import opened Values
  import opened Uniforms
  import opened Numbers
  import opened Lifecycle
  import Vector

  /** `square_size`, the side of one grid square in pixels. */
  const SquareSize: nat := 20
  /** `particle_count`. */
  const ParticleCount: nat := 1

  /** `max_grid_size` as line 21 computes it: both components divide the
      render height, so the grid may hold no more than 72 columns. */
  function MaxGridSizeAsWritten(): (r: (int, int))
    ensures r == (72, 72)
  {
    assert BaseHeight as real / SquareSize as real == 72.0;
    (Floor(BaseHeight as real / SquareSize as real), Floor(BaseHeight as real / SquareSize as real))
  }

  /** `max_grid_size` as evidently intended: the whole squares in the
      largest render size, 128 columns by 72 rows. */
  function MaxGridSize(): (r: (int, int))
    ensures r == (128, 72)
  {
    assert BaseWidth as real / SquareSize as real == 128.0;
    assert BaseHeight as real / SquareSize as real == 72.0;
    (Floor(BaseWidth as real / SquareSize as real), Floor(BaseHeight as real / SquareSize as real))
  }

  /** The uniform record, in its key order: `canvas_size`, `buffer_size`,
      `grid_size` (2-vectors), `gap`, `blend`, `frame`. */
  datatype Settings = Settings(canvasSize: (real, real), bufferSize: (real, real),
                               gridSize: (real, real), gap: real, blend: real, frame: real)

  /** The record the constructor builds: canvas and buffer at the largest
      render size, the grid at `max_grid_size`. */
  function DefaultSettings(): Settings
  {
    Settings((BaseWidth as real, BaseHeight as real), (BaseWidth as real, BaseHeight as real),
      (MaxGridSize().0 as real, MaxGridSize().1 as real), 0.9, 1.0 / 510.0, 0.0)
  }

  function Vec2(p: (real, real)): Value
  {
    Value.Vec([p.0, p.1])
  }

  /** The record as the JavaScript object `packUniforms` walks. */
  function AsRecord(u: Settings): Record
  {
    [ ("canvas_size", Vec2(u.canvasSize)),
      ("buffer_size", Vec2(u.bufferSize)),
      ("grid_size", Vec2(u.gridSize)),
      ("gap", Scalar(u.gap)),
      ("blend", Scalar(u.blend)),
      ("frame", Scalar(u.frame)) ]
  }

  /** The nine floats of the uniform block, in the order the shaders read
      them. */
  function Layout(u: Settings): seq<real>
  {
    [ u.canvasSize.0, u.canvasSize.1, u.bufferSize.0, u.bufferSize.1,
      u.gridSize.0, u.gridSize.1, u.gap, u.blend, u.frame ]
  }

  lemma PackSnoc(u: Record, x: (string, Value))
    ensures Pack(u + [x]) == Pack(u) + Contribution(x.1)
  {
    assert (u + [x])[..|u|] == u;
  }

  lemma Vec2Contribution(p: (real, real))
    ensures Contribution(Vec2(p)) == Reals([p.0, p.1])
  {
    assert Vector.Test(Vec2(p));
  }

  lemma ScalarContribution(n: real)
    ensures Contribution(Scalar(n)) == [Real(n)]
  {
    assert !Vector.Test(Scalar(n));
  }

  /** The dispatch packing of any record of this shape is its nine-float
      layout: each vector opens into its two components, each number is
      itself. */
  lemma {:induction false} PackLayout(u: Settings)
    ensures Pack(AsRecord(u)) == Reals(Layout(u))
    ensures |Pack(AsRecord(u))| == 9
  {
    var r := AsRecord(u);
    assert r == [r[0]] + [r[1]] + [r[2]] + [r[3]] + [r[4]] + [r[5]];
    var p1 := [r[0]];
    assert Pack(p1) == Reals([u.canvasSize.0, u.canvasSize.1]) by {
      PackSnoc([], r[0]);
      assert [] + [r[0]] == p1;
      Vec2Contribution(u.canvasSize);
    }
    var p2 := p1 + [r[1]];
    assert Pack(p2) == Reals(Layout(u)[..4]) by {
      PackSnoc(p1, r[1]);
      Vec2Contribution(u.bufferSize);
    }
    var p3 := p2 + [r[2]];
    assert Pack(p3) == Reals(Layout(u)[..6]) by {
      PackSnoc(p2, r[2]);
      Vec2Contribution(u.gridSize);
    }
    var p4 := p3 + [r[3]];
    assert Pack(p4) == Reals(Layout(u)[..7]) by {
      PackSnoc(p3, r[3]);
      ScalarContribution(u.gap);
    }
    var p5 := p4 + [r[4]];
    assert Pack(p5) == Reals(Layout(u)[..8]) by {
      PackSnoc(p4, r[4]);
      ScalarContribution(u.blend);
    }
    assert Pack(p5 + [r[5]]) == Reals(Layout(u)) by {
      PackSnoc(p5, r[5]);
      ScalarContribution(u.frame);
    }
  }

  /** The canvas size `synchronize` keeps for a client size of `w`×`h`,
      and the grid of whole squares inside it. */
  function SyncedSizes(w: nat, h: nat): (r: ((int, int), (int, int)))
    ensures r.0 == Capped(w, h)
    ensures 0 <= r.1.0 && r.1.0 * SquareSize <= r.0.0 < (r.1.0 + 1) * SquareSize
    ensures 0 <= r.1.1 && r.1.1 * SquareSize <= r.0.1 < (r.1.1 + 1) * SquareSize
  {
    var size := Capped(w, h);
    var gw := FloorScaled(size.0 as real, SquareSize as real);
    var gh := FloorScaled(size.1 as real, SquareSize as real);
    assert (gw as real) * 20.0 == (gw * 20) as real;
    assert ((gw + 1) as real) * 20.0 == ((gw + 1) * 20) as real;
    assert (gh as real) * 20.0 == (gh * 20) as real;
    assert ((gh + 1) as real) * 20.0 == ((gh + 1) * 20) as real;
    (size, (gw, gh))
  }

  /** With `max_grid_size` as written, a client 2560 pixels wide makes
      `synchronize` set a grid of 128 columns, past the 72 columns the
      colour textures were allocated with. */
  lemma GridOverflowsAsWritten()
    ensures SyncedSizes(2560, 1440).1 == (128, 72)
    ensures SyncedSizes(2560, 1440).1.0 > MaxGridSizeAsWritten().0
  {
    var r := SyncedSizes(2560, 1440);
    assert r.0 == (2560, 1440);
  }

  /** With the intended `max_grid_size`, every grid `synchronize` can set
      fits the colour textures. */
  lemma GridFits(w: nat, h: nat)
    ensures 0 <= SyncedSizes(w, h).1.0 <= MaxGridSize().0
    ensures 0 <= SyncedSizes(w, h).1.1 <= MaxGridSize().1
  {
  }

  /** The record after `synchronize` with a client size of `w`×`h`. */
  function Synced(u: Settings, w: nat, h: nat): Settings
  {
    var s := SyncedSizes(w, h);
    u.(canvasSize := (s.0.0 as real, s.0.1 as real), gridSize := (s.1.0 as real, s.1.1 as real))
  }

  /** One sample of `Math.random` scaled into [min, max). */
  function Sample(r: real, max: real, min: real): real { r * (max - min) + min }

  /** A sample in [0, 1) scales into [min, max). */
  lemma SampleRange(r: real, max: real, min: real)
    requires 0.0 <= r < 1.0 && min < max
    ensures min <= Sample(r, max, min) < max
  {
    MulMonotone(0.0, r, max - min);
    MulStrict(r, 1.0, max - min);
  }

  /** `randomPositions(n, max, min)`: 3n coordinates, each one sample of
      `Math.random` scaled into [min, max). */
  method RandomPositions(n: nat, max: real, min: real, random: seq<real>) returns (positions: seq<real>)
    requires |random| == 3 * n
    ensures |positions| == 3 * n
    ensures forall i :: 0 <= i < |positions| ==> positions[i] == Sample(random[i], max, min)
  {
    positions := [];
    for j := 0 to n
      invariant |positions| == 3 * j
      invariant forall i :: 0 <= i < |positions| ==> positions[i] == Sample(random[i], max, min)
    {
      var x := Sample(random[3 * j], max, min);
      var y := Sample(random[3 * j + 1], max, min);
      var z := Sample(random[3 * j + 2], max, min);
      positions := positions + [x, y, z];
    }
  }

  /** A random coordinate in [-1, 1) from one sample. */
  function Signed(r: real): real { r * 2.0 - 1.0 }

  /** One velocity component: the coordinate divided by its triple's
      length and scaled by `multiplier`; 0 / 0 is NaN. */
  function Component(r: real, length: real, multiplier: real): Float
  {
    if length == 0.0 then NaN else Real(Signed(r) / length * multiplier)
  }

  /** `randomVelocities(n, multiplier)`: 3n components, each triple a
      random direction divided by its length (`lengths` holds the square
      roots `Math.sqrt` returns) and scaled by `multiplier`. */
  method RandomVelocities(n: nat, multiplier: real, random: seq<real>, lengths: seq<real>)
    returns (velocities: seq<Float>)
    requires |random| == 3 * n && |lengths| == n
    ensures |velocities| == 3 * n
    ensures forall i :: 0 <= i < |velocities| ==> velocities[i] == Component(random[i], lengths[i / 3], multiplier)
  {
    velocities := [];
    for j := 0 to n
      invariant |velocities| == 3 * j
      invariant forall i :: 0 <= i < |velocities| ==> velocities[i] == Component(random[i], lengths[i / 3], multiplier)
    {
      var length := lengths[j];
      var x := Component(random[3 * j], length, multiplier);
      var y := Component(random[3 * j + 1], length, multiplier);
      var z := Component(random[3 * j + 2], length, multiplier);
      assert (3 * j) / 3 == j && (3 * j + 1) / 3 == j && (3 * j + 2) / 3 == j;
      velocities := velocities + [x, y, z];
    }
  }

  /** The GL objects the constructor creates: two colour textures and two
      framebuffers, the first attached to the first texture and the second
      to the second. */
  datatype GlObjects = GlObjects(color: (Handle, Handle), frame: (Handle, Handle), uniform: Handle)

  /** What one `draw` reads and writes. */
  datatype Passes = Passes(
    blendTarget: Handle,      // framebuffer the blend and particle passes render into
    blendSource: Handle,      // texture the blend pass samples
    gridSource: Handle,       // texture the grid pass samples
    gridViewport: (int, int),
    canvasViewport: (int, int),
    gridInstances: real)

  class ParticleSimulator {
    var uniforms: Settings
    /** The canvas element's pixel size. */
    var canvasPixels: (int, int)
    var colorBuffer: (Handle, Handle)
    var frameBuffer: (Handle, Handle)
    /** The colour texture each framebuffer has attached. */
    const attachment: map<Handle, Handle>
    /** The size both colour textures are allocated at. */
    const textureSize: (int, int)
    const uniformBuffer: Handle
    const uniformBufferBytes: nat
    var uniformData: seq<Float>

    /** Each framebuffer still renders into the texture at its own position
        in the colour pair, the two textures differ, and the grid fits the
        textures. */
    ghost predicate Valid()
      reads this`uniforms, this`colorBuffer, this`frameBuffer
    {
      colorBuffer.0 != colorBuffer.1 &&
      frameBuffer.0 in attachment && attachment[frameBuffer.0] == colorBuffer.0 &&
      frameBuffer.1 in attachment && attachment[frameBuffer.1] == colorBuffer.1 &&
      textureSize == MaxGridSize() && uniformBufferBytes == 36 &&
      0.0 <= uniforms.gridSize.0 <= textureSize.0 as real &&
      0.0 <= uniforms.gridSize.1 <= textureSize.1 as real
    }

    /** `new ParticleSimulator(...)` once the WebGL2 context exists and the
        programs are built: the record, the textures at `max_grid_size`,
        each framebuffer attached to its texture, then `synchronize`. */
    constructor (gl: GlObjects, clientWidth: nat, clientHeight: nat)
      requires gl.color.0 != gl.color.1 && gl.frame.0 != gl.frame.1
      ensures Valid()
      ensures uniforms == Synced(DefaultSettings(), clientWidth, clientHeight)
      ensures canvasPixels == Capped(clientWidth, clientHeight)
      ensures colorBuffer == gl.color && frameBuffer == gl.frame && uniformBuffer == gl.uniform
      ensures textureSize == (128, 72)
      ensures uniformBufferBytes == 36 && |uniformData| == 9
    {
      var d := DefaultSettings();
      PackLayout(d);
      uniformBufferBytes := 4 * |Pack(AsRecord(d))|;
      uniformData := seq(9, _ => Real(0.0));
      uniformBuffer := gl.uniform;
      textureSize := MaxGridSize();
      colorBuffer := gl.color;
      frameBuffer := gl.frame;
      attachment := map[gl.frame.0 := gl.color.0, gl.frame.1 := gl.color.1];
      // synchronize
      GridFits(clientWidth, clientHeight);
      canvasPixels := Capped(clientWidth, clientHeight);
      uniforms := Synced(d, clientWidth, clientHeight);
    }

    /** `draw()`: uploads the packing, renders the blend and particle
        passes into `frame_buffer[0]` while sampling `color_buffer[1]`,
        draws the grid from `color_buffer[0]`, swaps both pairs together and
        counts the frame. */
    method Draw() returns (p: Passes)
      requires Valid()
      modifies this`uniforms, this`colorBuffer, this`frameBuffer, this`uniformData
      ensures Valid()
      ensures uniformData == Pack(AsRecord(old(uniforms))) && 4 * |uniformData| == uniformBufferBytes
      ensures uniforms == old(uniforms).(frame := old(uniforms).frame + 1.0)
      ensures colorBuffer == Swapped(old(colorBuffer)) && frameBuffer == Swapped(old(frameBuffer))
      ensures p.blendTarget == old(frameBuffer).0 && p.blendSource == old(colorBuffer).1
      ensures p.gridSource == old(colorBuffer).0
      // the blend pass never samples the texture it renders into
      ensures p.blendTarget in attachment && attachment[p.blendTarget] != p.blendSource
      // the grid shows what the blend pass just rendered
      ensures attachment[p.blendTarget] == p.gridSource
      ensures p.gridViewport == (Trunc(uniforms.gridSize.0), Trunc(uniforms.gridSize.1))
      ensures p.canvasViewport == (Trunc(uniforms.canvasSize.0), Trunc(uniforms.canvasSize.1))
      ensures p.gridInstances == uniforms.gridSize.0 * uniforms.gridSize.1
    {
      PackLayout(uniforms);
      uniformData := Pack(AsRecord(uniforms));
      p := Passes(frameBuffer.0, colorBuffer.1, colorBuffer.0,
        (Trunc(uniforms.gridSize.0), Trunc(uniforms.gridSize.1)),
        (Trunc(uniforms.canvasSize.0), Trunc(uniforms.canvasSize.1)),
        uniforms.gridSize.0 * uniforms.gridSize.1);
      colorBuffer := Swapped(colorBuffer);
      frameBuffer := Swapped(frameBuffer);
      uniforms := uniforms.(frame := uniforms.frame + 1.0);
    }

    /** `synchronize()`: the canvas takes the client size capped at the
        largest render size, and the grid the whole squares inside it. */
    method Synchronize(clientWidth: nat, clientHeight: nat)
      requires Valid()
      modifies this`uniforms, this`canvasPixels
      ensures Valid()
      ensures uniforms == Synced(old(uniforms), clientWidth, clientHeight)
      ensures canvasPixels == Capped(clientWidth, clientHeight)
    {
      GridFits(clientWidth, clientHeight);
      canvasPixels := Capped(clientWidth, clientHeight);
      uniforms := Synced(uniforms, clientWidth, clientHeight);
    }
  }

  /** `ParticleSimulator.initialize` and the constructor: without a WebGL2
      context, or when a shader fails to compile or a program to link, the
      constructor throws and no simulator exists. */
  method Initialize(hasWebGl2: bool, programsBuilt: bool, gl: GlObjects, clientWidth: nat, clientHeight: nat)
    returns (r: Option<ParticleSimulator>)
    requires gl.color.0 != gl.color.1 && gl.frame.0 != gl.frame.1
    ensures r.Some? <==> hasWebGl2 && programsBuilt
    ensures r.Some? ==> fresh(r.value) && r.value.Valid() && r.value.uniforms.frame == 0.0
  {
    if !hasWebGl2 || !programsBuilt {
      return None;
    }
    var s := new ParticleSimulator(gl, clientWidth, clientHeight);
    return Some(s);
  }
}

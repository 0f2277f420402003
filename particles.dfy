/** The WebGL2 particle simulator of particles/particle_simulator.js: a
    grid of coloured squares fed by a transform-feedback particle pass. Its
    uniform object holds `{width, height}` sizes rather than vectors and is
    packed with `Object.values`; every draw swaps the colour, position and
    velocity ping-pong pairs and counts a frame. GL calls are left to the
    GPU; `Math.random` is a sequence of samples handed in. */
module Particles {
  import opened Wrappers
  import opened Values
  import opened Uniforms
  import opened Numbers
  import opened Lifecycle

  /** `square_size`, the side of one grid square in pixels. */
  const SquareSize: nat := 20
  /** `particle_count`. */
  const ParticleCount: nat := 100

  /** A `{width, height}` object. */
  datatype Size = Size(width: real, height: real)

  /** The uniform object, in its key order: `buffer_size`, `canvas_size`,
      `grid_size`, `gap`, `blend`, `frame`. */
  datatype Settings = Settings(bufferSize: Size, canvasSize: Size, gridSize: Size,
                               gap: real, blend: real, frame: real)

  /** The uniform object the constructor builds: the grid covers the whole
      2560×1440 buffer, and the canvas size is zero until `synchronize`. */
  function DefaultSettings(): Settings
  {
    Settings(Size(BaseWidth as real, BaseHeight as real), Size(0.0, 0.0),
      Size(Floor(BaseWidth as real / SquareSize as real) as real,
           Floor(BaseHeight as real / SquareSize as real) as real),
      0.75, 0.1, 0.0)
  }

  /** The grid size the constructor allocates both colour textures at. */
  lemma DefaultGrid()
    ensures DefaultSettings().gridSize == Size(128.0, 72.0)
  {
    assert BaseWidth as real / SquareSize as real == 128.0;
    assert BaseHeight as real / SquareSize as real == 72.0;
  }

  function SizeFields(s: Size): Fields
  {
    [("width", s.width), ("height", s.height)]
  }

  /** The uniform object as the JavaScript record `packUniforms` walks. */
  function AsRecord(u: Settings): Record
  {
    [ ("buffer_size", Rec(SizeFields(u.bufferSize))),
      ("canvas_size", Rec(SizeFields(u.canvasSize))),
      ("grid_size", Rec(SizeFields(u.gridSize))),
      ("gap", Scalar(u.gap)),
      ("blend", Scalar(u.blend)),
      ("frame", Scalar(u.frame)) ]
  }

  /** The nine floats of the uniform block, in the order the shaders read
      them. */
  function Layout(u: Settings): seq<real>
  {
    [ u.bufferSize.width, u.bufferSize.height, u.canvasSize.width, u.canvasSize.height,
      u.gridSize.width, u.gridSize.height, u.gap, u.blend, u.frame ]
  }

  lemma PackValuesSnoc(u: Record, x: (string, Value))
    ensures PackValues(u + [x]) == PackValues(u) + ValuesContribution(x.1)
  {
    assert (u + [x])[..|u|] == u;
  }

  /** The `Object.values` packing of any uniform object is its nine-float
      layout: each size opens into width then height, each number is
      itself. */
  lemma {:induction false} PackLayout(u: Settings)
    ensures PackValues(AsRecord(u)) == Reals(Layout(u))
    ensures |PackValues(AsRecord(u))| == 9
  {
    var r := AsRecord(u);
    var f := Reals(Layout(u));
    assert r == [r[0]] + [r[1]] + [r[2]] + [r[3]] + [r[4]] + [r[5]];
    var p1 := [r[0]];
    assert PackValues(p1) == f[..2] by {
      PackValuesSnoc([], r[0]);
      assert [] + [r[0]] == p1;
      SizeValues(u.bufferSize);
    }
    var p2 := p1 + [r[1]];
    assert PackValues(p2) == f[..4] by {
      PackValuesSnoc(p1, r[1]);
      SizeValues(u.canvasSize);
    }
    var p3 := p2 + [r[2]];
    assert PackValues(p3) == f[..6] by {
      PackValuesSnoc(p2, r[2]);
      SizeValues(u.gridSize);
    }
    var p4 := p3 + [r[3]];
    assert PackValues(p4) == f[..7] by {
      PackValuesSnoc(p3, r[3]);
    }
    var p5 := p4 + [r[4]];
    assert PackValues(p5) == f[..8] by {
      PackValuesSnoc(p4, r[4]);
    }
    assert PackValues(p5 + [r[5]]) == f by {
      PackValuesSnoc(p5, r[5]);
      assert f == f[..8] + [f[8]];
    }
  }

  /** A size opens into its width then its height. */
  lemma SizeValues(s: Size)
    ensures ValuesContribution(Rec(SizeFields(s))) == [Real(s.width), Real(s.height)]
  {
  }

  /** The uniform object after `synchronize` with a client size of
      `w`×`h`: the canvas takes the client size capped at the buffer size,
      the grid the number of whole squares inside it. */
  function Synced(u: Settings, w: nat, h: nat): Settings
    requires u.bufferSize.width >= 0.0 && u.bufferSize.height >= 0.0
  {
    var width := MinReal(w as real, u.bufferSize.width);
    var height := MinReal(h as real, u.bufferSize.height);
    u.(canvasSize := Size(width, height),
       gridSize := Size(FloorScaled(width, SquareSize as real) as real,
                        FloorScaled(height, SquareSize as real) as real))
  }

  /** `synchronize` with the constructor's buffer size keeps the grid inside
      the 128×72 colour textures, and each grid dimension counts exactly the
      whole squares the canvas holds. */
  lemma SyncedGridFits(u: Settings, w: nat, h: nat)
    requires u.bufferSize == DefaultSettings().bufferSize
    ensures 0.0 <= Synced(u, w, h).gridSize.width <= 128.0
    ensures 0.0 <= Synced(u, w, h).gridSize.height <= 72.0
    ensures Synced(u, w, h).gridSize.width * SquareSize as real <= Synced(u, w, h).canvasSize.width
            < (Synced(u, w, h).gridSize.width + 1.0) * SquareSize as real
    ensures Synced(u, w, h).gridSize.height * SquareSize as real <= Synced(u, w, h).canvasSize.height
            < (Synced(u, w, h).gridSize.height + 1.0) * SquareSize as real
  {
    var s := Synced(u, w, h);
    var gw := FloorScaled(s.canvasSize.width, SquareSize as real);
    var gh := FloorScaled(s.canvasSize.height, SquareSize as real);
    assert (gw as real) * 20.0 <= 2560.0;
    assert (gh as real) * 20.0 <= 1440.0;
    assert ((gw + 1) as real) == gw as real + 1.0;
    assert ((gh + 1) as real) == gh as real + 1.0;
  }

  /** `createPositions(n)`: n points on the x axis, x uniform in
      [-1, 1) from the first of each triple of `Math.random` samples, y and
      z drawn and then overwritten with 0. */
  method CreatePositions(n: nat, random: seq<real>) returns (positions: seq<real>)
    requires |random| == 3 * n
    ensures |positions| == 3 * n
    ensures forall i :: 0 <= i < |positions| ==>
      positions[i] == if i % 3 == 0 then random[i] * 2.0 + -1.0 else 0.0
    ensures forall i :: 0 <= i < |positions| && i % 3 == 0 && 0.0 <= random[i] < 1.0 ==>
      -1.0 <= positions[i] < 1.0
  {
    var max, min := 1.0, -1.0;
    positions := [];
    for j := 0 to n
      invariant |positions| == 3 * j
      invariant forall i :: 0 <= i < |positions| ==>
        positions[i] == if i % 3 == 0 then random[i] * 2.0 + -1.0 else 0.0
    {
      var x := random[3 * j] * (max - min) + min;
      var y := random[3 * j + 1] * (max - min) + min;
      var z := random[3 * j + 2] * (max - min) + min;
      y := 0.0;
      z := 0.0;
      positions := positions + [x, y, z];
    }
  }

  /** `createVelocities(n)`: n copies of (0, 1, 0) scaled by 0.02. */
  method CreateVelocities(n: nat) returns (velocities: seq<real>)
    ensures |velocities| == 3 * n
    ensures forall i :: 0 <= i < |velocities| ==> velocities[i] == if i % 3 == 1 then 0.02 else 0.0
  {
    var multiplier := 0.02;
    velocities := [];
    for j := 0 to n
      invariant |velocities| == 3 * j
      invariant forall i :: 0 <= i < |velocities| ==> velocities[i] == if i % 3 == 1 then 0.02 else 0.0
    {
      var x, y, z := 0.0, 1.0, 0.0;
      velocities := velocities + [x * multiplier, y * multiplier, z * multiplier];
    }
  }

  /** The GL objects the constructor creates, in pairs where it ping-pongs
      them. */
  datatype GlObjects = GlObjects(color: (Handle, Handle), position: (Handle, Handle),
                                 velocity: (Handle, Handle), frame: Handle, uniform: Handle)

  /** What one `draw` reads and writes. */
  datatype Passes = Passes(
    blendTarget: Handle,            // texture the blend pass renders into
    blendSource: Handle,            // texture the blend pass samples
    particleSource: (Handle, Handle), // position and velocity buffers read
    particleTarget: (Handle, Handle), // position and velocity buffers captured into
    gridSource: Handle,             // texture the grid pass samples
    gridViewport: (int, int),
    canvasViewport: (int, int),
    gridInstances: real)

  class ParticleSimulator {
    var uniforms: Settings
    /** The canvas element's pixel size. */
    var canvasPixels: (int, int)
    var colorBuffer: (Handle, Handle)
    var positionBuffer: (Handle, Handle)
    var velocityBuffer: (Handle, Handle)
    /** `frame_buffer` is one framebuffer object, not a pair: `draw` swaps
        its properties "0" and "1", which nothing ever sets. */
    const frameBuffer: Handle
    var frameBufferSlots: (Option<Handle>, Option<Handle>)
    const uniformBuffer: Handle
    const uniformBufferBytes: nat
    var uniformData: seq<Float>
    /** The size both colour textures are allocated at: the constructor's
        `grid_size`. */
    const textureSize: (real, real)
    /** The initial particle data uploaded into the first buffer of each
        pair. */
    const positionData: seq<real>
    const velocityData: seq<real>

    /** The buffer size never changes, the grid stays inside the colour
        textures, and the framebuffer's "0"/"1" properties stay undefined. */
    ghost predicate Valid()
      reads this`uniforms, this`frameBufferSlots
    {
      uniforms.bufferSize == DefaultSettings().bufferSize &&
      textureSize == (128.0, 72.0) && uniformBufferBytes == 36 &&
      0.0 <= uniforms.gridSize.width <= textureSize.0 &&
      0.0 <= uniforms.gridSize.height <= textureSize.1 &&
      frameBufferSlots == (None, None)
    }

    /** `new ParticleSimulator(...)` once the WebGL2 context exists: the
        particle data, the GL objects, a uniform buffer sized from the
        first packing, then `synchronize`. */
    constructor (gl: GlObjects, random: seq<real>, clientWidth: nat, clientHeight: nat)
      requires |random| == 3 * ParticleCount
      ensures Valid()
      ensures uniforms == Synced(DefaultSettings(), clientWidth, clientHeight)
      ensures canvasPixels == (Trunc(uniforms.canvasSize.width), Trunc(uniforms.canvasSize.height))
      ensures colorBuffer == gl.color && positionBuffer == gl.position && velocityBuffer == gl.velocity
      ensures frameBuffer == gl.frame && uniformBuffer == gl.uniform
      ensures uniformBufferBytes == 36 && |uniformData| == 9
      ensures |positionData| == |velocityData| == 3 * ParticleCount
    {
      var positions := CreatePositions(ParticleCount, random);
      var velocities := CreateVelocities(ParticleCount);
      positionData := positions;
      velocityData := velocities;
      colorBuffer := gl.color;
      positionBuffer := gl.position;
      velocityBuffer := gl.velocity;
      frameBuffer := gl.frame;
      frameBufferSlots := (None, None);
      uniformBuffer := gl.uniform;
      var d := DefaultSettings();
      PackLayout(d);
      uniformBufferBytes := 4 * |PackValues(AsRecord(d))|;
      uniformData := seq(9, _ => Real(0.0));
      DefaultGrid();
      textureSize := (d.gridSize.width, d.gridSize.height);
      // synchronize
      SyncedGridFits(d, clientWidth, clientHeight);
      var u := Synced(d, clientWidth, clientHeight);
      canvasPixels := (Trunc(u.canvasSize.width), Trunc(u.canvasSize.height));
      uniforms := u;
    }

    /** `draw()`: uploads the packing, blends `color_buffer[1]` into
        `color_buffer[0]`, runs the particles from the first buffers of
        their pairs into the second, draws the grid from `color_buffer[0]`,
        then swaps every pair and counts the frame. */
    method Draw() returns (p: Passes)
      requires Valid()
      modifies this`uniforms, this`colorBuffer, this`positionBuffer, this`velocityBuffer,
        this`frameBufferSlots, this`uniformData
      ensures Valid()
      ensures uniformData == PackValues(AsRecord(old(uniforms)))
      ensures 4 * |uniformData| == uniformBufferBytes
      ensures uniforms == old(uniforms).(frame := old(uniforms).frame + 1.0)
      ensures colorBuffer == Swapped(old(colorBuffer))
      ensures positionBuffer == Swapped(old(positionBuffer))
      ensures velocityBuffer == Swapped(old(velocityBuffer))
      ensures frameBufferSlots == (None, None)
      ensures p.blendTarget == old(colorBuffer).0 == p.gridSource && p.blendSource == old(colorBuffer).1
      ensures p.particleSource == (old(positionBuffer).0, old(velocityBuffer).0)
      // the buffers written become the next draw's sources
      ensures p.particleTarget == (positionBuffer.0, velocityBuffer.0)
      ensures p.gridViewport == (Trunc(uniforms.gridSize.width), Trunc(uniforms.gridSize.height))
      ensures p.canvasViewport == (Trunc(uniforms.canvasSize.width), Trunc(uniforms.canvasSize.height))
      ensures p.gridInstances == uniforms.gridSize.width * uniforms.gridSize.height
    {
      PackLayout(uniforms);
      uniformData := PackValues(AsRecord(uniforms));
      p := Passes(colorBuffer.0, colorBuffer.1,
        (positionBuffer.0, velocityBuffer.0), (positionBuffer.1, velocityBuffer.1),
        colorBuffer.0,
        (Trunc(uniforms.gridSize.width), Trunc(uniforms.gridSize.height)),
        (Trunc(uniforms.canvasSize.width), Trunc(uniforms.canvasSize.height)),
        uniforms.gridSize.width * uniforms.gridSize.height);
      colorBuffer := Swapped(colorBuffer);
      frameBufferSlots := Swapped(frameBufferSlots);
      positionBuffer := Swapped(positionBuffer);
      velocityBuffer := Swapped(velocityBuffer);
      uniforms := uniforms.(frame := uniforms.frame + 1.0);
    }

    /** `synchronize()`: the canvas takes the client size capped at the
        buffer size, and the grid the whole squares inside it. */
    method Synchronize(clientWidth: nat, clientHeight: nat)
      requires Valid()
      modifies this`uniforms, this`canvasPixels
      ensures Valid()
      ensures uniforms == Synced(old(uniforms), clientWidth, clientHeight)
      ensures canvasPixels == (Trunc(uniforms.canvasSize.width), Trunc(uniforms.canvasSize.height))
    {
      SyncedGridFits(uniforms, clientWidth, clientHeight);
      var u := Synced(uniforms, clientWidth, clientHeight);
      canvasPixels := (Trunc(u.canvasSize.width), Trunc(u.canvasSize.height));
      uniforms := u;
    }
  }

  /** `ParticleSimulator.initialize` and the constructor: without a WebGL2
      context, or when one of the three programs fails to compile or link
      (the feedback varyings relink included), the constructor throws and
      no simulator exists. `programsBuilt` says whether every build
      succeeded. */
  method Initialize(hasWebGl2: bool, programsBuilt: bool, gl: GlObjects, random: seq<real>,
                    clientWidth: nat, clientHeight: nat)
    returns (r: Option<ParticleSimulator>)
    requires |random| == 3 * ParticleCount
    ensures r.Some? <==> hasWebGl2 && programsBuilt
    ensures r.Some? ==> fresh(r.value) && r.value.Valid() && r.value.uniforms.frame == 0.0
  {
    if !hasWebGl2 || !programsBuilt {
      return None;
    }
    var s := new ParticleSimulator(gl, random, clientWidth, clientHeight);
    return Some(s);
  }

  /** The frame counter and the pairs after `n` draws: the counter grows by
      exactly `n`, and every pair is back in place after an even number. */
  function DrawnSettings(u: Settings, n: nat): (r: Settings)
  {
    if n == 0 then u else DrawnSettings(u, n - 1).(frame := DrawnSettings(u, n - 1).frame + 1.0)
  }

  lemma {:induction false} DrawnCountsFrames(u: Settings, n: nat)
    ensures DrawnSettings(u, n) == u.(frame := u.frame + n as real)
  {
    if n > 0 {
      DrawnCountsFrames(u, n - 1);
    }
  }
}

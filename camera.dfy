/** The camera of utility/camera.js: which movement keys are held, whether
    the mouse has captured it, and its rotation in degrees, with the
    horizontal angle reduced by JavaScript's `%` and the vertical angle
    clamped to [−90, 90]. The trigonometry that turns a key direction or an
    orbit into a new position is outside the model: those positions arrive
    as parameters. */
module CameraControl {
  import opened Numbers
  import opened Vector

  /** The keys the key handlers record: w, a, s, d, q and e. */
  predicate MovementKey(k: string)
  {
    k == "w" || k == "a" || k == "s" || k == "d" || k == "q" || k == "e"
  }

  /** `!!key_states[k]`: a key never seen counts as released. */
  predicate Held(keys: map<string, bool>, k: string)
  {
    k in keys && keys[k]
  }

  /** One axis of the local direction: the positive key adds 1, the
      negative key subtracts 1, so opposing keys cancel. */
  function Axis(plus: bool, minus: bool): (a: real)
    ensures a == 0.0 <==> plus == minus
    ensures a == 1.0 <==> plus && !minus
    ensures a == -1.0 <==> minus && !plus
  {
    (if plus then 1.0 else 0.0) - (if minus then 1.0 else 0.0)
  }

  /** An angle after `updateRotation` adds `d` mouse units at the given
      sensitivity and field of view, before any reduction or clamp. */
  function Turned(angle: real, d: real, sensitivity: real, fov: real): real
  {
    angle + d * sensitivity * MinReal(fov, 1.0)
  }

  /** `updateRotation(dh, dv)`: both angles turn, then the horizontal one
      loses whole turns with the sign-keeping `%` and the vertical one is
      clamped to [−90, 90]. */
  function Rotated(r: (real, real), dh: real, dv: real, sensitivity: real, fov: real): (q: (real, real))
    ensures -360.0 < q.0 < 360.0
    ensures Turned(r.0, dh, sensitivity, fov) >= 0.0 ==> q.0 >= 0.0
    ensures Turned(r.0, dh, sensitivity, fov) <= 0.0 ==> q.0 <= 0.0
    ensures Turned(r.0, dh, sensitivity, fov) - q.0 == (Trunc(Turned(r.0, dh, sensitivity, fov) / 360.0) as real) * 360.0
    ensures -90.0 <= q.1 <= 90.0
    ensures -90.0 <= Turned(r.1, dv, sensitivity, fov) <= 90.0 ==> q.1 == Turned(r.1, dv, sensitivity, fov)
    ensures Turned(r.1, dv, sensitivity, fov) > 90.0 ==> q.1 == 90.0
    ensures Turned(r.1, dv, sensitivity, fov) < -90.0 ==> q.1 == -90.0
  {
    var x := Turned(r.0, dh, sensitivity, fov);
    var y := Turned(r.1, dv, sensitivity, fov);
    (JsRemReal(x, 360.0), MaxReal(MinReal(y, 90.0), -90.0))
  }

  /** A horizontal angle inside one turn is its own remainder. */
  lemma WithinTurn(x: real)
    requires -360.0 < x < 360.0
    ensures JsRemReal(x, 360.0) == x
  {
    var q := x / 360.0;
    assert -1.0 < q < 1.0;
    assert Trunc(q) == 0;
  }

  /** Every rotation `updateRotation` leaves is a fixed point of a turn by
      nothing, so a second reduction and clamp change nothing. */
  lemma RotatedSettles(r: (real, real), dh: real, dv: real, sensitivity: real, fov: real)
    ensures var q := Rotated(r, dh, dv, sensitivity, fov);
      Rotated(q, 0.0, 0.0, sensitivity, fov) == q
  {
    var q := Rotated(r, dh, dv, sensitivity, fov);
    assert Turned(q.0, 0.0, sensitivity, fov) == q.0;
    assert Turned(q.1, 0.0, sensitivity, fov) == q.1;
    WithinTurn(q.0);
  }

  /** A key direction component `d` at the camera's speed, as the drag
      `updateOrbit` divides by the sensitivity. */
  function Drag(d: real, speed: real, sensitivity: real): real
    requires sensitivity > 0.0
  {
    d * speed / sensitivity
  }

  /** Scroll up makes the camera 1.25 times faster, scroll down 1.25 times
      slower. */
  function Scrolled(speed: real, deltaY: real): (s: real)
    ensures deltaY < 0.0 ==> s == speed * 1.25
    ensures deltaY >= 0.0 ==> s * 1.25 == speed
  {
    if deltaY < 0.0 then speed * 1.25 else speed / 1.25
  }

  /** Scrolling up and then down restores the speed. */
  lemma ScrollUpDown(speed: real)
    ensures Scrolled(Scrolled(speed, -1.0), 1.0) == speed
  {
  }

  /** The rotation after `n` move handlers have each run `updateRotation`
      by the same drag, one after another. */
  function Spun(r: (real, real), n: nat, dh: real, dv: real, sensitivity: real, fov: real): (q: (real, real))
    ensures n == 0 ==> q == r
    ensures n > 0 ==> -360.0 < q.0 < 360.0 && -90.0 <= q.1 <= 90.0
  {
    if n == 0 then r else Rotated(Spun(r, n - 1, dh, dv, sensitivity, fov), dh, dv, sensitivity, fov)
  }

  /** Handlers that turn by nothing agree with a single one, however many
      are registered. */
  lemma {:induction false} SpunStill(r: (real, real), n: nat, sensitivity: real, fov: real)
    requires n > 0
    ensures Spun(r, n, 0.0, 0.0, sensitivity, fov) == Rotated(r, 0.0, 0.0, sensitivity, fov)
  {
    if n > 1 {
      SpunStill(r, n - 1, sensitivity, fov);
      RotatedSettles(r, 0.0, 0.0, sensitivity, fov);
    }
  }

  /** The local direction `getLocalDirection` builds from the held keys. */
  function LocalDirection(keys: map<string, bool>): (d: Triple)
    ensures |d| == 3
    ensures d[0] == Axis(Held(keys, "d"), Held(keys, "a"))
    ensures d[1] == Axis(Held(keys, "w"), Held(keys, "s"))
    ensures d[2] == Axis(Held(keys, "e"), Held(keys, "q"))
  {
    [Axis(Held(keys, "d"), Held(keys, "a")), Axis(Held(keys, "w"), Held(keys, "s")), Axis(Held(keys, "e"), Held(keys, "q"))]
  }

  /** The direction is zero exactly when each pair of opposed keys agrees,
      so holding no key, or both keys of every pair, leaves it zero. */
  lemma LocalDirectionZero(keys: map<string, bool>)
    ensures LocalDirection(keys) == [0.0, 0.0, 0.0] <==>
      Held(keys, "d") == Held(keys, "a") && Held(keys, "w") == Held(keys, "s") && Held(keys, "e") == Held(keys, "q")
  {
    var d := LocalDirection(keys);
    if Held(keys, "d") == Held(keys, "a") && Held(keys, "w") == Held(keys, "s") && Held(keys, "e") == Held(keys, "q") {
      assert d == [0.0, 0.0, 0.0];
    }
  }

  class Camera {
    var position: Triple
    /** (x, y) in degrees: x turns about the vertical axis, y tilts. */
    var rotation: (real, real)
    var fov: real
    var speed: real
    var sensitivity: real
    var freeMode: bool
    var orbitMode: bool
    var orbitAnchor: Triple
    /** Set while a mouse button pressed on the canvas is held. */
    var enabled: bool
    var keyStates: map<string, bool>
    /** How many pairs of mouse-move and mouse-up handlers presses on the
        canvas have registered on the document and not yet removed. */
    var handlers: nat

    ghost predicate Valid()
      reads this`sensitivity
    {
      sensitivity > 0.0
    }

    /** `new Camera(canvas, position, rotation, fov, speed, sensitivity,
        free_mode, orbit_mode, orbit_anchor)`. */
    constructor (position: Triple, rotation: (real, real), fov: real, speed: real, sensitivity: real,
                 freeMode: bool, orbitMode: bool, orbitAnchor: Triple)
      requires sensitivity > 0.0
      ensures Valid()
      ensures this.position == position && this.rotation == rotation
      ensures this.fov == fov && this.speed == speed && this.sensitivity == sensitivity
      ensures this.freeMode == freeMode && this.orbitMode == orbitMode && this.orbitAnchor == orbitAnchor
      ensures !enabled && keyStates == map[] && handlers == 0
    {
      this.position := position;
      this.rotation := rotation;
      this.fov := fov;
      this.speed := speed;
      this.sensitivity := sensitivity;
      this.freeMode := freeMode;
      this.orbitMode := orbitMode;
      this.orbitAnchor := orbitAnchor;
      enabled := false;
      keyStates := map[];
      handlers := 0;
    }

    /** `new Camera(canvas)` with every default: at the origin, level,
        fov 0.5, speed 0.05, sensitivity 0.2, neither free nor orbiting. */
    constructor Default()
      ensures Valid()
      ensures position == [0.0, 0.0, 0.0] && rotation == (0.0, 0.0)
      ensures fov == 0.5 && speed == 0.05 && sensitivity == 0.2
      ensures !freeMode && !orbitMode && orbitAnchor == [0.0, 0.0, 0.0]
      ensures !enabled && keyStates == map[] && handlers == 0
    {
      position := [0.0, 0.0, 0.0];
      rotation := (0.0, 0.0);
      fov := 0.5;
      speed := 0.05;
      sensitivity := 0.2;
      freeMode := false;
      orbitMode := false;
      orbitAnchor := [0.0, 0.0, 0.0];
      enabled := false;
      keyStates := map[];
      handlers := 0;
    }

    /** The document `keydown` handler: records a movement key as held. */
    method KeyDown(key: string)
      modifies this`keyStates
      ensures keyStates == if MovementKey(key) then old(keyStates)[key := true] else old(keyStates)
    {
      if MovementKey(key) {
        keyStates := keyStates[key := true];
      }
    }

    /** The document `keyup` handler: records a movement key as released. */
    method KeyUp(key: string)
      modifies this`keyStates
      ensures keyStates == if MovementKey(key) then old(keyStates)[key := false] else old(keyStates)
    {
      if MovementKey(key) {
        keyStates := keyStates[key := false];
      }
    }

    /** `mousedown` on the canvas: the camera is enabled and one more pair
        of move and exit handlers goes on the document, beside any that an
        earlier press left there. */
    method MouseDown()
      modifies this`enabled, this`handlers
      ensures enabled && handlers == old(handlers) + 1
    {
      enabled := true;
      handlers := handlers + 1;
    }

    /** `mouseup` on the document: every registered exit handler runs,
        disabling the camera and removing itself and its move handler;
        without a prior press there is no handler and nothing changes. */
    method MouseUp()
      modifies this`enabled, this`handlers
      ensures handlers == 0
      ensures enabled == (old(enabled) && old(handlers) == 0)
    {
      if handlers > 0 {
        enabled := false;
        handlers := 0;
      }
    }

    /** `getLocalDirection`: x = d − a, y = w − s and z = e − q over the
        held keys, each in {−1, 0, 1}. */
    method GetLocalDirection() returns (d: Triple)
      ensures d == LocalDirection(keyStates)
      ensures d[0] == Axis(Held(keyStates, "d"), Held(keyStates, "a"))
      ensures d[1] == Axis(Held(keyStates, "w"), Held(keyStates, "s"))
      ensures d[2] == Axis(Held(keyStates, "e"), Held(keyStates, "q"))
    {
      d := [0.0, 0.0, 0.0];
      if Held(keyStates, "w") {
        d := [d[0], d[1] + 1.0, d[2]];
      }
      if Held(keyStates, "s") {
        d := [d[0], d[1] - 1.0, d[2]];
      }
      if Held(keyStates, "a") {
        d := [d[0] - 1.0, d[1], d[2]];
      }
      if Held(keyStates, "d") {
        d := [d[0] + 1.0, d[1], d[2]];
      }
      if Held(keyStates, "q") {
        d := [d[0], d[1], d[2] - 1.0];
      }
      if Held(keyStates, "e") {
        d := [d[0], d[1], d[2] + 1.0];
      }
    }

    /** `updateRotation(dh, dv)`. */
    method UpdateRotation(dh: real, dv: real)
      modifies this`rotation
      ensures rotation == Rotated(old(rotation), dh, dv, sensitivity, fov)
    {
      var x := Turned(rotation.0, dh, sensitivity, fov);
      var y := Turned(rotation.1, dv, sensitivity, fov);
      x := JsRemReal(x, 360.0);
      y := MaxReal(MinReal(y, 90.0), -90.0);
      rotation := (x, y);
    }

    /** `updateOrbit(dh, dv, dz)`: the rotation turns by the drag divided by
        the sensitivity, and the camera moves to `placed`, the point at the
        scaled orbit radius from the anchor in the new direction. */
    method UpdateOrbit(dh: real, dv: real, placed: Triple)
      requires Valid()
      modifies this`rotation, this`position
      ensures rotation == Rotated(old(rotation), dh / sensitivity, dv / sensitivity, sensitivity, fov)
      ensures position == placed
    {
      UpdateRotation(dh / sensitivity, dv / sensitivity);
      position := placed;
    }

    /** A `mousemove` on the document runs every registered move handler
        in turn: an orbiting camera orbits by the movement each time, any
        other camera turns against it each time. `placed` is where the
        last orbit step puts the camera. */
    method MouseMove(movementX: real, movementY: real, placed: Triple)
      requires Valid()
      modifies this`rotation, this`position
      ensures handlers == 0 ==> rotation == old(rotation) && position == old(position)
      ensures orbitMode ==>
        rotation == Spun(old(rotation), handlers, movementX / sensitivity, movementY / sensitivity, sensitivity, fov)
      ensures orbitMode && handlers > 0 ==> position == placed
      ensures !orbitMode ==>
        rotation == Spun(old(rotation), handlers, -movementX, -movementY, sensitivity, fov) &&
        position == old(position)
    {
      ghost var r := rotation;
      ghost var dh := if orbitMode then movementX / sensitivity else -movementX;
      ghost var dv := if orbitMode then movementY / sensitivity else -movementY;
      var i := 0;
      while i < handlers
        invariant 0 <= i <= handlers
        invariant rotation == Spun(r, i, dh, dv, sensitivity, fov)
        invariant position == if orbitMode && i > 0 then placed else old(position)
      {
        if orbitMode {
          UpdateOrbit(movementX, movementY, placed);
        } else {
          UpdateRotation(-movementX, -movementY);
        }
        i := i + 1;
      }
    }

    /** `updatePosition(local_direction)`: nothing for a zero direction;
        otherwise a free or level camera moves to `moved` and an orbiting
        camera orbits, turning by −x·speed and z·speed. */
    method UpdatePosition(local: Triple, moved: Triple, placed: Triple)
      requires Valid()
      modifies this`rotation, this`position
      ensures local == [0.0, 0.0, 0.0] ==> rotation == old(rotation) && position == old(position)
      ensures local != [0.0, 0.0, 0.0] && !orbitMode ==> rotation == old(rotation) && position == moved
      ensures local != [0.0, 0.0, 0.0] && orbitMode ==>
        rotation == Rotated(old(rotation), Drag(-local[0], speed, sensitivity), Drag(local[2], speed, sensitivity), sensitivity, fov) &&
        position == placed
    {
      if local == [0.0, 0.0, 0.0] {
        return;
      }
      if !orbitMode {
        position := moved;
      } else {
        var dh, dv := -local[0] * speed, local[2] * speed;
        UpdateOrbit(dh, dv, placed);
        assert dh / sensitivity == Drag(-local[0], speed, sensitivity);
        assert dv / sensitivity == Drag(local[2], speed, sensitivity);

      }
    }

    /** `update()`: the held keys move the camera only while it is enabled,
        as `updatePosition` moves it for their local direction. */
    method Update(moved: Triple, placed: Triple)
      requires Valid()
      modifies this`rotation, this`position
      ensures !enabled || LocalDirection(keyStates) == [0.0, 0.0, 0.0] ==>
        rotation == old(rotation) && position == old(position)
      ensures enabled && LocalDirection(keyStates) != [0.0, 0.0, 0.0] && !orbitMode ==>
        rotation == old(rotation) && position == moved
      ensures enabled && LocalDirection(keyStates) != [0.0, 0.0, 0.0] && orbitMode ==>
        rotation == Rotated(old(rotation), Drag(-LocalDirection(keyStates)[0], speed, sensitivity),
                            Drag(LocalDirection(keyStates)[2], speed, sensitivity), sensitivity, fov) &&
        position == placed
    {
      if enabled {
        var d := GetLocalDirection();
        UpdatePosition(d, moved, placed);
      }
    }

    /** The document `wheel` handler: only while enabled, an orbiting camera
        moves to the rescaled orbit `placed` and any other camera changes
        speed. */
    method Wheel(deltaY: real, placed: Triple)
      requires Valid()
      modifies this`rotation, this`position, this`speed
      ensures !enabled ==> rotation == old(rotation) && position == old(position) && speed == old(speed)
      ensures enabled && orbitMode ==>
        rotation == Rotated(old(rotation), 0.0, 0.0, sensitivity, fov) && position == placed && speed == old(speed)
      ensures enabled && !orbitMode ==>
        speed == Scrolled(old(speed), deltaY) && rotation == old(rotation) && position == old(position)
    {
      if enabled {
        if orbitMode {
          UpdateOrbit(0.0, 0.0, placed);
        } else {
          speed := Scrolled(speed, deltaY);
        }
      }
    }
  }
}

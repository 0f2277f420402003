/** What the renderer variants share: GPU objects as opaque handles, the
    2560×1440 resolution cap, and the rounding of sizes divided by the
    render scale (workgroup counts, viewports, canvas pixel sizes). */
module Lifecycle {
  import opened Wrappers
  import opened Numbers

  /** A GPU object (device, buffer, texture, program, framebuffer) created
      outside the model. */
  datatype Handle = Handle(id: nat)

  /** `base_render_size` / `max_render_size`. */
  const BaseWidth: nat := 2560
  const BaseHeight: nat := 1440

  /** The handles of `hs` that are present, in order: what `destroy`
      releases. */
  function Present(hs: seq<Option<Handle>>): (r: seq<Handle>)
    ensures |r| <= |hs|
    ensures forall h :: h in r <==> Some(h) in hs
    ensures (forall i :: 0 <= i < |hs| ==> hs[i].None?) ==> r == []
  {
    if hs == [] then []
    else
      var rest := Present(hs[1..]);
      assert forall h :: Some(h) in hs <==> Some(h) == hs[0] || Some(h) in hs[1..];
      if hs[0].Some? then [hs[0].value] + rest else rest
  }

  lemma MulMonotone(a: real, b: real, c: real)
    requires a <= b && c > 0.0
    ensures a * c <= b * c
  {
    assert (b - a) * c >= 0.0;
  }

  lemma MulStrict(a: real, b: real, c: real)
    requires a < b && c > 0.0
    ensures a * c < b * c
  {
    assert (b - a) * c > 0.0;
  }

  /** `Math.ceil(extent / scale / group)`: the number of groups of `group`
      scaled pixels that covers `extent`, and no more. */
  function Workgroups(extent: real, scale: real, group: nat): (n: int)
    requires scale > 0.0 && group > 0
    ensures (n as real) * ((group as real) * scale) >= extent
    ensures ((n - 1) as real) * ((group as real) * scale) < extent
  {
    var unit := (group as real) * scale;
    var q := extent / scale / (group as real);
    assert q == extent / unit;
    assert q * unit == extent;
    var n := Ceil(q);
    assert ((n - 1) as real) == n as real - 1.0;
    MulMonotone(q, n as real, unit);
    MulStrict((n - 1) as real, q, unit);
    assert ((n - 1) as real) * unit < q * unit;
    assert ((n - 1) as real) * unit < extent;
    n
  }

  /** `Math.ceil(extent / scale)`: the scaled pixels that cover `extent`. */
  function CeilScaled(extent: real, scale: real): (n: int)
    requires scale > 0.0
    ensures (n as real) * scale >= extent
    ensures ((n - 1) as real) * scale < extent
  {
    var q := extent / scale;
    assert q * scale == extent;
    var n := Ceil(q);
    assert ((n - 1) as real) == n as real - 1.0;
    MulMonotone(q, n as real, scale);
    MulStrict((n - 1) as real, q, scale);
    assert ((n - 1) as real) * scale < q * scale;
    assert ((n - 1) as real) * scale < extent;
    n
  }

  /** `Math.floor(extent / scale)`, and equally the truncation a canvas
      size or viewport argument applies to a non-negative `extent / scale`:
      the whole scaled pixels inside `extent`. */
  function FloorScaled(extent: real, scale: real): (n: int)
    requires scale > 0.0
    ensures (n as real) * scale <= extent
    ensures ((n + 1) as real) * scale > extent
    ensures extent >= 0.0 ==> n >= 0
  {
    var q := extent / scale;
    assert q * scale == extent;
    var n := Floor(q);
    assert ((n + 1) as real) == n as real + 1.0;
    MulMonotone(n as real, q, scale);
    MulStrict(q, (n + 1) as real, scale);
    assert q * scale < ((n + 1) as real) * scale;
    assert ((n + 1) as real) * scale > extent;
    assert extent >= 0.0 ==> n >= 0 by { QuotientSign(extent, scale); }
    n
  }

  /** The size `syncResolution`/`synchronize` keep: the client size capped
      at 2560×1440. */
  function Capped(w: int, h: int): (r: (int, int))
    ensures r.0 <= BaseWidth && r.1 <= BaseHeight
    ensures r.0 <= w && r.1 <= h
    ensures (r.0 == w || r.0 == BaseWidth) && (r.1 == h || r.1 == BaseHeight)
  {
    (Min(w, BaseWidth), Min(h, BaseHeight))
  }

  /** Capping twice is capping once. */
  lemma CappedIdempotent(w: int, h: int)
    ensures Capped(Capped(w, h).0, Capped(w, h).1) == Capped(w, h)
  {
  }
  /** The bounding rectangle `syncResolution` reads, whose sides may be
      fractional, capped at 2560×1440. */
  function CappedRect(w: real, h: real): (r: (real, real))
    ensures r.0 <= BaseWidth as real && r.1 <= BaseHeight as real
    ensures r.0 <= w && r.1 <= h
    ensures (r.0 == w || r.0 == BaseWidth as real) && (r.1 == h || r.1 == BaseHeight as real)
  {
    (if w < BaseWidth as real then w else BaseWidth as real,
     if h < BaseHeight as real then h else BaseHeight as real)
  }

  /** The canvas element's `width` and `height` after `syncResolution`:
      the capped rectangle truncated to whole pixels. */
  function RectPixels(w: real, h: real): (int, int)
  {
    (Trunc(CappedRect(w, h).0), Trunc(CappedRect(w, h).1))
  }

  /** For a rectangle of non-negative sides the canvas element holds the
      whole pixels of `canvas_size`, within 2560×1440; for a rectangle of
      whole pixels that is the integer cap the other engines keep. */
  lemma RectPixelsWhole(w: real, h: real)
    requires w >= 0.0 && h >= 0.0
    ensures var r := CappedRect(w, h); var p := RectPixels(w, h);
      0 <= p.0 <= BaseWidth && 0 <= p.1 <= BaseHeight &&
      p.0 as real <= r.0 < p.0 as real + 1.0 && p.1 as real <= r.1 < p.1 as real + 1.0
    ensures w == Floor(w) as real && h == Floor(h) as real ==> RectPixels(w, h) == Capped(Floor(w), Floor(h))
  {
  }

  /** A size divided by the render scale and handed to a canvas size or a
      GL viewport, both of which truncate toward zero: for a non-negative
      size, the whole scaled pixels inside it. */
  function TruncScaled(extent: real, scale: real): (n: int)
    requires scale > 0.0
    ensures extent >= 0.0 ==> n == FloorScaled(extent, scale) && n >= 0
  {
    if extent >= 0.0 then FloorScaled(extent, scale) else Trunc(extent / scale)
  }

  /** The sizes `screenshot` uses: a texture of the floored buffer size,
      and a read-back of the floored canvas size in scaled pixels. */
  function ScreenshotSizes(buffer: seq<real>, canvas: seq<real>, scale: real): (r: ((int, int), (int, int)))
    requires |buffer| == 2 && |canvas| == 2 && scale > 0.0
    ensures r.0.0 as real <= buffer[0] < r.0.0 as real + 1.0
    ensures r.0.1 as real <= buffer[1] < r.0.1 as real + 1.0
    ensures canvas[0] >= 0.0 ==> (r.1.0 as real) * scale <= canvas[0] < ((r.1.0 + 1) as real) * scale
    ensures canvas[1] >= 0.0 ==> (r.1.1 as real) * scale <= canvas[1] < ((r.1.1 + 1) as real) * scale
  {
    var w := FloorScaled(canvas[0], scale);
    var h := FloorScaled(canvas[1], scale);
    ((Floor(buffer[0]), Floor(buffer[1])), (w, h))
  }

  /** A canvas no larger than the buffer, at a render scale of at least 1,
      reads back no more pixels than the screenshot texture holds. */
  lemma ReadBackFits(buffer: seq<real>, canvas: seq<real>, scale: real)
    requires |buffer| == 2 && |canvas| == 2 && scale >= 1.0
    requires 0.0 <= canvas[0] <= buffer[0] && 0.0 <= canvas[1] <= buffer[1]
    ensures ScreenshotSizes(buffer, canvas, scale).1.0 <= ScreenshotSizes(buffer, canvas, scale).0.0
    ensures ScreenshotSizes(buffer, canvas, scale).1.1 <= ScreenshotSizes(buffer, canvas, scale).0.1
  {
    var r := ScreenshotSizes(buffer, canvas, scale);
    ScaledBelow(r.1.0, canvas[0], scale);
    ScaledBelow(r.1.1, canvas[1], scale);
  }

  /** A non-negative whole number of scaled pixels inside `extent`, at a
      scale of at least 1, is at most `extent`. */
  lemma ScaledBelow(n: int, extent: real, scale: real)
    requires n >= 0 && scale >= 1.0 && (n as real) * scale <= extent
    ensures n as real <= extent
  {
    if n > 0 {
      MulMonotone(1.0, scale, n as real);
      assert 1.0 * (n as real) <= scale * (n as real);
    }
  }

  /** A ping-pong pair after `[p[0], p[1]] = [p[1], p[0]]`. */
  function Swapped<T>(p: (T, T)): (T, T)
  {
    (p.1, p.0)
  }

  /** A pair after `n` draws, each swapping it once. */
  function SwappedTimes<T>(p: (T, T), n: nat): (T, T)
  {
    if n == 0 then p else Swapped(SwappedTimes(p, n - 1))
  }

  /** After an even number of draws a pair is back in its original order,
      after an odd number it is swapped; so two consecutive draws restore
      it. */
  lemma {:induction false} SwappedParity<T>(p: (T, T), n: nat)
    ensures SwappedTimes(p, n) == if n % 2 == 0 then p else Swapped(p)
    ensures SwappedTimes(p, n + 2) == SwappedTimes(p, n)
  {
    if n > 0 {
      SwappedParity(p, n - 1);
    }
  }
}

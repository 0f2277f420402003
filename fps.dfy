/** The frame-rate counter of utility/fps.js: it accumulates the time
    between updates and the number of updates, and a reading turns them
    into frames per second and starts a new window. Clock readings are
    parameters; `toFixed` formatting is outside the model. */
module Fps {
  import opened Wrappers

  /** The accumulators: milliseconds since the last reading, updates since
      the last reading, and the clock at the last update. */
  datatype Tally = Tally(delta: real, frames: nat, previous: real)

  /** `update()` at clock reading `now`. */
  function Ticked(t: Tally, now: real): Tally
  {
    Tally(t.delta + (now - t.previous), t.frames + 1, now)
  }

  /** The accumulators after updates at each clock reading of `times`, in
      order. */
  function TickedAll(t: Tally, times: seq<real>): Tally
  {
    if times == [] then t else Ticked(TickedAll(t, times[..|times| - 1]), times[|times| - 1])
  }

  /** The time added by a run of updates telescopes: it is the last clock
      reading minus the one before the first update, and each update counts
      once. */
  lemma {:induction false} TickedAllTelescopes(t: Tally, times: seq<real>)
    requires times != []
    ensures TickedAll(t, times).delta == t.delta + (times[|times| - 1] - t.previous)
    ensures TickedAll(t, times).frames == t.frames + |times|
    ensures TickedAll(t, times).previous == times[|times| - 1]
  {
    var init := times[..|times| - 1];
    if init != [] {
      TickedAllTelescopes(t, init);
      assert init[|init| - 1] == times[|times| - 2];
    }
  }

  /** `1000 / (delta / frames)` in IEEE arithmetic, on exact operands. */
  datatype Rate = Finite(fps: real) | Infinite | NaN

  function RateOf(delta: real, frames: nat): (r: Rate)
    ensures frames == 0 ==> (r == NaN <==> delta == 0.0)
    ensures frames == 0 && delta != 0.0 ==> r == Finite(0.0)
    ensures frames > 0 ==> (r == Infinite <==> delta == 0.0)
    ensures frames > 0 && delta > 0.0 ==> r.Finite? && r.fps > 0.0
  {
    if frames == 0 then
      // delta / 0 is NaN for 0 and infinite otherwise; 1000 / ±infinity is zero
      if delta == 0.0 then NaN else Finite(0.0)
    else if delta == 0.0 then Infinite
    else Finite(1000.0 / (delta / frames as real))
  }

  /** A window that opened at `start` and saw updates at `times` reads
      as the number of updates per second of elapsed time. */
  lemma AverageRate(start: real, times: seq<real>)
    requires times != [] && times[|times| - 1] > start
    ensures var t := TickedAll(Tally(0.0, 0, start), times);
      RateOf(t.delta, t.frames) == Finite(1000.0 / ((times[|times| - 1] - start) / |times| as real))
  {
    TickedAllTelescopes(Tally(0.0, 0, start), times);
  }

  class FPSCounter {
    /** Whether the counter was given an element to write into. */
    const hasElement: bool
    const prefix: string
    const suffix: string
    const decimals: nat
    var timePrevious: real
    var delta: real
    var frames: nat
    /** The last reading written into the element. */
    var shown: Option<Rate>

    function State(): Tally
      reads this`delta, this`frames, this`timePrevious
    {
      Tally(delta, frames, timePrevious)
    }

    /** `new FPSCounter(element, prefix, suffix, decimals)` at clock
        reading `now`. */
    constructor (hasElement: bool, prefix: string, suffix: string, decimals: nat, now: real)
      ensures State() == Tally(0.0, 0, now)
      ensures this.hasElement == hasElement && this.prefix == prefix && this.suffix == suffix
      ensures this.decimals == decimals && shown.None?
    {
      this.hasElement := hasElement;
      this.prefix := prefix;
      this.suffix := suffix;
      this.decimals := decimals;
      timePrevious := now;
      delta := 0.0;
      frames := 0;
      shown := None;
    }

    /** `update()` at clock reading `now`. */
    method Update(now: real)
      modifies this`delta, this`frames, this`timePrevious
      ensures State() == Ticked(old(State()), now)
    {
      delta := delta + (now - timePrevious);
      frames := frames + 1;
      timePrevious := now;
    }

    /** `set()`: writes the reading into the element, if there is one, and
        starts a new window; the clock of the last update is kept. */
    method Set()
      modifies this`delta, this`frames, this`shown
      ensures State() == Tally(0.0, 0, old(timePrevious))
      ensures shown == if hasElement then Some(RateOf(old(delta), old(frames))) else old(shown)
    {
      var fps := RateOf(delta, frames);
      delta := 0.0;
      frames := 0;
      if hasElement {
        shown := Some(fps);
      }
    }

    /** `get()`: returns the reading and starts a new window. */
    method Get() returns (fps: Rate)
      modifies this`delta, this`frames
      ensures fps == RateOf(old(delta), old(frames))
      ensures State() == Tally(0.0, 0, old(timePrevious))
    {
      fps := RateOf(delta, frames);
      delta := 0.0;
      frames := 0;
    }
  }
}

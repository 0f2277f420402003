/** The per-frame rules the engines share: `update` copies the sun
    direction and the camera into the uniform record (after a refresh when a
    key is held under auto refresh), and `render` adds one to
    `temporal_counter`, the number of frames the shader has accumulated. */
module Frames {
  import opened Wrappers
  import opened Values
  import opened Uniforms
  import Vector

  const Counter: string := "temporal_counter"

  /** The record has a number `temporal_counter`. */
  predicate Counts(u: Record)
  {
    Get(u, Counter).Some? && Get(u, Counter).value.Scalar?
  }

  /** `uniforms.temporal_counter += 1` */
  function Rendered(u: Record): (w: Record)
    requires Counts(u)
    ensures Counts(w) && ScalarOf(w, Counter) == ScalarOf(u, Counter) + 1.0
    ensures forall k :: k != Counter ==> Get(w, k) == Get(u, k)
  {
    Set(u, Counter, Scalar(ScalarOf(u, Counter) + 1.0))
  }

  /** `refresh()` / `refreshScreen()`: the accumulation restarts. */
  function Refreshed(u: Record): (w: Record)
    ensures Counts(w) && ScalarOf(w, Counter) == 1.0
    ensures forall k :: k != Counter ==> Get(w, k) == Get(u, k)
  {
    Set(u, Counter, Scalar(1.0))
  }

  /** Field writes applied in order: `u[k] = v` for each `(k, v)`. */
  function SetAll(u: Record, ws: seq<(string, Value)>): Record
  {
    if ws == [] then u else Set(SetAll(u, ws[..|ws| - 1]), ws[|ws| - 1].0, ws[|ws| - 1].1)
  }

  /** The value the last write to `k` in `ws` stores, if any write does. */
  function LastWrite(ws: seq<(string, Value)>, k: string): Option<Value>
  {
    if ws == [] then None
    else if ws[|ws| - 1].0 == k then Some(ws[|ws| - 1].1)
    else LastWrite(ws[..|ws| - 1], k)
  }

  /** After a run of writes a field holds its last written value, and a
      field never written keeps its old value. */
  lemma {:induction false} GetSetAll(u: Record, ws: seq<(string, Value)>, k: string)
    ensures Get(SetAll(u, ws), k) == if LastWrite(ws, k).Some? then LastWrite(ws, k) else Get(u, k)
  {
    if ws != [] {
      GetSetAll(u, ws[..|ws| - 1], k);
    }
  }

  /** Writes that store what the fields already hold change nothing. */
  lemma {:induction false} SetAllUnchanged(u: Record, ws: seq<(string, Value)>)
    requires forall i :: 0 <= i < |ws| ==> Get(u, ws[i].0) == Some(ws[i].1)
    ensures SetAll(u, ws) == u
  {
    if ws != [] {
      SetAllUnchanged(u, ws[..|ws| - 1]);
      SetUnchanged(u, ws[|ws| - 1].0, ws[|ws| - 1].1);
    }
  }

  /** What `update` copies into the record: the sun direction computed
      from the sun rotation, the camera's rotation matrix, its position and
      its field of view. */
  datatype View = View(sun: Vector.Triple, rotation: Value, position: Vector.Triple, fov: real)

  /** The writes of `update`, in its order. */
  function Copies(v: View): seq<(string, Value)>
  {
    [("sun_direction", Value.Vec(v.sun)), ("camera_rotation", v.rotation),
     ("camera_position", Value.Vec(v.position)), ("fov", Scalar(v.fov))]
  }

  /** `update`'s effect on the record: an optional refresh, then the
      writes of `Copies`. */
  function Updated(u: Record, refresh: bool, v: View): Record
  {
    SetAll(if refresh then Refreshed(u) else u, Copies(v))
  }

  /** After `update` the four copied fields hold the view, the counter is 1
      if the frame refreshed, and every other field is as it was. */
  lemma UpdatedGet(u: Record, refresh: bool, v: View, k: string)
    ensures Get(Updated(u, refresh, v), k) ==
      if k == "sun_direction" then Some(Value.Vec(v.sun))
      else if k == "camera_rotation" then Some(v.rotation)
      else if k == "camera_position" then Some(Value.Vec(v.position))
      else if k == "fov" then Some(Scalar(v.fov))
      else if k == Counter && refresh then Some(Scalar(1.0))
      else Get(u, k)
  {
    var ws := Copies(v);
    GetSetAll(if refresh then Refreshed(u) else u, ws, k);
    var w1, w2, w3 := ws[..1], ws[..2], ws[..3];
    assert w3[..2] == w2 && w2[..1] == w1 && w1[..0] == [];
    assert LastWrite(w1, k) == if k == "sun_direction" then Some(Value.Vec(v.sun)) else None;
    assert LastWrite(w2, k) == if k == "camera_rotation" then Some(v.rotation) else LastWrite(w1, k);
    assert LastWrite(w3, k) == if k == "camera_position" then Some(Value.Vec(v.position)) else LastWrite(w2, k);
    assert LastWrite(ws, k) == if k == "fov" then Some(Scalar(v.fov)) else LastWrite(w3, k);
  }

  /** `update` keeps a number counter: 1 after a refresh, unchanged
      otherwise. */
  lemma UpdatedCounts(u: Record, refresh: bool, v: View)
    requires Counts(u)
    ensures Counts(Updated(u, refresh, v))
    ensures ScalarOf(Updated(u, refresh, v), Counter) == if refresh then 1.0 else ScalarOf(u, Counter)
  {
    UpdatedGet(u, refresh, v, Counter);
  }

  /** One animation frame: `update` then `render`. */
  function Frame(u: Record, refresh: bool, v: View): (w: Record)
    requires Counts(u)
    ensures Counts(w)
    ensures ScalarOf(w, Counter) == if refresh then 2.0 else ScalarOf(u, Counter) + 1.0
  {
    UpdatedCounts(u, refresh, v);
    Rendered(Updated(u, refresh, v))
  }

  /** The record after a run of frames, each with its refresh decision and
      view. */
  function Run(u: Record, frames: seq<(bool, View)>): (w: Record)
    requires Counts(u)
    ensures Counts(w)
  {
    if frames == [] then u
    else
      var last := frames[|frames| - 1];
      Frame(Run(u, frames[..|frames| - 1]), last.0, last.1)
  }

  /** The index of the last frame that refreshes, or −1 when none does. */
  function LastRefresh(frames: seq<(bool, View)>): (i: int)
    ensures -1 <= i < |frames|
    ensures i >= 0 ==> frames[i].0
    ensures forall j :: i < j < |frames| ==> !frames[j].0
  {
    if frames == [] then -1
    else if frames[|frames| - 1].0 then |frames| - 1
    else LastRefresh(frames[..|frames| - 1])
  }

  /** Over a run of frames the counter counts the frames since the last
      refresh: without a refresh it grows by exactly the number of frames,
      and after a last refresh at frame `i` of `n` it is n − i + 1. */
  lemma {:induction false} RunCounter(u: Record, frames: seq<(bool, View)>)
    requires Counts(u)
    ensures LastRefresh(frames) < 0 ==>
      ScalarOf(Run(u, frames), Counter) == ScalarOf(u, Counter) + |frames| as real
    ensures LastRefresh(frames) >= 0 ==>
      ScalarOf(Run(u, frames), Counter) == (|frames| - LastRefresh(frames) + 1) as real
  {
    if frames != [] {
      var init := frames[..|frames| - 1];
      RunCounter(u, init);
    }
  }
}

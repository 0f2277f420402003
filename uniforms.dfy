/** Uniform records and their packing. A renderer keeps its shader
    parameters in a plain object (a record); `packUniforms` walks it in
    key-insertion order and concatenates each field's numbers into the array
    that becomes the uniform buffer's `Float32Array`. Two variants exist:
    the vector/matrix/scalar dispatch shared by the WebGPU and WebGL
    renderers, and the `Object.values` variant of the particle simulator. */
module Uniforms {
  import opened Wrappers
  import opened Values
  import Vector
  import Matrix

  /** A record: field names with their values, in key-insertion order. */
  type Record = seq<(string, Value)>

  function Reals(xs: seq<real>): (fs: seq<Float>)
    ensures |fs| == |xs|
    ensures forall i :: 0 <= i < |xs| ==> fs[i] == Real(xs[i])
  {
    seq(|xs|, i requires 0 <= i < |xs| => Real(xs[i]))
  }

  function RowsToFloats(rows: seq<seq<real>>): (fs: seq<Float>)
    ensures |fs| == |rows|
    ensures forall i :: 0 <= i < |rows| ==> fs[i] == ArrayToFloat(rows[i])
  {
    seq(|rows|, i requires 0 <= i < |rows| => ArrayToFloat(rows[i]))
  }

  /** What one field contributes to the packing of the dispatch variant:
      a value passing `Vector.test` its `Vector.array`, a value passing
      `Matrix.test` its 16 row-major entries, and anything else itself,
      which `flat()` then leaves alone (a number, an object: NaN once in the
      `Float32Array`) or opens one level (an array of rows). */
  function Contribution(v: Value): seq<Float>
  {
    if Vector.Test(v) then
      (if v.Vec? then Reals(v.comps) else Reals(ValuesOf(v.fields)))
    else if Matrix.Test(v) then Reals(Matrix.Array(v.rows))
    else match v
      case Scalar(n) => [Real(n)]
      case Vec(_) => [NaN]
      case Rec(_) => [NaN]
      case List(rows) => RowsToFloats(rows)
  }

  /** `packUniforms` of the renderers: contributions concatenated in
      key-insertion order. */
  function Pack(u: Record): seq<Float>
  {
    if u == [] then [] else Pack(u[..|u| - 1]) + Contribution(u[|u| - 1].1)
  }

  /** What one field contributes in the particle simulator's variant: a
      number itself, anything else `Object.values`, opened one level by
      `flat()`. */
  function ValuesContribution(v: Value): seq<Float>
  {
    match v
    case Scalar(n) => [Real(n)]
    case Vec(c) => Reals(c)
    case Rec(f) => Reals(ValuesOf(f))
    case List(rows) => RowsToFloats(rows)
  }

  /** `packUniforms` of particles/particle_simulator.js. */
  function PackValues(u: Record): seq<Float>
  {
    if u == [] then [] else PackValues(u[..|u| - 1]) + ValuesContribution(u[|u| - 1].1)
  }

  /** The number of slots a field takes in the dispatch packing. */
  function Width(v: Value): nat { |Contribution(v)| }

  /** The sum of the widths of a record's fields. */
  function TotalWidth(u: Record): nat
  {
    if u == [] then 0 else TotalWidth(u[..|u| - 1]) + Width(u[|u| - 1].1)
  }

  /** Where field i starts in the packing. */
  function Offset(u: Record, i: nat): nat
    requires i <= |u|
  {
    TotalWidth(u[..i])
  }

  /** Pieces of a packing joined in order. */
  function Joined(parts: seq<seq<Float>>): seq<Float>
  {
    if parts == [] then [] else Joined(parts[..|parts| - 1]) + parts[|parts| - 1]
  }

  /** Joining two runs of pieces one after the other joins each run. */
  lemma {:induction false} JoinedAppend(a: seq<seq<Float>>, b: seq<seq<Float>>)
    ensures Joined(a + b) == Joined(a) + Joined(b)
  {
    if b == [] {
      assert a + b == a;
    } else {
      assert (a + b)[..|a + b| - 1] == a + b[..|b| - 1];
      JoinedAppend(a, b[..|b| - 1]);
    }
  }

  /** The contributions of a record's fields, in order. */
  function Parts(u: Record): (p: seq<seq<Float>>)
    ensures |p| == |u| && forall i :: 0 <= i < |u| ==> p[i] == Contribution(u[i].1)
  {
    seq(|u|, i requires 0 <= i < |u| => Contribution(u[i].1))
  }

  /** The packing joins the contributions of the fields in order. */
  lemma {:induction false} PackJoined(u: Record)
    ensures Pack(u) == Joined(Parts(u))
  {
    if u != [] {
      PackJoined(u[..|u| - 1]);
      assert Parts(u)[..|u| - 1] == Parts(u[..|u| - 1]);
    }
  }

  /** The packing of two records one after the other is the two packings
      one after the other. */
  lemma PackAppend(u: Record, w: Record)
    ensures Pack(u + w) == Pack(u) + Pack(w)
  {
    PackJoined(u);
    PackJoined(w);
    PackJoined(u + w);
    PartsAppend(u, w);
    JoinedAppend(Parts(u), Parts(w));
  }

  lemma PartsAppend(u: Record, w: Record)
    ensures Parts(u + w) == Parts(u) + Parts(w)
  {
    var p, q := Parts(u + w), Parts(u) + Parts(w);
    forall i | 0 <= i < |u + w|
      ensures p[i] == q[i]
    {
      if i < |u| {
        assert (u + w)[i] == u[i];
      } else {
        assert (u + w)[i] == w[i - |u|];
      }
    }
  }

  lemma {:induction false} PackLength(u: Record)
    ensures |Pack(u)| == TotalWidth(u)
  {
    if u != [] {
      PackLength(u[..|u| - 1]);
    }
  }

  /** Field i's contribution sits at its offset: the packing keeps the
      record's key-insertion order. */
  lemma PackAt(u: Record, i: nat)
    requires i < |u|
    ensures Offset(u, i) + Width(u[i].1) <= |Pack(u)|
    ensures Pack(u)[Offset(u, i)..Offset(u, i) + Width(u[i].1)] == Contribution(u[i].1)
  {
    assert u == u[..i] + [u[i]] + u[i + 1..];
    PackAppend(u[..i] + [u[i]], u[i + 1..]);
    PackAppend(u[..i], [u[i]]);
    assert Pack([u[i]]) == Contribution(u[i].1) by {
      assert [u[i]][..0] == [];
    }
    PackLength(u[..i]);
  }

  /** Same field names in the same order, each with the same width. */
  predicate SameShape(u: Record, w: Record)
  {
    |u| == |w| && forall i :: 0 <= i < |u| ==> u[i].0 == w[i].0 && Width(u[i].1) == Width(w[i].1)
  }

  /** Records of the same shape pack to the same length, so a buffer sized
      from one holds the other. */
  lemma {:induction false} SameShapeSameLength(u: Record, w: Record)
    requires SameShape(u, w)
    ensures |Pack(u)| == |Pack(w)|
  {
    if u != [] {
      SameShapeSameLength(u[..|u| - 1], w[..|w| - 1]);
      PackLength(u);
      PackLength(w);
      PackLength(u[..|u| - 1]);
      PackLength(w[..|w| - 1]);
    }
  }

  /** The position of field k, or -1 when the record has no such field. */
  function IndexOf(u: Record, k: string): (i: int)
    ensures -1 <= i < |u|
    ensures i >= 0 ==> u[i].0 == k
    ensures i >= 0 ==> forall j :: 0 <= j < i ==> u[j].0 != k
    ensures i < 0 ==> forall j :: 0 <= j < |u| ==> u[j].0 != k
  {
    if u == [] then -1
    else
      var i := IndexOf(u[1..], k);
      if u[0].0 == k then 0 else if i < 0 then -1 else i + 1
  }

  /** The first field named k is the one found. */
  lemma GetAt(u: Record, i: nat, k: string)
    requires i < |u| && u[i].0 == k
    requires forall j :: 0 <= j < i ==> u[j].0 != k
    ensures IndexOf(u, k) == i && Get(u, k) == Some(u[i].1)
  {
  }

  /** Looking a field up in two records one after the other. */
  lemma {:induction false} IndexOfAppend2(u: Record, w: Record, k: string)
    ensures IndexOf(u, k) >= 0 ==> IndexOf(u + w, k) == IndexOf(u, k)
    ensures IndexOf(u, k) < 0 && IndexOf(w, k) >= 0 ==> IndexOf(u + w, k) == |u| + IndexOf(w, k)
    ensures IndexOf(u, k) < 0 && IndexOf(w, k) < 0 ==> IndexOf(u + w, k) < 0
  {
    var i := IndexOf(u, k);
    var m := IndexOf(w, k);
    if i >= 0 {
      GetAt(u + w, i, k);
    } else if m >= 0 {
      GetAt(u + w, |u| + m, k);
    } else {
      forall j | 0 <= j < |u + w| ensures (u + w)[j].0 != k {
        if j >= |u| {
          assert (u + w)[j] == w[j - |u|];
        }
      }
    }
  }

  /** `u[k]`. */
  function Get(u: Record, k: string): Option<Value>
  {
    var i := IndexOf(u, k);
    if i < 0 then None else Some(u[i].1)
  }

  /** Looking a field up in two records one after the other: the first
      record wins. */
  lemma GetAppend(u: Record, w: Record, k: string)
    ensures Get(u + w, k) == if Get(u, k).Some? then Get(u, k) else Get(w, k)
  {
    IndexOfAppend2(u, w, k);
    var i := IndexOf(u, k);
    var m := IndexOf(w, k);
    if i < 0 && m >= 0 {
      assert (u + w)[|u| + m] == w[m];
    }
  }

  /** `u[k] = v`: an existing field is replaced where it stands; a new one
      is appended after every existing field. */
  function Set(u: Record, k: string, v: Value): (w: Record)
    ensures Get(w, k) == Some(v)
    ensures IndexOf(u, k) >= 0 ==> |w| == |u| && forall j :: 0 <= j < |u| ==> w[j].0 == u[j].0
    ensures IndexOf(u, k) < 0 ==> w == u + [(k, v)]
    ensures forall k' :: k' != k ==> Get(w, k') == Get(u, k')
  {
    var i := IndexOf(u, k);
    if i < 0 then
      var w := u + [(k, v)];
      assert IndexOf(w, k) == |u| by { IndexOfAppend(u, k, v); }
      forall k' | k' != k ensures Get(w, k') == Get(u, k') {
        IndexOfOther(u, k', k, v);
      }
      w
    else
      var w := u[i := (k, v)];
      SameKeysSameIndex(u, w, k);
      forall k' | k' != k ensures Get(w, k') == Get(u, k') {
        SameKeysSameIndex(u, w, k');
      }
      w
  }

  lemma {:induction false} IndexOfAppend(u: Record, k: string, v: Value)
    requires forall j :: 0 <= j < |u| ==> u[j].0 != k
    ensures IndexOf(u + [(k, v)], k) == |u|
  {
    if u != [] {
      assert (u + [(k, v)])[1..] == u[1..] + [(k, v)];
      IndexOfAppend(u[1..], k, v);
    }
  }

  lemma {:induction false} IndexOfOther(u: Record, k': string, k: string, v: Value)
    requires k' != k
    ensures IndexOf(u + [(k, v)], k') == IndexOf(u, k')
  {
    if u != [] {
      assert (u + [(k, v)])[1..] == u[1..] + [(k, v)];
      IndexOfOther(u[1..], k', k, v);
    }
  }

  lemma {:induction false} SameKeysSameIndex(u: Record, w: Record, k: string)
    requires |u| == |w| && forall j :: 0 <= j < |u| ==> u[j].0 == w[j].0
    ensures IndexOf(u, k) == IndexOf(w, k)
  {
    if u != [] {
      SameKeysSameIndex(u[1..], w[1..], k);
    }
  }

  /** Replacing a field by a value of the same width keeps the record's
      shape, and with it the packed length. */
  lemma SetKeepsShape(u: Record, k: string, v: Value)
    requires IndexOf(u, k) >= 0 && Width(v) == Width(u[IndexOf(u, k)].1)
    ensures SameShape(Set(u, k, v), u)
    ensures |Pack(Set(u, k, v))| == |Pack(u)|
  {
    var w := Set(u, k, v);
    assert w == u[IndexOf(u, k) := (k, v)];
    SameShapeSameLength(w, u);
  }

  /** Replacing a field by a value of the same width keeps the packed
      length. */
  lemma SetSameWidth(u: Record, k: string, v: Value)
    requires Get(u, k).Some? && Width(Get(u, k).value) == Width(v)
    ensures |Pack(Set(u, k, v))| == |Pack(u)|
  {
    SetKeepsShape(u, k, v);
  }

  /** A vector that passes `Vector.test` takes as many slots as it has
      components. */
  lemma WidthOfVec(c: seq<real>)
    requires 2 <= |c| <= 4
    ensures Width(Value.Vec(c)) == |c|
  {
  }

  /** Setting a field twice is setting it once to the second value. */
  lemma SetTwice(u: Record, k: string, v: Value, v': Value)
    ensures Set(Set(u, k, v), k, v') == Set(u, k, v')
  {
    var i := IndexOf(u, k);
    var w := Set(u, k, v);
    if i < 0 {
      assert w == u + [(k, v)];
      IndexOfAppend(u, k, v);
      assert Set(w, k, v') == w[|u| := (k, v')];
      assert w[|u| := (k, v')] == u + [(k, v')];
    } else {
      assert w == u[i := (k, v)];
      SameKeysSameIndex(u, w, k);
      assert Set(w, k, v') == w[i := (k, v')];
      assert w[i := (k, v')] == u[i := (k, v')];
    }
  }

  /** Writing back the value a field already holds changes nothing. */
  lemma SetUnchanged(u: Record, k: string, v: Value)
    requires Get(u, k) == Some(v)
    ensures Set(u, k, v) == u
  {
    var i := IndexOf(u, k);
    assert u[i] == (k, v);
    assert u[i := (k, v)] == u;
  }

  /** Setting a well-formed value keeps every field well formed. */
  lemma SetWellFormed(u: Record, k: string, v: Value)
    requires AllWellFormed(u) && WellFormed(v)
    ensures AllWellFormed(Set(u, k, v))
  {
    var i := IndexOf(u, k);
    var w := Set(u, k, v);
    if i < 0 {
      assert w == u + [(k, v)];
      Fields1((k, v));
      AllWellFormedAppend(u, [(k, v)]);
    } else {
      assert w == u[i := (k, v)];
    }
  }

  /** A well-formed value packs to as many slots as its shape says. */
  lemma WidthSlots(v: Value)
    requires WellFormed(v)
    ensures Width(v) == Slots(v)
  {
    Fields1(("", v));
    PackWellFormed([("", v)]);
    assert [("", v)][..0] == [];
  }

  /** Replacing a field of a well-formed record by a well-formed value of
      the same shape keeps the record well formed and its packed length. */
  lemma SetSameSlots(u: Record, k: string, v: Value)
    requires AllWellFormed(u) && WellFormed(v)
    requires Get(u, k).Some? && Slots(Get(u, k).value) == Slots(v)
    ensures AllWellFormed(Set(u, k, v))
    ensures |Pack(Set(u, k, v))| == |Pack(u)|
    ensures SlotSum(Set(u, k, v)) == SlotSum(u)
  {
    SetWellFormed(u, k, v);
    WidthSlots(v);
    WidthSlots(u[IndexOf(u, k)].1);
    SetSameWidth(u, k, v);
    PackWellFormed(u);
    PackWellFormed(Set(u, k, v));
  }

  /** Adding a field the record lacks lengthens the packing by the new
      field's width. */
  lemma SetNewFieldGrows(u: Record, k: string, v: Value)
    requires IndexOf(u, k) < 0
    ensures |Pack(Set(u, k, v))| == |Pack(u)| + Width(v)
  {
    PackAppend(u, [(k, v)]);
    assert [(k, v)][..0] == [];
  }

  /** A number field read as a number, the way the renderers read
      `render_scale` and `temporal_counter`. */
  function ScalarOf(u: Record, k: string): real
    requires Get(u, k).Some? && Get(u, k).value.Scalar?
  {
    Get(u, k).value.n
  }

  function VecOf(u: Record, k: string): seq<real>
    requires Get(u, k).Some? && Get(u, k).value.Vec?
  {
    Get(u, k).value.comps
  }

  /** The shape a renderer relies on for one of its fields: any number, a
      positive number, a vector of `n` components, or a 4×4 matrix. */
  datatype Shape = Number | Positive | Vector(n: nat) | Matrix4

  predicate Matches(v: Value, s: Shape)
  {
    match s
    case Number => v.Scalar?
    case Positive => v.Scalar? && v.n > 0.0
    case Vector(n) => v.Vec? && |v.comps| == n && 2 <= n <= 4
    case Matrix4 => Matrix.Test(v)
  }

  /** Two values of one shape pack to numbers and fill as many slots. */
  lemma MatchesSlots(v: Value, w: Value, s: Shape)
    requires Matches(v, s) && Matches(w, s)
    ensures WellFormed(w) && Slots(v) == Slots(w)
  {
    if s == Matrix4 {
      assert v.List? && w.List?;
    }
  }

  /** Every slot of a packing is a number. */
  predicate AllReal(fs: seq<Float>)
  {
    forall i :: 0 <= i < |fs| ==> fs[i].Real?
  }

  /** A value the dispatch packs to numbers only: a number, a vector of two
      to four components, or a matrix. */
  predicate WellFormed(v: Value)
  {
    v.Scalar? || (v.Vec? && 2 <= |v.comps| <= 4) || Matrix.Test(v)
  }

  /** Every field of the record is well formed. */
  predicate AllWellFormed(u: Record)
  {
    forall i :: 0 <= i < |u| ==> WellFormed(u[i].1)
  }

  /** The slots a well-formed value takes, read off its shape. */
  function Slots(v: Value): nat
  {
    match v
    case Scalar(_) => 1
    case Vec(c) => |c|
    case Rec(f) => |f|
    case List(_) => 16
  }

  function SlotSum(u: Record): nat
  {
    if u == [] then 0 else SlotSum(u[..|u| - 1]) + Slots(u[|u| - 1].1)
  }

  lemma {:induction false} SlotSumAppend(u: Record, w: Record)
    ensures SlotSum(u + w) == SlotSum(u) + SlotSum(w)
  {
    if w == [] {
      assert u + w == u;
    } else {
      var w' := w[..|w| - 1];
      assert (u + w)[..|u + w| - 1] == u + w';
      SlotSumAppend(u, w');
    }
  }

  /** Adding a well-formed field in front adds its slots. */
  lemma PackCons(x: (string, Value), u: Record)
    requires WellFormed(x.1) && AllWellFormed(u)
    ensures AllWellFormed([x] + u)
    ensures SlotSum([x] + u) == Slots(x.1) + SlotSum(u)
  {
    AllWellFormedAppend([x], u);
    SlotSumAppend([x], u);
    assert [x][..0] == [];
  }

  /** Records of one to four well-formed fields, the size of one group of
      fields in a source record literal. */
  lemma Fields1(a: (string, Value))
    requires WellFormed(a.1)
    ensures AllWellFormed([a]) && SlotSum([a]) == Slots(a.1)
  {
    PackCons(a, []);
    assert [a] + [] == [a];
  }

  lemma Fields2(a: (string, Value), b: (string, Value))
    requires WellFormed(a.1) && WellFormed(b.1)
    ensures AllWellFormed([a, b]) && SlotSum([a, b]) == Slots(a.1) + Slots(b.1)
  {
    Fields1(b);
    PackCons(a, [b]);
    assert [a] + [b] == [a, b];
  }

  lemma Fields3(a: (string, Value), b: (string, Value), c: (string, Value))
    requires WellFormed(a.1) && WellFormed(b.1) && WellFormed(c.1)
    ensures AllWellFormed([a, b, c]) && SlotSum([a, b, c]) == Slots(a.1) + Slots(b.1) + Slots(c.1)
  {
    Fields2(b, c);
    PackCons(a, [b, c]);
    assert [a] + [b, c] == [a, b, c];
  }

  lemma Fields4(a: (string, Value), b: (string, Value), c: (string, Value), d: (string, Value))
    requires WellFormed(a.1) && WellFormed(b.1) && WellFormed(c.1) && WellFormed(d.1)
    ensures AllWellFormed([a, b, c, d])
    ensures SlotSum([a, b, c, d]) == Slots(a.1) + Slots(b.1) + Slots(c.1) + Slots(d.1)
  {
    Fields3(b, c, d);
    PackCons(a, [b, c, d]);
    assert [a] + [b, c, d] == [a, b, c, d];
  }

  lemma AllWellFormedAppend(u: Record, w: Record)
    requires AllWellFormed(u) && AllWellFormed(w)
    ensures AllWellFormed(u + w)
  {
    forall i | 0 <= i < |u + w| ensures WellFormed((u + w)[i].1) {
      if i >= |u| {
        assert (u + w)[i] == w[i - |u|];
      }
    }
  }

  /** A record of well-formed fields packs to numbers only, as many as its
      fields' shapes add up to. */
  lemma {:induction false} PackWellFormed(u: Record)
    requires AllWellFormed(u)
    ensures |Pack(u)| == SlotSum(u)
    ensures AllReal(Pack(u))
  {
    if u != [] {
      var v := u[|u| - 1].1;
      assert AllWellFormed(u[..|u| - 1]);
      PackWellFormed(u[..|u| - 1]);
      if v.List? {
        Matrix.ArrayRowMajor(v.rows);
      }
    }
  }

  lemma {:induction false} PackAllReal(u: Record)
    requires forall i :: 0 <= i < |u| ==> WellFormed(u[i].1)
    ensures AllReal(Pack(u))
  {
    if u != [] {
      PackAllReal(u[..|u| - 1]);
    }
  }
}

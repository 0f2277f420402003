/** The JavaScript values that appear in uniform records: numbers, vectors
    built by `vec` (objects whose keys are a prefix of x, y, z, w, in that
    order, so they are held as their component sequence), other plain
    objects with number properties (the `{width, height}` sizes), and arrays
    of number arrays (matrices); and the 32-bit float slots of a
    `Float32Array` built from a packing. */
module Values {
  import opened Wrappers

  /** An object's own properties, in key-insertion order. */
  type Fields = seq<(string, real)>

  datatype Value =
    | Scalar(n: real)
    | Vec(comps: seq<real>)
    | Rec(fields: Fields)
    | List(rows: seq<seq<real>>)

  /** One slot of a `Float32Array`: a number, or NaN for an element that
      converts to no number (a plain object, an array of several numbers). */
  datatype Float = Real(r: real) | NaN

  /** The key of component i of a vector. */
  function Key(i: nat): string
    requires i < 4
  {
    ["xyzw"[i]]
  }

  /** The vector with components `c`, written as the object it is. */
  function VecFields(c: seq<real>): (f: Fields)
    requires |c| <= 4
    ensures |f| == |c|
  {
    seq(|c|, i requires 0 <= i < |c| => (Key(i), c[i]))
  }

  /** `Object.values`: the property values in key-insertion order. */
  function ValuesOf(f: Fields): (vs: seq<real>)
    ensures |vs| == |f|
    ensures forall i :: 0 <= i < |f| ==> vs[i] == f[i].1
  {
    if f == [] then [] else [f[0].1] + ValuesOf(f[1..])
  }

  /** Property lookup; `None` is `undefined`. */
  function Lookup(f: Fields, k: string): Option<real>
  {
    if f == [] then None
    else if f[0].0 == k then Some(f[0].1)
    else Lookup(f[1..], k)
  }

  predicate Has(f: Fields, k: string) { Lookup(f, k).Some? }

  /** `Number(a)` for an array of numbers: `[]` is 0, `[x]` is x, and longer
      arrays print as "x,y,…", which is no number. */
  function ArrayToFloat(row: seq<real>): Float
  {
    if row == [] then Real(0.0) else if |row| == 1 then Real(row[0]) else NaN
  }

  /** The component named `Key(i)` of a vector object is its i-th value. */
  lemma {:induction false} VecLookup(c: seq<real>, i: nat)
    requires i < |c| <= 4
    ensures Lookup(VecFields(c), Key(i)) == Some(c[i])
  {
    var f := VecFields(c);
    forall j | 0 <= j < i ensures Key(j) != Key(i) {
      assert Key(j)[0] != Key(i)[0];
    }
    LookupAt(f, i, Key(i));
  }

  lemma {:induction false} LookupAt(f: Fields, i: nat, k: string)
    requires i < |f| && f[i].0 == k
    requires forall j :: 0 <= j < i ==> f[j].0 != k
    ensures Lookup(f, k) == Some(f[i].1)
  {
    if i > 0 {
      LookupAt(f[1..], i - 1, k);
    }
  }
}

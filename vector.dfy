/** Vectors of utility/vector.js. `vec`, `array`, `test`, `xyz`, `xy` and
    `add` build new values; `sub`, `mul`, `div` and `norm` change their first
    argument in place and return that same object, modelled by the class
    `VectorObject`. A vector is held as its components: component i is the
    property named `Key(i)`. */
module Vector {
  import opened Wrappers
  import opened Values

  datatype Error = RangeError

  /** `vec(...args)`, with `args` already flattened: one argument fills x, y
      and z; up to four arguments name x, y, z, w in order; more throw. */
  function Vec(args: seq<real>): (r: Result<seq<real>, Error>)
    ensures r.Failure? <==> |args| > 4
    ensures |args| == 1 ==> r == Success([args[0], args[0], args[0]])
    ensures |args| != 1 && |args| <= 4 ==> r == Success(args)
  {
    if |args| > 4 then Failure(RangeError)
    else if |args| == 1 then Success([args[0], args[0], args[0]])
    else Success(args)
  }

  /** A vector literal the source writes out, such as `vec(2560, 1440)`. */
  function Of(args: seq<real>): seq<real>
    requires |args| <= 4
  {
    Vec(args).value
  }

  /** A three-component vector, as `vec(a)` and `add` produce. */
  type Triple = c: seq<real> | |c| == 3 witness [0.0, 0.0, 0.0]

  /** `array(v)`: `Object.values` of the vector object. */
  function Array(c: seq<real>): (r: seq<real>)
    requires |c| <= 4
    ensures r == c
  {
    ValuesOf(VecFields(c))
  }

  /** `test(v)`: a non-null object with number properties x and y. */
  predicate Test(v: Value)
  {
    || (v.Vec? && |v.comps| >= 2)
    || (v.Rec? && Has(v.fields, "x") && Has(v.fields, "y"))
  }

  /** `test` answers alike for a vector and for the same object written out
      property by property. */
  lemma {:induction false} TestAgrees(c: seq<real>)
    requires |c| <= 4
    ensures Test(Value.Vec(c)) == Test(Rec(VecFields(c)))
  {
    if |c| >= 2 {
      VecLookup(c, 0);
      VecLookup(c, 1);
      assert Key(0) == "x" && Key(1) == "y";
    } else {
      NoKeyBeyond(c, "y");
    }
  }

  /** A vector with fewer than two components has no property y. */
  lemma {:induction false} NoKeyBeyond(c: seq<real>, k: string)
    requires |c| <= 1 && k == "y"
    ensures !Has(VecFields(c), k)
  {
    if |c| == 1 {
      var f := VecFields(c);
      assert f[0].0 == Key(0) && Key(0)[0] != k[0];
      assert Lookup(f, k) == Lookup(f[1..], k);
      assert f[1..] == [];
    }
  }

  /** Every vector built from at least one argument passes `test`; `array`
      gives back the arguments (a single one three times). */
  lemma {:induction false} VecShape(args: seq<real>)
    requires 1 <= |args| <= 4
    ensures Test(Value.Vec(Of(args)))
    ensures Array(Of(args)) == if |args| == 1 then [args[0], args[0], args[0]] else args
  {
  }

  /** `xyz(v)`: a fresh 3-vector of v's x, y and z. */
  function Xyz(c: seq<real>): (r: seq<real>)
    requires 3 <= |c| <= 4
    ensures |r| == 3 && r == c[..3]
  {
    Of([c[0], c[1], c[2]])
  }

  /** `xy(v)`: a fresh 2-vector of v's x and y. */
  function Xy(c: seq<real>): (r: seq<real>)
    requires 2 <= |c| <= 4
    ensures |r| == 2 && r == c[..2]
  {
    Of([c[0], c[1]])
  }

  /** An argument `add` and `sub` accept: a number, or a vector with z. */
  predicate Operand(a: Value)
  {
    a.Scalar? || (a.Vec? && 3 <= |a.comps| <= 4)
  }

  /** What one operand contributes to component i: a vector its own
      component, a number itself. */
  function Part(a: Value, i: nat): real
    requires Operand(a) && i < 3
  {
    if a.Scalar? then a.n else a.comps[i]
  }

  /** The sum of the operands' contributions to component i, left to right. */
  function Total(args: seq<Value>, i: nat): real
    requires forall j :: 0 <= j < |args| ==> Operand(args[j])
    requires i < 3
  {
    if args == [] then 0.0 else Total(args[..|args| - 1], i) + Part(args[|args| - 1], i)
  }

  /** `add(...args)`: a fresh 3-vector, starting from `vec(0.0)`, holding the
      per-component totals; w is dropped. */
  method Add(args: seq<Value>) returns (r: seq<real>)
    requires forall j :: 0 <= j < |args| ==> Operand(args[j])
    ensures r == [Total(args, 0), Total(args, 1), Total(args, 2)]
  {
    r := Of([0.0]);
    var i := 0;
    while i < |args|
      invariant 0 <= i <= |args|
      invariant r == [Total(args[..i], 0), Total(args[..i], 1), Total(args[..i], 2)]
    {
      var el := args[i];
      assert args[..i + 1][..i] == args[..i];
      if Test(el) {
        r := r[0 := r[0] + el.comps[0]];
        r := r[1 := r[1] + el.comps[1]];
        r := r[2 := r[2] + el.comps[2]];
      } else {
        r := r[0 := r[0] + el.n];
        r := r[1 := r[1] + el.n];
        r := r[2 := r[2] + el.n];
      }
      i := i + 1;
    }
    assert args[..i] == args;
  }

  /** A vector object whose components `sub`, `mul`, `div` and `norm`
      change in place. */
  class VectorObject {
    var comps: seq<real>

    constructor (c: seq<real>)
      ensures comps == c
    {
      comps := c;
    }
  }

  /** `c` with x, y and z replaced; w, if any, kept. */
  function WithXyz(c: seq<real>, x: real, y: real, z: real): seq<real>
    requires |c| >= 3
  {
    [x, y, z] + c[3..]
  }

  /** `sub(first, ...second)`: subtracts every operand from first's x, y and
      z, in order, and returns first itself. */
  method Sub(first: VectorObject, second: seq<Value>) returns (r: VectorObject)
    requires 3 <= |first.comps| <= 4
    requires forall j :: 0 <= j < |second| ==> Operand(second[j])
    modifies first
    ensures r == first
    ensures first.comps == WithXyz(old(first.comps),
      old(first.comps[0]) - Total(second, 0),
      old(first.comps[1]) - Total(second, 1),
      old(first.comps[2]) - Total(second, 2))
  {
    r := first;
    ghost var c0 := first.comps;
    var i := 0;
    while i < |second|
      invariant 0 <= i <= |second| && r == first
      invariant first.comps == WithXyz(c0, c0[0] - Total(second[..i], 0),
        c0[1] - Total(second[..i], 1), c0[2] - Total(second[..i], 2))
    {
      var el := second[i];
      assert second[..i + 1][..i] == second[..i];
      if Test(el) {
        r.comps := r.comps[0 := r.comps[0] - el.comps[0]];
        r.comps := r.comps[1 := r.comps[1] - el.comps[1]];
        r.comps := r.comps[2 := r.comps[2] - el.comps[2]];
      } else {
        r.comps := r.comps[0 := r.comps[0] - el.n];
        r.comps := r.comps[1 := r.comps[1] - el.n];
        r.comps := r.comps[2 := r.comps[2] - el.n];
      }
      i := i + 1;
    }
    assert second[..i] == second;
  }

  /** `c` with x, y and z multiplied by `a`, `b` and `d`. */
  function Times(c: seq<real>, a: real, b: real, d: real): seq<real>
    requires |c| >= 3
  {
    WithXyz(c, c[0] * a, c[1] * b, c[2] * d)
  }

  /** `c` with x, y and z divided by `a`, `b` and `d`. */
  function Over(c: seq<real>, a: real, b: real, d: real): seq<real>
    requires |c| >= 3 && a != 0.0 && b != 0.0 && d != 0.0
  {
    WithXyz(c, c[0] / a, c[1] / b, c[2] / d)
  }

  /** `mul(first, second)`: multiplies first's x, y and z by a vector's
      components or by a number, and returns first itself. */
  method Mul(first: VectorObject, second: Value) returns (r: VectorObject)
    requires 3 <= |first.comps| <= 4 && Operand(second)
    modifies first
    ensures r == first
    ensures first.comps == Times(old(first.comps), Part(second, 0), Part(second, 1), Part(second, 2))
  {
    r := first;
    if Test(second) {
      r.comps := Times(r.comps, second.comps[0], second.comps[1], second.comps[2]);
    } else {
      r.comps := Times(r.comps, second.n, second.n, second.n);
    }
  }

  /** A divisor `div` accepts without producing an IEEE infinity or NaN. */
  predicate Divisor(a: Value)
  {
    Operand(a) && Part(a, 0) != 0.0 && Part(a, 1) != 0.0 && Part(a, 2) != 0.0
  }

  /** `div(first, second)`: divides first's x, y and z by a vector's
      components or by a number, and returns first itself. */
  method Div(first: VectorObject, second: Value) returns (r: VectorObject)
    requires 3 <= |first.comps| <= 4 && Divisor(second)
    modifies first
    ensures r == first
    ensures first.comps == Over(old(first.comps), Part(second, 0), Part(second, 1), Part(second, 2))
  {
    r := first;
    if Test(second) {
      r.comps := Over(r.comps, second.comps[0], second.comps[1], second.comps[2]);
    } else {
      r.comps := Over(r.comps, second.n, second.n, second.n);
    }
  }

  /** `norm(v)`: `vec(0.0)`, a fresh object, when x, y and z are all zero;
      otherwise v itself divided by its length. `length` stands for
      `len(v)`, the square root of `dot(v, v)`, which is positive once one of
      x, y, z is not zero. */
  method Norm(v: VectorObject, length: real) returns (r: VectorObject)
    requires 3 <= |v.comps| <= 4
    requires v.comps[0] != 0.0 || v.comps[1] != 0.0 || v.comps[2] != 0.0 ==> length > 0.0
    modifies v
    ensures old(v.comps[0] == 0.0 && v.comps[1] == 0.0 && v.comps[2] == 0.0) ==>
      fresh(r) && r.comps == [0.0, 0.0, 0.0] && v.comps == old(v.comps)
    ensures !old(v.comps[0] == 0.0 && v.comps[1] == 0.0 && v.comps[2] == 0.0) ==>
      r == v && v.comps == Over(old(v.comps), length, length, length)
  {
    if v.comps[0] == 0.0 && v.comps[1] == 0.0 && v.comps[2] == 0.0 {
      r := new VectorObject(Of([0.0]));
    } else {
      r := Div(v, Scalar(length));
    }
  }
}

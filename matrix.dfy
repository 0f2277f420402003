/** Matrices of utility/matrix.js: arrays of four rows of four numbers,
    built by `mat`, recognised by `test`, flattened by `array`, transposed by
    `trans` and multiplied by `mul`. */
module Matrix {
  import opened Values
  import Vector

  type Rows = seq<seq<real>>

  /** Four rows of four. */
  predicate IsMatrix(m: Rows)
  {
    |m| == 4 && forall i :: 0 <= i < 4 ==> |m[i]| == 4
  }

  /** `test(m)`: an array of length 4 whose rows all have length 4. */
  predicate Test(v: Value)
  {
    v.List? && IsMatrix(v.rows)
  }

  /** `mat(s)`: s on the diagonal, 0 elsewhere. */
  function Mat(s: real): (m: Rows)
    ensures IsMatrix(m)
    ensures forall i, j :: 0 <= i < 4 && 0 <= j < 4 ==> m[i][j] == if i == j then s else 0.0
  {
    [[s, 0.0, 0.0, 0.0],
     [0.0, s, 0.0, 0.0],
     [0.0, 0.0, s, 0.0],
     [0.0, 0.0, 0.0, s]]
  }

  /** `array(m)`: `m.flat()`, the rows one after another. */
  function Array(m: Rows): seq<real>
  {
    if m == [] then [] else m[0] + Array(m[1..])
  }

  /** A matrix flattens to 16 entries, row-major. */
  lemma {:induction false} ArrayRowMajor(m: Rows)
    requires IsMatrix(m)
    ensures |Array(m)| == 16
    ensures forall i, j :: 0 <= i < 4 && 0 <= j < 4 ==> Array(m)[4 * i + j] == m[i][j]
  {
    var m1 := m[1..];
    var m2 := m1[1..];
    var m3 := m2[1..];
    assert m3[1..] == [];
    assert Array(m3) == m[3];
    assert Array(m2) == m[2] + m[3];
    assert Array(m1) == m[1] + (m[2] + m[3]);
    assert Array(m) == m[0] + (m[1] + (m[2] + m[3]));
  }

  /** Entry 5·i of `array(mat(s))` is the diagonal value s. */
  lemma DiagonalOfArray(s: real)
    ensures |Array(Mat(s))| == 16
    ensures forall i :: 0 <= i < 4 ==> Array(Mat(s))[5 * i] == s
  {
    ArrayRowMajor(Mat(s));
    forall i | 0 <= i < 4 ensures Array(Mat(s))[5 * i] == s {
      assert Array(Mat(s))[4 * i + i] == Mat(s)[i][i];
    }
  }

  /** `trans(m)`. */
  function Trans(m: Rows): (t: Rows)
    requires IsMatrix(m)
    ensures IsMatrix(t)
    ensures forall i, j :: 0 <= i < 4 && 0 <= j < 4 ==> t[i][j] == m[j][i]
  {
    [[m[0][0], m[1][0], m[2][0], m[3][0]],
     [m[0][1], m[1][1], m[2][1], m[3][1]],
     [m[0][2], m[1][2], m[2][2], m[3][2]],
     [m[0][3], m[1][3], m[2][3], m[3][3]]]
  }

  /** Two matrices with the same entries are equal. */
  lemma Ext(m: Rows, n: Rows)
    requires IsMatrix(m) && IsMatrix(n)
    requires forall i, j :: 0 <= i < 4 && 0 <= j < 4 ==> m[i][j] == n[i][j]
    ensures m == n
  {
    forall i | 0 <= i < 4 ensures m[i] == n[i] {
      assert |m[i]| == |n[i]| == 4;
    }
  }

  lemma TransInvolution(m: Rows)
    requires IsMatrix(m)
    ensures Trans(Trans(m)) == m
  {
    Ext(Trans(Trans(m)), m);
  }

  lemma TransOfMat(s: real)
    ensures Trans(Mat(s)) == Mat(s)
  {
    Ext(Trans(Mat(s)), Mat(s));
  }

  /** Row r of one operand times column c of the other. */
  function Dot4(r: seq<real>, c: seq<real>): real
    requires |r| == 4 && |c| == 4
  {
    r[0] * c[0] + r[1] * c[1] + r[2] * c[2] + r[3] * c[3]
  }

  function Column(b: Rows, j: nat): (c: seq<real>)
    requires IsMatrix(b) && j < 4
    ensures |c| == 4 && forall k :: 0 <= k < 4 ==> c[k] == b[k][j]
  {
    [b[0][j], b[1][j], b[2][j], b[3][j]]
  }

  /** What `mul(a, b)` accepts: a matrix a, and b either a 4-component
      vector or a matrix. */
  predicate Multipliable(a: Rows, b: Value)
  {
    IsMatrix(a) && ((b.Vec? && |b.comps| == 4) || Test(b))
  }

  /** `mul(a, b)`: the matrix-vector product when b passes `Vector.test`,
      the 4×4 matrix product otherwise. */
  function Mul(a: Rows, b: Value): (r: Value)
    requires Multipliable(a, b)
    ensures Vector.Test(b) ==>
              r.Vec? && |r.comps| == 4 &&
              forall i :: 0 <= i < 4 ==> r.comps[i] == Dot4(a[i], b.comps)
    ensures !Vector.Test(b) ==>
              Test(r) &&
              forall i, j :: 0 <= i < 4 && 0 <= j < 4 ==> r.rows[i][j] == Dot4(a[i], Column(b.rows, j))
  {
    if Vector.Test(b) then
      Value.Vec(Vector.Of([Dot4(a[0], b.comps), Dot4(a[1], b.comps), Dot4(a[2], b.comps), Dot4(a[3], b.comps)]))
    else
      List(seq(4, i requires 0 <= i < 4 => seq(4, j requires 0 <= j < 4 => Dot4(a[i], Column(b.rows, j)))))
  }

  /** `mat(1)` is a left identity for both products. */
  lemma MulIdentityLeft(b: Value)
    requires Multipliable(Mat(1.0), b)
    ensures Mul(Mat(1.0), b) == b
  {
    var r := Mul(Mat(1.0), b);
    if Vector.Test(b) {
      assert r.comps == b.comps;
    } else {
      Ext(r.rows, b.rows);
    }
  }

  /** `mat(1)` is a right identity for the matrix product. */
  lemma MulIdentityRight(a: Rows)
    requires IsMatrix(a)
    ensures Mul(a, List(Mat(1.0))) == List(a)
  {
    var r := Mul(a, List(Mat(1.0)));
    Ext(r.rows, a);
  }
}

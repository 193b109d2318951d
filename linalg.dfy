/** Dense real matrices as rows of reals: the numpy operations the kinematics code uses. */
module LinAlg {

  type Vector = seq<real>
  type Matrix = seq<seq<real>>

  /** `m` has `rows` rows, each of `cols` entries. */
  predicate IsMatrix(m: Matrix, rows: nat, cols: nat) {
    |m| == rows && forall i :: 0 <= i < rows ==> |m[i]| == cols
  }

  /** A 4x4 homogeneous transform: its bottom row is [0, 0, 0, 1]. */
  predicate Homogeneous(m: Matrix) {
    IsMatrix(m, 4, 4) && m[3] == [0.0, 0.0, 0.0, 1.0]
  }

  /** The sum of u[k] * v[k] over the first n entries. */
  function Dot(u: Vector, v: Vector, n: nat): real
    requires n <= |u| && n <= |v|
  {
    if n == 0 then 0.0 else Dot(u, v, n - 1) + u[n - 1] * v[n - 1]
  }

  lemma Dot3(u: Vector, v: Vector)
    requires 3 <= |u| && 3 <= |v|
    ensures Dot(u, v, 3) == u[0] * v[0] + u[1] * v[1] + u[2] * v[2]
  {
    assert Dot(u, v, 1) == u[0] * v[0];
    assert Dot(u, v, 2) == u[0] * v[0] + u[1] * v[1];
  }

  lemma Dot4(u: Vector, v: Vector)
    requires 4 <= |u| && 4 <= |v|
    ensures Dot(u, v, 4) == u[0] * v[0] + u[1] * v[1] + u[2] * v[2] + u[3] * v[3]
  {
    Dot3(u, v);
  }

  function Identity(n: nat): (m: Matrix)
    ensures IsMatrix(m, n, n)
    ensures forall i, j :: 0 <= i < n && 0 <= j < n ==> m[i][j] == if i == j then 1.0 else 0.0
  {
    seq(n, i => seq(n, j => if i == j then 1.0 else 0.0))
  }

  /** Column j of m. */
  function Column(m: Matrix, j: nat): (c: Vector)
    requires forall i :: 0 <= i < |m| ==> j < |m[i]|
    ensures |c| == |m| && forall i :: 0 <= i < |m| ==> c[i] == m[i][j]
  {
    seq(|m|, i requires 0 <= i < |m| => m[i][j])
  }

  /** The matrix product a @ b, for a with |b| columns and b with p columns. */
  function MatMul(a: Matrix, b: Matrix, p: nat): (c: Matrix)
    requires IsMatrix(a, |a|, |b|) && IsMatrix(b, |b|, p)
    ensures IsMatrix(c, |a|, p)
    ensures forall i, j :: 0 <= i < |a| && 0 <= j < p ==> c[i][j] == Dot(a[i], Column(b, j), |b|)
  {
    seq(|a|, i requires 0 <= i < |a| => seq(p, j requires 0 <= j < p => Dot(a[i], Column(b, j), |b|)))
  }

  /** The matrix-vector product m @ v. */
  function MatVec(m: Matrix, v: Vector): (r: Vector)
    requires IsMatrix(m, |m|, |v|)
    ensures |r| == |m| && forall i :: 0 <= i < |m| ==> r[i] == Dot(m[i], v, |v|)
  {
    seq(|m|, i requires 0 <= i < |m| => Dot(m[i], v, |v|))
  }

  function VecSub(u: Vector, v: Vector): (r: Vector)
    requires |u| == |v|
    ensures |r| == |u| && forall i :: 0 <= i < |u| ==> r[i] == u[i] - v[i]
  {
    seq(|u|, i requires 0 <= i < |u| => u[i] - v[i])
  }

  /** The upper-left 3x3 block m[:3, :3]. */
  function Block3(m: Matrix): (r: Matrix)
    requires IsMatrix(m, 4, 4)
    ensures IsMatrix(r, 3, 3) && forall i, j :: 0 <= i < 3 && 0 <= j < 3 ==> r[i][j] == m[i][j]
  {
    seq(3, i requires 0 <= i < 3 => m[i][..3])
  }

  /** The 3-vector cross product; the result is orthogonal to both factors. */
  function Cross(a: Vector, b: Vector): (r: Vector)
    requires |a| == 3 && |b| == 3
    ensures |r| == 3
    ensures Dot(r, a, 3) == 0.0 && Dot(r, b, 3) == 0.0
    ensures b == [0.0, 0.0, 0.0] ==> r == [0.0, 0.0, 0.0]
  {
    var r := [a[1] * b[2] - a[2] * b[1], a[2] * b[0] - a[0] * b[2], a[0] * b[1] - a[1] * b[0]];
    Dot3(r, a);
    Dot3(r, b);
    r
  }

  /** Multiplying by the identity changes nothing. */
  lemma IdentityLeft(m: Matrix)
    requires IsMatrix(m, 4, 4)
    ensures MatMul(Identity(4), m, 4) == m
  {
    var c := MatMul(Identity(4), m, 4);
    forall i, j | 0 <= i < 4 && 0 <= j < 4
      ensures c[i][j] == m[i][j]
    {
      Dot4(Identity(4)[i], Column(m, j));
    }
    forall i | 0 <= i < 4
      ensures c[i] == m[i]
    {
    }
  }

  /** The product of two homogeneous transforms is homogeneous. */
  lemma HomogeneousMul(a: Matrix, b: Matrix)
    requires Homogeneous(a) && Homogeneous(b)
    ensures Homogeneous(MatMul(a, b, 4))
  {
    var c := MatMul(a, b, 4);
    forall j | 0 <= j < 4
      ensures c[3][j] == b[3][j]
    {
      Dot4(a[3], Column(b, j));
    }
  }

  /** Multiplying by [0, 0, 0, 1] picks out the translation column. */
  lemma MatVecOrigin(m: Matrix)
    requires IsMatrix(m, |m|, 4)
    ensures forall i :: 0 <= i < |m| ==> MatVec(m, [0.0, 0.0, 0.0, 1.0])[i] == m[i][3]
  {
    forall i | 0 <= i < |m|
      ensures MatVec(m, [0.0, 0.0, 0.0, 1.0])[i] == m[i][3]
    {
      Dot4(m[i], [0.0, 0.0, 0.0, 1.0]);
    }
  }

  /** Multiplying a 3x3 block by [0, 0, 1] picks out its third column. */
  lemma MatVecZAxis(m: Matrix)
    requires IsMatrix(m, 3, 3)
    ensures forall i :: 0 <= i < 3 ==> MatVec(m, [0.0, 0.0, 1.0])[i] == m[i][2]
  {
    forall i | 0 <= i < 3
      ensures MatVec(m, [0.0, 0.0, 1.0])[i] == m[i][2]
    {
      Dot3(m[i], [0.0, 0.0, 1.0]);
    }
  }
}

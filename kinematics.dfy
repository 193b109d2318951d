/**
 * Forward kinematics and the geometric Jacobian of the 7-joint Panda arm in
 * Craig's modified Denavit-Hartenberg convention. Trigonometry is left
 * uninterpreted: every definition and property holds for any cos and sin.
 */
module Kinematics {
  import opened Errors
  import opened LinAlg

  /** One joint's DH constants: link length a, link offset d, link twist alpha. */
  datatype DHParam = DHParam(a: real, d: real, alpha: real)

  /** The cosine and sine the transforms are built from, as uninterpreted functions. */
  datatype Trig = Trig(cos: real -> real, sin: real -> real)

  /** The arm's DH table; `pi` stands for numpy's approximation of pi. */
  function PandaDH(pi: real): (dh: seq<DHParam>)
    ensures |dh| == 7
    ensures forall i :: 0 <= i < 7 ==> dh[i].alpha in {0.0, -pi / 2.0, pi / 2.0}
  {
    [ DHParam(0.0, 0.333, 0.0),
      DHParam(0.0, 0.0, -pi / 2.0),
      DHParam(0.0, 0.316, pi / 2.0),
      DHParam(0.0825, 0.0, pi / 2.0),
      DHParam(-0.0825, 0.384, -pi / 2.0),
      DHParam(0.0, 0.0, pi / 2.0),
      DHParam(0.088, 0.07, pi / 2.0) ]
  }

  /** The modified-DH transform of one joint turned to angle theta. */
  function JointTransform(trig: Trig, theta: real, p: DHParam): (t: Matrix)
    ensures Homogeneous(t)
  {
    var ct, st := trig.cos(theta), trig.sin(theta);
    var ca, sa := trig.cos(p.alpha), trig.sin(p.alpha);
    [ [ct, -1.0 * st, 0.0, p.a],
      [st * ca, ct * ca, -1.0 * sa, -1.0 * p.d * sa],
      [st * sa, ct * sa, ca, p.d * ca],
      [0.0, 0.0, 0.0, 1.0] ]
  }

  /** T_0 @ T_1 @ ... @ T_{k-1}, multiplied left to right starting from the identity. */
  function Chain(trig: Trig, pose: seq<real>, dh: seq<DHParam>, k: nat): (t: Matrix)
    requires k <= |pose| && k <= |dh|
    ensures Homogeneous(t)
  {
    if k == 0 then Identity(4)
    else
      var prev := Chain(trig, pose, dh, k - 1);
      var next := JointTransform(trig, pose[k - 1], dh[k - 1]);
      HomogeneousMul(prev, next);
      MatMul(prev, next, 4)
  }

  /**
   * How many joints the chain builder composes: a request for anything but the
   * whole table also composes joint `level` itself, whatever flag was passed.
   */
  function JointsComposed(level: nat, nParams: nat, useInclusiveRange: bool): (k: nat)
    ensures k == level || k == level + 1
    ensures k == level <==> level == nParams && !useInclusiveRange
  {
    if level != nParams || useInclusiveRange then level + 1 else level
  }

  /** The chain builder, called with its default flag, indexes only what exists. */
  function TransformDefined(level: nat, nPose: nat, nParams: nat): (ok: bool)
    ensures ok <==> (level < nParams && level < nPose) || (level == nParams && level <= nPose)
  {
    var k := JointsComposed(level, nParams, false);
    k <= nPose && k <= nParams
  }

  /** What the chain builder returns when called with its default flag. */
  function TransformToBase(trig: Trig, level: nat, pose: seq<real>, dh: seq<DHParam>): (t: Matrix)
    requires TransformDefined(level, |pose|, |dh|)
    ensures Homogeneous(t)
  {
    Chain(trig, pose, dh, JointsComposed(level, |dh|, false))
  }

  /**
   * The chain builder: right-multiplies the per-joint transforms into a running
   * product, then, unless the whole table was asked for, joint `level` as well.
   */
  method TransformToBaseFrom(trig: Trig, level: nat, pose: seq<real>, dh: seq<DHParam>,
                             useInclusiveRange: bool) returns (r: Result<Matrix>)
    ensures level == |dh| && !useInclusiveRange ==> (r.Success? <==> level <= |pose|)
    ensures level == |dh| && !useInclusiveRange && r.Success? ==> r.value == Chain(trig, pose, dh, level)
    ensures level == |dh| && useInclusiveRange ==> r == Failure(IndexOutOfRange)
    ensures level != |dh| ==> (r.Success? <==> level < |dh| && level < |pose|)
    ensures level != |dh| && r.Success? ==> r.value == Chain(trig, pose, dh, level + 1)
    ensures r.Failure? ==> r.error == IndexOutOfRange
    ensures !useInclusiveRange ==> (r.Success? <==> TransformDefined(level, |pose|, |dh|))
    ensures !useInclusiveRange && r.Success? ==> r.value == TransformToBase(trig, level, pose, dh)
  {
    var t := Identity(4);
    var inclusive := useInclusiveRange;
    if level != |dh| {
      inclusive := true;
    }
    for i := 0 to level
      invariant i <= |pose| && i <= |dh|
      invariant t == Chain(trig, pose, dh, i)
    {
      if i >= |pose| || i >= |dh| {
        return Failure(IndexOutOfRange);
      }
      t := MatMul(t, JointTransform(trig, pose[i], dh[i]), 4);
    }
    if inclusive {
      if level >= |pose| || level >= |dh| {
        return Failure(IndexOutOfRange);
      }
      t := MatMul(t, JointTransform(trig, pose[level], dh[level]), 4);
    }
    return Success(t);
  }

  /** The chain through k joints depends on the first k angles and DH entries only. */
  lemma {:induction false} ChainLocality(trig: Trig, pose: seq<real>, dh: seq<DHParam>,
                                         pose': seq<real>, dh': seq<DHParam>, k: nat)
    requires k <= |pose| && k <= |dh| && k <= |pose'| && k <= |dh'|
    requires pose[..k] == pose'[..k] && dh[..k] == dh'[..k]
    ensures Chain(trig, pose, dh, k) == Chain(trig, pose', dh', k)
  {
    if k > 0 {
      assert pose[k - 1] == pose[..k][k - 1] == pose'[k - 1];
      assert dh[k - 1] == dh[..k][k - 1] == dh'[k - 1];
      assert pose[..k - 1] == pose[..k][..k - 1];
      assert pose'[..k - 1] == pose'[..k][..k - 1];
      assert dh[..k - 1] == dh[..k][..k - 1];
      assert dh'[..k - 1] == dh'[..k][..k - 1];
      ChainLocality(trig, pose, dh, pose', dh', k - 1);
    }
  }

  /** A request for level 0 of a non-empty table yields joint 0's transform, not the identity. */
  lemma LevelZeroIsFirstJoint(trig: Trig, pose: seq<real>, dh: seq<DHParam>, useInclusiveRange: bool)
    requires 0 < |dh| && 0 < |pose|
    ensures JointsComposed(0, |dh|, useInclusiveRange) == 1
    ensures Chain(trig, pose, dh, 1) == JointTransform(trig, pose[0], dh[0])
  {
    IdentityLeft(JointTransform(trig, pose[0], dh[0]));
  }

  /** The one request that composes nothing: level 0 of an empty table. */
  lemma IdentityOnlyForEmptyTable(trig: Trig, pose: seq<real>, dh: seq<DHParam>, level: nat, useInclusiveRange: bool)
    requires JointsComposed(level, |dh|, useInclusiveRange) == 0
    ensures level == 0 && |dh| == 0 && !useInclusiveRange
    ensures Chain(trig, pose, dh, 0) == Identity(4)
  {
  }

  /** calc_Z: the third column of the rotation block of base @ transform(l). */
  function CalcZ(trig: Trig, l: nat, q: seq<real>, dh: seq<DHParam>, base: Matrix): (z: Vector)
    requires IsMatrix(base, 4, 4)
    requires TransformDefined(l, |q|, |dh|)
    ensures |z| == 3
    ensures forall i :: 0 <= i < 3 ==> z[i] == MatMul(base, TransformToBase(trig, l, q, dh), 4)[i][2]
  {
    var m := MatMul(base, TransformToBase(trig, l, q, dh), 4);
    MatVecZAxis(Block3(m));
    MatVec(Block3(m), [0.0, 0.0, 1.0])
  }

  /** The origin of the frame reached by transform(l), in world coordinates. */
  function FrameOrigin(trig: Trig, l: nat, q: seq<real>, dh: seq<DHParam>, base: Matrix): (o: Vector)
    requires IsMatrix(base, 4, 4)
    requires TransformDefined(l, |q|, |dh|)
    ensures |o| == 4
    ensures forall i :: 0 <= i < 4 ==> o[i] == MatMul(base, TransformToBase(trig, l, q, dh), 4)[i][3]
  {
    var m := MatMul(base, TransformToBase(trig, l, q, dh), 4);
    MatVecOrigin(m);
    MatVec(m, [0.0, 0.0, 0.0, 1.0])
  }

  /** calc_P applies in the same cases as calc_Z, and also needs transform(nJoints). */
  predicate LeverArmDefined(l: nat, nJoints: nat, nPose: nat, nParams: nat) {
    TransformDefined(l, nPose, nParams) && TransformDefined(nJoints, nPose, nParams)
  }

  /** calc_P's subtraction before its fourth entry is dropped. */
  function LeverArm4(trig: Trig, l: nat, q: seq<real>, nJoints: nat, dh: seq<DHParam>, base: Matrix): (p: Vector)
    requires IsMatrix(base, 4, 4)
    requires LeverArmDefined(l, nJoints, |q|, |dh|)
    ensures |p| == 4
  {
    VecSub(FrameOrigin(trig, nJoints, q, dh, base), FrameOrigin(trig, l, q, dh, base))
  }

  /** calc_P: the lever arm from frame l's origin to the origin of frame nJoints. */
  function CalcP(trig: Trig, l: nat, q: seq<real>, nJoints: nat, dh: seq<DHParam>, base: Matrix): (p: Vector)
    requires IsMatrix(base, 4, 4)
    requires LeverArmDefined(l, nJoints, |q|, |dh|)
    ensures |p| == 3
    ensures forall i :: 0 <= i < 3 ==>
      p[i] == MatMul(base, TransformToBase(trig, nJoints, q, dh), 4)[i][3]
              - MatMul(base, TransformToBase(trig, l, q, dh), 4)[i][3]
  {
    LeverArm4(trig, l, q, nJoints, dh, base)[..3]
  }

  /** With a homogeneous base both origins end in 1, so the dropped entry is 0. */
  lemma LeverArmFourthEntryZero(trig: Trig, l: nat, q: seq<real>, nJoints: nat, dh: seq<DHParam>, base: Matrix)
    requires Homogeneous(base)
    requires LeverArmDefined(l, nJoints, |q|, |dh|)
    ensures LeverArm4(trig, l, q, nJoints, dh, base)[3] == 0.0
    ensures LeverArm4(trig, l, q, nJoints, dh, base) == CalcP(trig, l, q, nJoints, dh, base) + [0.0]
  {
    var tn, tl := TransformToBase(trig, nJoints, q, dh), TransformToBase(trig, l, q, dh);
    HomogeneousMul(base, tn);
    HomogeneousMul(base, tl);
    var p := LeverArm4(trig, l, q, nJoints, dh, base);
    assert p[3] == 0.0;
    assert p == p[..3] + [p[3]];
  }

  /** construct_jacobian fails at its first column unless every chain it requests exists. */
  function JacobianDefined(nJoints: nat, nPose: nat, nParams: nat): (ok: bool)
    ensures ok <==> nJoints == 0 || (nJoints < nParams && nJoints < nPose) || (nJoints == nParams && nJoints <= nPose)
  {
    nJoints == 0 || TransformDefined(nJoints, nPose, nParams)
  }

  lemma ColumnsDefined(i: nat, nJoints: nat, nPose: nat, nParams: nat)
    requires JacobianDefined(nJoints, nPose, nParams) && i < nJoints
    ensures LeverArmDefined(i, nJoints, nPose, nParams)
  {
  }

  /** Column i of the Jacobian: cross(Z_i, P_i) stacked on Z_i. */
  function JacobianColumn(trig: Trig, i: nat, nJoints: nat, q: seq<real>, dh: seq<DHParam>, base: Matrix): (col: Vector)
    requires IsMatrix(base, 4, 4)
    requires JacobianDefined(nJoints, |q|, |dh|) && i < nJoints
    ensures |col| == 6
    ensures LeverArmDefined(i, nJoints, |q|, |dh|)
    ensures col[..3] == Cross(CalcZ(trig, i, q, dh, base), CalcP(trig, i, q, nJoints, dh, base))
    ensures col[3..] == CalcZ(trig, i, q, dh, base)
  {
    ColumnsDefined(i, nJoints, |q|, |dh|);
    var z := CalcZ(trig, i, q, dh, base);
    Cross(z, CalcP(trig, i, q, nJoints, dh, base)) + z
  }

  /** Rows 3-5 of column i are joint i's axis: the z column of base @ T_0 @ ... @ T_i. */
  lemma AngularPartIsAxis(trig: Trig, i: nat, nJoints: nat, q: seq<real>, dh: seq<DHParam>, base: Matrix)
    requires IsMatrix(base, 4, 4)
    requires JacobianDefined(nJoints, |q|, |dh|) && i < nJoints
    ensures i < |dh| ==> JointsComposed(i, |dh|, false) == i + 1
    ensures forall r :: 0 <= r < 3 ==>
      JacobianColumn(trig, i, nJoints, q, dh, base)[3 + r] == MatMul(base, TransformToBase(trig, i, q, dh), 4)[r][2]
  {
  }

  /** Rows 0-2 of column i are orthogonal to the axis in rows 3-5. */
  lemma LinearPartOrthogonalToAxis(trig: Trig, i: nat, nJoints: nat, q: seq<real>, dh: seq<DHParam>, base: Matrix)
    requires IsMatrix(base, 4, 4)
    requires JacobianDefined(nJoints, |q|, |dh|) && i < nJoints
    ensures var col := JacobianColumn(trig, i, nJoints, q, dh, base);
      Dot(col[..3], col[3..], 3) == 0.0
  {
    ColumnsDefined(i, nJoints, |q|, |dh|);
    var z := CalcZ(trig, i, q, dh, base);
    var lin := Cross(z, CalcP(trig, i, q, nJoints, dh, base));
    var col := JacobianColumn(trig, i, nJoints, q, dh, base);
    assert col[..3] == lin && col[3..] == z;
  }

  /**
   * For the last joint of the whole table the partial chain is the full chain,
   * so the lever arm is zero and so is the linear part of the last column.
   */
  lemma LastColumnLinearPartZero(trig: Trig, q: seq<real>, dh: seq<DHParam>, base: Matrix)
    requires IsMatrix(base, 4, 4)
    requires 0 < |dh| <= |q|
    ensures TransformToBase(trig, |dh| - 1, q, dh) == TransformToBase(trig, |dh|, q, dh)
    ensures CalcP(trig, |dh| - 1, q, |dh|, dh, base) == [0.0, 0.0, 0.0]
    ensures JacobianColumn(trig, |dh| - 1, |dh|, q, dh, base)[..3] == [0.0, 0.0, 0.0]
  {
    var p := CalcP(trig, |dh| - 1, q, |dh|, dh, base);
    assert p == [0.0, 0.0, 0.0];
  }

  /**
   * construct_jacobian: fills a zero-initialised 6 x nJoints matrix column by
   * column. Its failure case is decided before the loop because every failing
   * input fails while computing column 0, before anything is written.
   */
  method ConstructJacobian(trig: Trig, nJoints: nat, q: seq<real>, dh: seq<DHParam>, base: Matrix)
    returns (r: Result<array2<real>>)
    requires IsMatrix(base, 4, 4)
    ensures r.Success? <==> JacobianDefined(nJoints, |q|, |dh|)
    ensures r.Failure? ==> r.error == IndexOutOfRange
    ensures r.Success? ==> fresh(r.value) && r.value.Length0 == 6 && r.value.Length1 == nJoints
    ensures r.Success? ==> forall row, i :: 0 <= row < 6 && 0 <= i < nJoints ==>
      r.value[row, i] == JacobianColumn(trig, i, nJoints, q, dh, base)[row]
    ensures r.Success? && nJoints == |dh| && 0 < nJoints ==>
      var jac, last := r.value, nJoints - 1;
      jac[0, last] == 0.0 && jac[1, last] == 0.0 && jac[2, last] == 0.0
  {
    if !JacobianDefined(nJoints, |q|, |dh|) {
      return Failure(IndexOutOfRange);
    }
    var jac := new real[6, nJoints]((_, _) => 0.0);
    for i := 0 to nJoints
      invariant forall row, c :: 0 <= row < 6 && 0 <= c < i ==>
        jac[row, c] == JacobianColumn(trig, c, nJoints, q, dh, base)[row]
      invariant forall row, c :: 0 <= row < 6 && i <= c < nJoints ==> jac[row, c] == 0.0
    {
      ColumnsDefined(i, nJoints, |q|, |dh|);
      var z := CalcZ(trig, i, q, dh, base);
      var p := CalcP(trig, i, q, nJoints, dh, base);
      var linear := Cross(z, p);
      var angular := z;
      var col := linear + angular;
      assert col == JacobianColumn(trig, i, nJoints, q, dh, base);
      SetColumn(jac, i, col);
    }
    if nJoints == |dh| && 0 < nJoints {
      LastColumnLinearPartZero(trig, q, dh, base);
    }
    return Success(jac);
  }

  /** J[:, i] = col: overwrites column i and nothing else. */
  method SetColumn(m: array2<real>, i: nat, col: Vector)
    requires i < m.Length1 && |col| == m.Length0
    modifies m
    ensures forall row :: 0 <= row < m.Length0 ==> m[row, i] == col[row]
    ensures forall row, c :: 0 <= row < m.Length0 && 0 <= c < m.Length1 && c != i ==> m[row, c] == old(m[row, c])
  {
    for row := 0 to m.Length0
      invariant forall r :: 0 <= r < row ==> m[r, i] == col[r]
      invariant forall r, c :: 0 <= r < m.Length0 && 0 <= c < m.Length1 && (c != i || row <= r) ==> m[r, c] == old(m[r, c])
    {
      m[row, i] := col[row];
    }
  }

  /** The entries of a 4x4 array as a matrix value. */
  function Entries(a: array2<real>): (m: Matrix)
    requires a.Length0 == 4 && a.Length1 == 4
    reads a
    ensures IsMatrix(m, 4, 4) && forall i, j :: 0 <= i < 4 && 0 <= j < 4 ==> m[i][j] == a[i, j]
  {
    seq(4, i requires 0 <= i < 4 reads a => seq(4, j requires 0 <= j < 4 reads a => a[i, j]))
  }

  /**
   * A[:3, :3] = A[:3, :3] @ adjustment: right-multiplies the rotation block in
   * place and leaves the translation column and the bottom row alone.
   */
  method AdjustRotation(a: array2<real>, adjustment: Matrix)
    requires a.Length0 == 4 && a.Length1 == 4
    requires IsMatrix(adjustment, 3, 3)
    modifies a
    ensures forall i, j :: 0 <= i < 3 && 0 <= j < 3 ==>
      a[i, j] == MatMul(Block3(old(Entries(a))), adjustment, 3)[i][j]
    ensures forall i :: 0 <= i < 4 ==> a[i, 3] == old(a[i, 3]) && a[3, i] == old(a[3, i])
  {
    var rotated := MatMul(Block3(Entries(a)), adjustment, 3);
    for i := 0 to 3
      invariant forall i', j :: 0 <= i' < i && 0 <= j < 3 ==> a[i', j] == rotated[i'][j]
      invariant forall i', j :: 0 <= i' < 4 && 0 <= j < 4 && (i <= i' || j == 3) ==> a[i', j] == old(a[i', j])
    {
      for j := 0 to 3
        invariant forall i', j' :: 0 <= i' < i && 0 <= j' < 3 ==> a[i', j'] == rotated[i'][j']
        invariant forall j' :: 0 <= j' < j ==> a[i, j'] == rotated[i][j']
        invariant forall i', j' :: 0 <= i' < 4 && 0 <= j' < 4 && ((i < i' || j' == 3) || (i == i' && j <= j')) ==>
          a[i', j'] == old(a[i', j'])
      {
        a[i, j] := rotated[i][j];
      }
    }
  }

  /** A fresh 4x4 array holding the entries of m. */
  method ToArray(m: Matrix) returns (a: array2<real>)
    requires IsMatrix(m, 4, 4)
    ensures fresh(a) && a.Length0 == 4 && a.Length1 == 4 && Entries(a) == m
  {
    a := new real[4, 4]((i, j) requires 0 <= i < 4 && 0 <= j < 4 => m[i][j]);
    forall i | 0 <= i < 4
      ensures Entries(a)[i] == m[i]
    {
    }
  }

  /** The base transform for a position with the identity orientation. */
  function Translation(position: Vector): (m: Matrix)
    requires |position| == 3
    ensures Homogeneous(m)
    ensures forall i, j :: 0 <= i < 3 && 0 <= j < 3 ==> m[i][j] == if i == j then 1.0 else 0.0
    ensures forall i :: 0 <= i < 3 ==> m[i][3] == position[i]
  {
    [ [1.0, 0.0, 0.0, position[0]],
      [0.0, 1.0, 0.0, position[1]],
      [0.0, 0.0, 1.0, position[2]],
      [0.0, 0.0, 0.0, 1.0] ]
  }

  /** The end-effector transform (before the pose conversion) and the Jacobian. */
  datatype FkOutput = FkOutput(endEffector: array2<real>, jacobian: array2<real>)

  /** The forward-kinematics entry point. */
  method YourFk(trig: Trig, basePosition: Vector, dh: seq<DHParam>, q: seq<real>, adjustment: Matrix)
    returns (r: Result<FkOutput>)
    requires |basePosition| == 3
    requires IsMatrix(adjustment, 3, 3)
    ensures r.Success? <==> |dh| == 7 && |q| == 7
    ensures r.Failure? ==> r.error == DimensionMismatch
    ensures r.Success? ==> fresh(r.value.endEffector) && fresh(r.value.jacobian)
    ensures r.Success? ==>
      var a := r.value.endEffector;
      var full := MatMul(Translation(basePosition), Chain(trig, q, dh, 7), 4);
      && a.Length0 == 4 && a.Length1 == 4
      && (forall i, j :: 0 <= i < 3 && 0 <= j < 3 ==> a[i, j] == MatMul(Block3(full), adjustment, 3)[i][j])
      && (forall i :: 0 <= i < 4 ==> a[i, 3] == full[i][3] && a[3, i] == full[3][i])
    ensures r.Success? ==>
      var jac := r.value.jacobian;
      && jac.Length0 == 6 && jac.Length1 == 7
      && forall row, i :: 0 <= row < 6 && 0 <= i < 7 ==>
           jac[row, i] == JacobianColumn(trig, i, 7, q, dh, Translation(basePosition))[row]
  {
    if !(|dh| == 7 && |q| == 7) {
      return Failure(DimensionMismatch);
    }
    var base := Translation(basePosition);
    var chain := TransformToBaseFrom(trig, 7, q, dh, false);
    var full := MatMul(base, chain.value, 4);
    var a := ToArray(full);
    var jacobian := ConstructJacobian(trig, |dh|, q, dh, Translation(basePosition));
    AdjustRotation(a, adjustment);
    return Success(FkOutput(a, jacobian.value));
  }
}

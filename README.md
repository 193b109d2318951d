# Panda forward kinematics and Jacobian, modelled in Dafny

This project models `fk.py`. That file computes the forward kinematics and the geometric
Jacobian of the 7-joint Franka Panda arm, using Craig's modified Denavit–Hartenberg (DH)
convention. It also holds the scorer's arithmetic, which compares the results with reference
test cases. The model works over Dafny's `real`:

- cosine and sine are uninterpreted: they are the two fields of a `Trig` value passed to every
  kinematic function, so each property holds for any cos and sin;
- matrices are `seq<seq<real>>` values;
- the two arrays the code writes in place, the Jacobian `J` and the end-effector matrix `A`,
  are `array2<real>`.

Modules:

- `LinAlg` (`linalg.dfy`): the numpy operations used. These are the `@` product, the
  matrix-vector product, the upper-left block `[:3, :3]`, the 3-vector cross product, and facts
  about homogeneous 4x4 transforms (bottom row `[0, 0, 0, 1]`).
- `Kinematics` (`kinematics.dfy`):
  - the DH table;
  - the per-joint modified-DH matrix;
  - the chain builder `get_transform_to_base_from`;
  - `calc_Z`, `calc_P` and `construct_jacobian`;
  - the entry point `your_fk`.
- `Scoring` (`scoring.dfy`): the arithmetic of `score_fk`. This covers the per-case threshold
  test, the per-file penalty, the clamp at zero and the totals.
- `Errors` (`errors.dfy`): the exceptions the code can raise on malformed input, returned as
  `Result` failures. `IndexOutOfRange` is Python's `IndexError`, `DimensionMismatch` is the
  failed length assertion, and `DivisionByZero` is the `ZeroDivisionError` of a file with no
  cases.

Two consequences of the code as written are easy to miss:

- The chain builder composes joints `0..level` inclusive whenever `level` is not the length of
  the DH table, whatever flag is passed. So `level = 0` gives joint 0's transform, not the
  identity (the identity comes back only for an empty table).
- The axis `Z_i` used for Jacobian column `i` is therefore the z column of
  `base @ T_0 @ … @ T_i`, not of `base @ T_0 @ … @ T_{i-1}`. In the modified convention this is
  joint `i`'s rotation axis, so the code's choice is the right one for a Jacobian.
- The lever arm runs from the origin of that same frame.

Assumptions:

- The base transform is a pure translation by the base position (`Translation`). The code passes
  the identity quaternion, and the conversion routine it calls is not part of this model.
- The −45° end-effector correction is an arbitrary 3x3 matrix `adjustment`, passed in.
- `construct_jacobian` is modelled for any `n_joints`. Every input on which it would raise
  `IndexError` does so while computing column 0, before anything is written. So the model
  decides the failure before its loop.

Behaviour the verified contracts bring out:

- Each failing case costs `(20 / file_num) / (0.3 · cases_num)`. This is TASK1_SCORE_MAX, the
  sum of both maxima. A file's FK (or Jacobian) score, whose maximum is `10 / file_num`,
  therefore reaches zero exactly when at least 15% of its cases fail (`FileScoreVanishesIff`).
- An error equal to its threshold passes.
- A file with no cases makes the scorer divide by zero.

## Model

| member | source | states |
|---|---|---|
| `LinAlg.Cross` | fk.py:19-20 | the cross product of two 3-vectors is a 3-vector orthogonal to both factors; crossing with the zero vector gives the zero vector |
| `LinAlg.HomogeneousMul` | fk.py:63-66 | the product of two 4x4 matrices with bottom row [0,0,0,1] again has bottom row [0,0,0,1] |
| `LinAlg.IdentityLeft` | fk.py:49 | right-multiplying the starting identity by a 4x4 matrix gives that matrix |
| `LinAlg.MatVecOrigin` | fk.py:95-103 | multiplying a 4-column matrix by [0,0,0,1] yields its translation (fourth) column |
| `LinAlg.MatVecZAxis` | fk.py:89-91 | multiplying a 3x3 block by [0,0,1] yields its third column |
| `Kinematics.PandaDH` | fk.py:22-41 | the arm's DH table has exactly 7 entries, so the entry point's length check passes on it; every twist is 0 or ±pi/2 |
| `Kinematics.JointTransform` | fk.py:55-66 | each per-joint modified-DH matrix is a 4x4 homogeneous transform (bottom row [0,0,0,1]) |
| `Kinematics.Chain` | fk.py:49-66 | the left-to-right product T_0 @ … @ T_{k-1} starting from the identity is a homogeneous transform |
| `Kinematics.TransformToBaseFrom` | fk.py:43-86 | with level equal to the table length and the flag false, the result is the full chain T_0…T_{level-1}. Under the default flag it succeeds exactly when `TransformDefined` holds and then returns `TransformToBase`. With any other level the flag is overridden, and the result is T_0…T_level, defined exactly when level is below both list lengths. Asking for the full table with the flag true always fails with IndexOutOfRange. The full chain fails exactly when there are fewer angles than joints |
| `Kinematics.ChainLocality` | fk.py:54-84 | the chain through k joints is unchanged by any change to joint angles or DH entries at index k or beyond |
| `Kinematics.LevelZeroIsFirstJoint` | fk.py:49-84 | for a non-empty table, level 0 composes one joint and yields exactly joint 0's transform, not the identity |
| `Kinematics.IdentityOnlyForEmptyTable` | fk.py:49-52 | the builder composes no joint only for level 0 of an empty table with the flag false, and then returns the identity |
| `Kinematics.JointsComposed` | fk.py:51-68 | the builder composes `level` joints or `level + 1`. It composes exactly `level` only when `level` is the table length and the flag is false; any other level forces the extra joint `level` in |
| `Kinematics.TransformDefined` | fk.py:54-78 | under the default flag the builder indexes only existing angles and DH entries exactly when either `level` is below both list lengths, or `level` equals the table length and there are at least that many angles |
| `Kinematics.JacobianDefined` | fk.py:109-114 | construct_jacobian raises nothing exactly when `n_joints` is 0, or `n_joints` is below both list lengths, or `n_joints` equals the table length and there are at least that many angles |
| `Kinematics.TransformToBase` | fk.py:43-52 | the builder's result under its default flag is homogeneous |
| `Kinematics.CalcZ` | fk.py:88-92 | Z_l is the third column of the rotation block of base @ transform(l) |
| `Kinematics.FrameOrigin` | fk.py:95-103 | base @ transform(l) @ [0,0,0,1] is the translation column of base @ transform(l) |
| `Kinematics.LeverArm4` | fk.py:94-105 | the difference of the two frame origins is a 4-vector |
| `Kinematics.CalcP` | fk.py:94-107 | P_l is the 3-vector of differences between the translation columns of base @ transform(n_joints) and base @ transform(l) |
| `Kinematics.LeverArmFourthEntryZero` | fk.py:105-107 | for a homogeneous base the dropped fourth entry of P_0E − P_0_from_i_1 is 0, so calc_P loses nothing |
| `Kinematics.ColumnsDefined` | fk.py:112-114 | when construct_jacobian succeeds, calc_Z and calc_P are defined for every column index |
| `Kinematics.JacobianColumn` | fk.py:113-119 | column i of the Jacobian has six entries: rows 0-2 are cross(Z_i, P_i) and rows 3-5 are Z_i |
| `Kinematics.AngularPartIsAxis` | fk.py:113-117 | rows 3-5 of column i are the z column of base @ T_0 @ … @ T_i (joint i included) |
| `Kinematics.LinearPartOrthogonalToAxis` | fk.py:116-117 | rows 0-2 of every column are orthogonal to rows 3-5 |
| `Kinematics.LastColumnLinearPartZero` | fk.py:94-116 | for the last joint of the table the partial chain equals the full chain, so P is the zero vector and rows 0-2 of the last column are zero |
| `Kinematics.SetColumn` | fk.py:119 | J[:, i] = col overwrites column i with col and leaves every other column unchanged |
| `Kinematics.ConstructJacobian` | fk.py:109-121 | the Jacobian is a fresh 6 x n_joints array whose column i is cross(Z_i, P_i) over Z_i. It fails with IndexOutOfRange exactly when some requested chain indexes past a list. When n_joints is the table length, rows 0-2 of the last column are zero |
| `Kinematics.Entries` | fk.py:154 | a 4x4 array read as a matrix value holds the array's entries |
| `Kinematics.AdjustRotation` | fk.py:153-154 | A[:3, :3] becomes old A[:3, :3] @ adjustment; the translation column and bottom row of A are unchanged |
| `Kinematics.ToArray` | fk.py:145 | A is a fresh 4x4 array holding exactly the product's entries |
| `Kinematics.Translation` | fk.py:126-132 | the base transform is homogeneous with the identity rotation and the base position as translation |
| `Kinematics.YourFk` | fk.py:123-160 | fails with DimensionMismatch, returning nothing, unless both the DH table and q have 7 entries. Otherwise A's rotation block is that of base @ chain(7) right-multiplied by the adjustment, and its translation column and bottom row are those of base @ chain(7). The 6x7 Jacobian is built from the unadjusted base transform |
| `Scoring.CountAbove` | fk.py:210-219 | the number of cases whose error is strictly above the threshold is at most the number of cases |
| `Scoring.CountAboveStep` | fk.py:197-219 | counting one more case adds one exactly when that case's error is above the threshold |
| `Scoring.CountAboveZeroIff` | fk.py:210-212 | no case is counted iff every error is at most the threshold (equality passes) |
| `Scoring.CountAboveAllIff` | fk.py:210-212 | every case is counted iff every error is strictly above the threshold |
| `Scoring.Penalty` | fk.py:195 | the penalty is positive and penalty · 0.3 · cases_num · file_num equals TASK1_SCORE_MAX |
| `Scoring.FileScore` | fk.py:169-222 | a file's score lies in [0, max/file_num]; it equals max/file_num when no case fails, and is 0 iff count · penalty ≥ max/file_num |
| `Scoring.ClampScore` | fk.py:221-222 | clamping the running score at zero yields the closed-form file score |
| `Scoring.FileScoreVanishesIff` | fk.py:195-222 | with either maximum (10), a file scores 0 iff at least 15% of its cases fail |
| `Scoring.DeductionIsProduct` | fk.py:211-218 | count successive subtractions of the penalty take off count · penalty |
| `Scoring.SumBounds` | fk.py:233-237 | a sum of values in [0, hi] lies in [0, len · hi] |
| `Scoring.TotalBounds` | fk.py:233-237 | n file scores each at most max/n add up to a total in [0, max] |
| `Scoring.TallyCases` | fk.py:197-219 | after the case loop each count is the number of cases strictly above its threshold, and each score is its start minus that many penalties |
| `Scoring.Total` | fk.py:233-237 | the summing loop returns the sum of the per-file scores |
| `Scoring.ScoreFile` | fk.py:181-222 | one file fails with DivisionByZero iff it has no cases; otherwise its counts and clamped scores are the closed forms |
| `Scoring.ScoreFk` | fk.py:165-242 | fails with DivisionByZero iff some file has no cases. Otherwise it returns every file's counts and clamped scores, each total is the sum of its per-file scores, and each total lies in [0, its maximum] |

## Left out

- Simulator and GUI: PyBullet setup, debug text, coordinate drawing, and `main` (fk.py:174-178, 201-205, 231, 244-289). The robot object's base position is an explicit input of `YourFk`.
- JSON loading, printing and argument parsing (fk.py:183-185, 208-209, 214-215, 224-230, 239-242, 284-289). `ScoreFk` returns the per-file scores, counts and totals that `score_fk` prints.
- `get_matrix_from_pose` and `get_pose_from_matrix`: `utils.bullet_utils` is not part of this model. The base transform is assumed to be `Translation(basePosition)`, a pure translation, because the orientation passed is the identity quaternion.
- YourFk: returns the adjusted 4x4 end-effector matrix instead of the 7-component pose, because the matrix-to-quaternion conversion is not modelled.
- The −45° rotation built with scipy's `R.from_rotvec` (fk.py:153) is an opaque 3x3 parameter `adjustment`.
- Concrete cos, sin, `np.pi` and floating-point rounding are not modelled. Trigonometry is uninterpreted, pi is a parameter of `PandaDH`, and all arithmetic is exact over the reals. The constant 0.3 is exact, and subtracting the penalty count times equals count · penalty.
- Properties that need trigonometric identities (cos² + sin² = 1) are not stated. These include the unit norm of the Jacobian's angular rows and the orthonormality of rotation blocks.
- Accuracy against ground truth, finite-difference checks, and the norm computed for each case's error (fk.py:207, 216) are left out. Per-case errors are inputs to `ScoreFk`.
- `ScoreFk` takes each case as one pose error paired with one Jacobian error. A test file whose pose or Jacobian list is shorter than its joint-pose list (an `IndexError` in the code) cannot be expressed.
- TransformToBaseFrom: `level` is a natural number. Python's negative indexing for a negative level is not modelled.
- ConstructJacobian: the partially filled array that an exception would leave behind is not modelled. No input can produce one, because every failure happens before the first write.

/**
 * Rigid transform of the camera's extrinsic state: position becomes
 * scale * R * position + t and the pose becomes R composed with the pose.
 * Two versions: the one the camera model runs, which takes the position from
 * the camera centre at pixel (0, 0), and the one that takes the stored
 * initial position.
 */
module Transform {
  import opened Geometry
  import opened Camera
  import opened Kinematics

  /** The new position of a point under x -> scale * R * x + t. */
  function RigidMap(rotation: Matrix3, translation: Vec3, scale: real, p: Vec3): Vec3 {
    Add3(Scale3(scale, MatVec(rotation, p)), translation)
  }

  /**
   * The transform as the camera model computes it: the position it maps is
   * the camera centre at pixel (0, 0), which is the scan-end position for a
   * right-to-left scan.
   */
  function TransformedAsWritten(s: CameraState, rotation: Matrix3, translation: Vec3, scale: real, rot: RotationAlgebra)
    : (r: CameraState)
    requires ScanDefined(s)
    ensures r.(initialPosition := s.initialPosition, initialOrientation := s.initialOrientation) == s
    ensures r.initialOrientation == rot.compose(rotation, s.initialOrientation)
  {
    s.(initialPosition := RigidMap(rotation, translation, scale, CameraCenter(s, Vec2(0.0, 0.0), rot)),
       initialOrientation := rot.compose(rotation, s.initialOrientation))
  }

  /** The transform applied to the stored scan-start position. */
  function Transformed(s: CameraState, rotation: Matrix3, translation: Vec3, scale: real, rot: RotationAlgebra)
    : (r: CameraState)
    ensures r.(initialPosition := s.initialPosition, initialOrientation := s.initialOrientation) == s
  {
    s.(initialPosition := RigidMap(rotation, translation, scale, s.initialPosition),
       initialOrientation := rot.compose(rotation, s.initialOrientation))
  }

  /** For a left-to-right scan the two agree: pixel (0, 0) is exposed at the start of the scan. */
  lemma AsWrittenAgreesLeftToRight(s: CameraState, rotation: Matrix3, translation: Vec3, scale: real, rot: RotationAlgebra)
    requires ScanDefined(s) && s.scanLeftToRight
    ensures TransformedAsWritten(s, rotation, translation, scale, rot) == Transformed(s, rotation, translation, scale, rot)
  {
    var origin := Vec2(0.0, 0.0);
    assert PixelToTimeDelta(s, origin) == 0.0 by {
      assert ScanFraction(s, origin) == 0.0;
    }
    var v := GetVelocity(s, origin, rot);
    assert Scale3(0.0, v) == Zero3();
    assert CameraCenter(s, origin, rot) == s.initialPosition;
  }

  /**
   * The as-written transform does not fix the position under the identity
   * transform for a right-to-left scan: the scan-end centre (scan time times
   * velocity past the start) is stored as the new scan-start position, so
   * the camera moves whenever the scan takes time and the platform moves.
   */
  lemma AsWrittenIdentityShiftsRightToLeft(s: CameraState, rot: RotationAlgebra)
    requires ScanDefined(s) && !s.scanLeftToRight
    ensures var v := GetVelocity(s, Vec2(0.0, 0.0), rot);
            var p := TransformedAsWritten(s, Identity(), Zero3(), 1.0, rot).initialPosition;
            && p == Add3(s.initialPosition, Scale3(ScanTime(s), v))
            && (ScanTime(s) != 0.0 && v != Zero3() ==> p != s.initialPosition)
  {
    var origin := Vec2(0.0, 0.0);
    var m := MaxCol(s) as real;
    assert ScanFraction(s, origin) == 1.0 by { assert (m - 0.0) / m == 1.0; }
    var p := CameraCenter(s, origin, rot);
    assert MatVec(Identity(), p) == p;
    if ScanTime(s) != 0.0 && GetVelocity(s, origin, rot) != Zero3() {
      CameraCenterAtScanStart(s, origin, rot);
    }
  }

  /** The identity transform leaves the camera unchanged when composing with the identity keeps a pose. */
  lemma TransformIdentity(s: CameraState, rot: RotationAlgebra)
    requires rot.compose(Identity(), s.initialOrientation) == s.initialOrientation
    ensures Transformed(s, Identity(), Zero3(), 1.0, rot) == s
  {
  }

  /**
   * Two transforms in a row move the position as one transform with the
   * product rotation, the product scale and the combined translation
   * scale2 * R2 * t1 + t2; the pose composes likewise when the rotation
   * algebra composes associatively.
   */
  lemma {:induction false} TransformCompose(s: CameraState, r1: Matrix3, t1: Vec3, c1: real,
                                            r2: Matrix3, t2: Vec3, c2: real, rot: RotationAlgebra)
    requires rot.compose(r2, rot.compose(r1, s.initialOrientation)) == rot.compose(MatMul(r2, r1), s.initialOrientation)
    ensures Transformed(Transformed(s, r1, t1, c1, rot), r2, t2, c2, rot)
         == Transformed(s, MatMul(r2, r1), RigidMap(r2, t2, c2, t1), c2 * c1, rot)
  {
    var p := s.initialPosition;
    var q := RigidMap(r1, t1, c1, p);
    // R2 (c1 R1 p + t1) = c1 R2 R1 p + R2 t1
    MatVecLinear(r2, c1, MatVec(r1, p), t1);
    MatMulApply(r2, r1, p);
    var a, b := MatVec(MatMul(r2, r1), p), MatVec(r2, t1);
    assert MatVec(r2, q) == Add3(Scale3(c1, a), b);
    assert RigidMap(r2, t2, c2, q) == Add3(Scale3(c2, Add3(Scale3(c1, a), b)), t2);
    ScaleScale(c2, c1, a);
    assert RigidMap(r2, t2, c2, q) == RigidMap(MatMul(r2, r1), RigidMap(r2, t2, c2, t1), c2 * c1, p);
  }

  lemma ScaleScale(k: real, l: real, a: Vec3)
    ensures Scale3(k, Scale3(l, a)) == Scale3(k * l, a)
  {
  }
}

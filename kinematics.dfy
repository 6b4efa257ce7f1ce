/**
 * Scan kinematics of the optical-bar camera: where a pixel lies on the
 * sensor plane, when during the scan its column is exposed, and where the
 * camera is at that instant under constant-velocity motion.
 */
module Kinematics {
  import opened Geometry
  import opened Camera

  /** Sensor-plane position of a pixel: offset from the principal point, scaled by the pixel pitch. */
  function PixelToSensorPlane(s: CameraState, pix: Vec2): Vec2 {
    Scale2(s.pixelSize, Sub2(pix, s.centerLocPixels))
  }

  /** The principal point lies at the origin of the sensor plane. */
  lemma SensorPlaneCenter(s: CameraState)
    ensures PixelToSensorPlane(s, s.centerLocPixels) == Vec2(0.0, 0.0)
  {
  }

  /** The map is affine: differences of pixels map to differences scaled by the pitch. */
  lemma SensorPlaneAffine(s: CameraState, a: Vec2, b: Vec2)
    ensures Sub2(PixelToSensorPlane(s, a), PixelToSensorPlane(s, b)) == Scale2(s.pixelSize, Sub2(a, b))
  {
  }

  /** With a non-zero pitch the pixel is recovered from its sensor-plane position. */
  lemma SensorPlaneInvertible(s: CameraState, pix: Vec2)
    requires s.pixelSize != 0.0
    ensures var p := PixelToSensorPlane(s, pix);
            pix == Vec2(p.x / s.pixelSize + s.centerLocPixels.x, p.y / s.pixelSize + s.centerLocPixels.y)
  {
  }

  /** The last column index, `width - 1`, computed in integers. */
  function MaxCol(s: CameraState): int { s.imageSize.x - 1 }

  /** The two divisions of the time computation have non-zero divisors. */
  predicate ScanDefined(s: CameraState) { s.scanRate != 0.0 && MaxCol(s) != 0 }

  /** Duration of one complete scan: scan angle over scan rate. */
  function ScanTime(s: CameraState): real
    requires s.scanRate != 0.0
  {
    s.scanAngle / s.scanRate
  }

  /** How far through the scan the pixel's column lies, counted in the scan direction. */
  function ScanFraction(s: CameraState, pix: Vec2): real
    requires MaxCol(s) != 0
  {
    var m := MaxCol(s) as real;
    if s.scanLeftToRight then pix.x / m else (m - pix.x) / m
  }

  /** Time since the start of the scan at which the pixel's column is exposed. */
  function PixelToTimeDelta(s: CameraState, pix: Vec2): (dt: real)
    requires ScanDefined(s)
    ensures MaxCol(s) > 0 && 0.0 <= pix.x <= MaxCol(s) as real && ScanTime(s) >= 0.0
            ==> 0.0 <= dt <= ScanTime(s)
  {
    var f := ScanFraction(s, pix);
    assert MaxCol(s) > 0 && 0.0 <= pix.x <= MaxCol(s) as real && ScanTime(s) >= 0.0
           ==> 0.0 * ScanTime(s) <= f * ScanTime(s) <= 1.0 * ScanTime(s) by {
      if MaxCol(s) > 0 && 0.0 <= pix.x <= MaxCol(s) as real && ScanTime(s) >= 0.0 {
        assert 0.0 <= f <= 1.0;
        ScaleMonotone(0.0, f, ScanTime(s));
        ScaleMonotone(f, 1.0, ScanTime(s));
      }
    }
    f * ScanTime(s)
  }

  /** A left-to-right scan reaches column x after the fraction x / max_col of the scan time. */
  lemma TimeDeltaLeftToRight(s: CameraState, pix: Vec2)
    requires ScanDefined(s) && s.scanLeftToRight
    ensures PixelToTimeDelta(s, pix) * (MaxCol(s) as real) == pix.x * ScanTime(s)
  {
  }

  /** A right-to-left scan reaches column x when a left-to-right one reaches column max_col - x. */
  lemma TimeDeltaMirror(s: CameraState, pix: Vec2)
    requires ScanDefined(s)
    ensures PixelToTimeDelta(s.(scanLeftToRight := false), pix)
         == PixelToTimeDelta(s.(scanLeftToRight := true), Vec2(MaxCol(s) as real - pix.x, pix.y))
  {
  }

  /** The time offset depends on the column only. */
  lemma TimeDeltaIgnoresRow(s: CameraState, pix: Vec2, row: real)
    requires ScanDefined(s)
    ensures PixelToTimeDelta(s, pix) == PixelToTimeDelta(s, Vec2(pix.x, row))
  {
  }

  /**
   * For a non-negative scan time and a positive last column the time offset
   * never decreases along a left-to-right scan and never increases along a
   * right-to-left one.
   */
  lemma TimeDeltaMonotone(s: CameraState, a: Vec2, b: Vec2)
    requires ScanDefined(s) && MaxCol(s) > 0 && ScanTime(s) >= 0.0
    requires a.x <= b.x
    ensures s.scanLeftToRight ==> PixelToTimeDelta(s, a) <= PixelToTimeDelta(s, b)
    ensures !s.scanLeftToRight ==> PixelToTimeDelta(s, a) >= PixelToTimeDelta(s, b)
  {
    FractionOrder(s, a, b);
    if s.scanLeftToRight {
      TimeDeltaOrder(s, a, b);
    } else {
      TimeDeltaOrder(s, b, a);
    }
  }

  /** The scan fraction grows with the column left to right and shrinks right to left. */
  lemma FractionOrder(s: CameraState, a: Vec2, b: Vec2)
    requires MaxCol(s) > 0 && a.x <= b.x
    ensures s.scanLeftToRight ==> ScanFraction(s, a) <= ScanFraction(s, b)
    ensures !s.scanLeftToRight ==> ScanFraction(s, a) >= ScanFraction(s, b)
  {
    var m := MaxCol(s) as real;
    if s.scanLeftToRight {
      DivMonotone(a.x, b.x, m);
    } else {
      DivMonotone(m - b.x, m - a.x, m);
    }
  }

  /** Time offsets are ordered as the scan fractions are when the scan time is not negative. */
  lemma TimeDeltaOrder(s: CameraState, a: Vec2, b: Vec2)
    requires ScanDefined(s) && ScanTime(s) >= 0.0
    requires ScanFraction(s, a) <= ScanFraction(s, b)
    ensures PixelToTimeDelta(s, a) <= PixelToTimeDelta(s, b)
  {
    MulMonotone(ScanFraction(s, a), ScanFraction(s, b), ScanTime(s));
  }

  lemma DivMonotone(x: real, y: real, m: real)
    requires m > 0.0 && x <= y
    ensures x / m <= y / m
  {
    assert x / m == x * (1.0 / m) && y / m == y * (1.0 / m);
    MulMonotone(x, y, 1.0 / m);
  }

  lemma MulMonotone(x: real, y: real, k: real)
    requires k >= 0.0 && x <= y
    ensures x * k <= y * k
  {
  }

  lemma ScaleMonotone(x: real, y: real, k: real)
    requires k >= 0.0
    ensures x <= y ==> x * k <= y * k
    ensures x >= y ==> x * k >= y * k
  {
  }

  /**
   * With a non-zero scan time, the time offset is zero exactly at the first
   * column of the scan: column 0 left to right, column max_col right to left.
   */
  lemma TimeDeltaZeroIff(s: CameraState, pix: Vec2)
    requires ScanDefined(s) && ScanTime(s) != 0.0
    ensures PixelToTimeDelta(s, pix) == 0.0
            <==> pix.x == (if s.scanLeftToRight then 0.0 else MaxCol(s) as real)
  {
    var f := ScanFraction(s, pix);
    ZeroProduct(f, ScanTime(s));
  }

  lemma ZeroProduct(x: real, y: real)
    requires y != 0.0
    ensures x * y == 0.0 <==> x == 0.0
  {
  }

  /** Orientation of the camera: constant over one scan, whatever the pixel. */
  function CameraPose(s: CameraState, pix: Vec2): Vec3 {
    s.initialOrientation
  }

  /**
   * Platform velocity in world coordinates: the sensor-frame velocity
   * (0, speed, 0) taken through the pose matrix and then the rotation by
   * minus the forward tilt about the x axis, as one product matrix.
   */
  function GetVelocity(s: CameraState, pix: Vec2, rot: RotationAlgebra): Vec3 {
    var pose := rot.matrixOf(CameraPose(s, pix));
    var m := MatMul(rot.xRotation(-s.forwardTilt), pose);
    MatVec(m, Vec3(0.0, s.speed, 0.0))
  }

  /** The velocity is the speed times the world direction of the sensor's forward axis. */
  lemma {:induction false} VelocityScalesWithSpeed(s: CameraState, pix: Vec2, rot: RotationAlgebra)
    ensures GetVelocity(s, pix, rot) == Scale3(s.speed, GetVelocity(s.(speed := 1.0), pix, rot))
    ensures GetVelocity(s, pix, rot)
         == MatVec(rot.xRotation(-s.forwardTilt), MatVec(rot.matrixOf(s.initialOrientation), Vec3(0.0, s.speed, 0.0)))
  {
    var m := MatMul(rot.xRotation(-s.forwardTilt), rot.matrixOf(s.initialOrientation));
    MatVecLinear(m, s.speed, Vec3(0.0, 1.0, 0.0), Zero3());
    assert Vec3(0.0, s.speed, 0.0) == Add3(Scale3(s.speed, Vec3(0.0, 1.0, 0.0)), Zero3());
    MatMulApply(rot.xRotation(-s.forwardTilt), rot.matrixOf(s.initialOrientation), Vec3(0.0, s.speed, 0.0));
  }

  /** Camera centre when the pixel's column is exposed: constant-velocity extrapolation from the scan start. */
  function CameraCenter(s: CameraState, pix: Vec2, rot: RotationAlgebra): Vec3
    requires ScanDefined(s)
  {
    Add3(s.initialPosition, Scale3(PixelToTimeDelta(s, pix), GetVelocity(s, pix, rot)))
  }

  /**
   * For a moving platform the centre is the initial position exactly when
   * the time offset is zero; for a non-zero scan time, exactly at the first
   * column of the scan.
   */
  lemma CameraCenterAtScanStart(s: CameraState, pix: Vec2, rot: RotationAlgebra)
    requires ScanDefined(s)
    requires GetVelocity(s, pix, rot) != Zero3()
    ensures CameraCenter(s, pix, rot) == s.initialPosition <==> PixelToTimeDelta(s, pix) == 0.0
    ensures ScanTime(s) != 0.0 ==>
              (CameraCenter(s, pix, rot) == s.initialPosition
               <==> pix.x == (if s.scanLeftToRight then 0.0 else MaxCol(s) as real))
  {
    var dt, v := PixelToTimeDelta(s, pix), GetVelocity(s, pix, rot);
    if CameraCenter(s, pix, rot) == s.initialPosition {
      assert dt * v.x == 0.0 && dt * v.y == 0.0 && dt * v.z == 0.0;
      if v.x != 0.0 { ZeroProduct(dt, v.x); }
      else if v.y != 0.0 { ZeroProduct(dt, v.y); }
      else { ZeroProduct(dt, v.z); }
    }
    if ScanTime(s) != 0.0 {
      TimeDeltaZeroIff(s, pix);
    }
  }
}

/**
 * Forward projection of the optical-bar camera: the ray through a pixel in
 * world coordinates, with the optional refraction and velocity-aberration
 * corrections applied according to the model's flags.
 */
module Projection {
  import opened Wrappers
  import opened Geometry
  import opened Camera
  import opened Kinematics

  /**
   * The two physical corrections of the geometry library. Each takes the
   * camera centre and the ray (the aberration correction also the velocity)
   * and may fail with a message.
   *   refraction(center, meanEarthRadius, meanSurfaceElevation, ray)
   *   aberration(center, velocity, meanEarthRadius, ray)
   */
  datatype Corrections = Corrections(
    refraction: (Vec3, real, real, Vec3) -> Result<Vec3, string>,
    aberration: (Vec3, Vec3, real, Vec3) -> Result<Vec3, string>)

  /** Height of the camera above the mean surface: |center| - (elevation + radius). */
  function Altitude(s: CameraState, center: Vec3, trig: Trig): real {
    trig.norm(center) - (s.meanSurfaceElevation + s.meanEarthRadius)
  }

  /**
   * Along-track shift of the image from forward-motion compensation:
   * (f * speed / (H * scanRate)) * sin(alpha), multiplied by the integer
   * compensation flag and negated for a right-to-left scan.
   */
  function MotionCompensation(s: CameraState, sinAlpha: real, h: real): (c: real)
    requires h * s.scanRate != 0.0
    ensures s.useMotionCompensation == 0 ==> c == 0.0
  {
    var c := ((s.focalLength * s.speed) / (h * s.scanRate)) * sinAlpha * (s.useMotionCompensation as real);
    if !s.scanLeftToRight then -c else c
  }

  /** Reversing the scan direction negates the compensation. */
  lemma CompensationMirror(s: CameraState, sinAlpha: real, h: real)
    requires h * s.scanRate != 0.0
    ensures MotionCompensation(s.(scanLeftToRight := false), sinAlpha, h)
         == -MotionCompensation(s.(scanLeftToRight := true), sinAlpha, h)
  {
  }

  /** The integer flag is a multiplier, not a switch: flag k gives k times the compensation of flag 1. */
  lemma CompensationScalesWithFlag(s: CameraState, sinAlpha: real, h: real)
    requires h * s.scanRate != 0.0
    ensures MotionCompensation(s, sinAlpha, h)
         == (s.useMotionCompensation as real) * MotionCompensation(s.(useMotionCompensation := 1), sinAlpha, h)
  {
  }

  /** The divisions of the ray computation have non-zero divisors. */
  predicate RayDefined(s: CameraState, pix: Vec2, rot: RotationAlgebra, trig: Trig) {
    && ScanDefined(s)
    && s.focalLength != 0.0
    && Altitude(s, CameraCenter(s, pix, rot), trig) * s.scanRate != 0.0
  }

  /** The ray in the camera frame before normalisation: (f sin(alpha), y + compensation, f cos(alpha)). */
  function CameraFrameRay(s: CameraState, pix: Vec2, rot: RotationAlgebra, trig: Trig): (r: Vec3)
    requires RayDefined(s, pix, rot, trig)
    ensures var alpha := PixelToSensorPlane(s, pix).x / s.focalLength;
            r.x == s.focalLength * trig.sin(alpha) && r.z == s.focalLength * trig.cos(alpha)
    ensures s.useMotionCompensation == 0 ==> r.y == PixelToSensorPlane(s, pix).y
  {
    var plane := PixelToSensorPlane(s, pix);
    var alpha := plane.x / s.focalLength;
    var h := Altitude(s, CameraCenter(s, pix, rot), trig);
    var compensation := MotionCompensation(s, trig.sin(alpha), h);
    Vec3(s.focalLength * trig.sin(alpha), plane.y + compensation, s.focalLength * trig.cos(alpha))
  }

  /** The uncorrected ray: the normalised camera-frame ray rotated by the camera pose. */
  function PixelToVectorUncorrected(s: CameraState, pix: Vec2, rot: RotationAlgebra, trig: Trig): Vec3
    requires RayDefined(s, pix, rot, trig)
  {
    rot.rotate(CameraPose(s, pix), trig.normalize(CameraFrameRay(s, pix, rot, trig)))
  }

  /** The refraction correction runs when its flag is FALSE, as the model's code tests it. */
  predicate RefractionApplied(s: CameraState) { !s.correctAtmosphericRefraction }

  /** The velocity-aberration correction runs when its flag is true. */
  predicate AberrationApplied(s: CameraState) { s.correctVelocityAberration }

  /**
   * The world-frame ray through a pixel: the uncorrected ray, then the
   * refraction correction if it applies, then the aberration correction if
   * it applies; a failure in either is re-raised as PixelToRayErr with the
   * inner message.
   */
  function PixelToVector(s: CameraState, pix: Vec2, rot: RotationAlgebra, trig: Trig, fix: Corrections)
    : (r: Result<Vec3, CameraError>)
    requires RayDefined(s, pix, rot, trig)
    ensures r.Err? ==> r.error.PixelToRayErr?
    ensures !RefractionApplied(s) && !AberrationApplied(s) ==> r == Ok(PixelToVectorUncorrected(s, pix, rot, trig))
  {
    var ray := PixelToVectorUncorrected(s, pix, rot, trig);
    var center := CameraCenter(s, pix, rot);
    var refracted :=
      if RefractionApplied(s) then fix.refraction(center, s.meanEarthRadius, s.meanSurfaceElevation, ray)
      else Ok(ray);
    match refracted
    case Err(e) => Err(PixelToRayErr(e))
    case Ok(ray') =>
      if !AberrationApplied(s) then Ok(ray')
      else match fix.aberration(center, GetVelocity(s, pix, rot), s.meanEarthRadius, ray')
        case Err(e) => Err(PixelToRayErr(e))
        case Ok(ray'') => Ok(ray'')
  }

  /** With its flag set, the refraction correction is never consulted: any other one gives the same ray. */
  lemma RefractionSkippedWhenFlagSet(s: CameraState, pix: Vec2, rot: RotationAlgebra, trig: Trig, fix: Corrections,
                                     other: (Vec3, real, real, Vec3) -> Result<Vec3, string>)
    requires RayDefined(s, pix, rot, trig)
    requires s.correctAtmosphericRefraction
    ensures PixelToVector(s, pix, rot, trig, fix) == PixelToVector(s, pix, rot, trig, fix.(refraction := other))
  {
  }

  /** With its flag clear, the aberration correction is never consulted. */
  lemma AberrationSkippedWhenFlagClear(s: CameraState, pix: Vec2, rot: RotationAlgebra, trig: Trig, fix: Corrections,
                                       other: (Vec3, Vec3, real, Vec3) -> Result<Vec3, string>)
    requires RayDefined(s, pix, rot, trig)
    requires !s.correctVelocityAberration
    ensures PixelToVector(s, pix, rot, trig, fix) == PixelToVector(s, pix, rot, trig, fix.(aberration := other))
  {
  }

  /**
   * With the refraction flag clear and aberration off, the result is the
   * refraction correction of the uncorrected ray at the pixel's camera
   * centre, its failure message carried over.
   */
  lemma RefractionAppliedWhenFlagClear(s: CameraState, pix: Vec2, rot: RotationAlgebra, trig: Trig, fix: Corrections)
    requires RayDefined(s, pix, rot, trig)
    requires !s.correctAtmosphericRefraction && !s.correctVelocityAberration
    ensures var inner := fix.refraction(CameraCenter(s, pix, rot), s.meanEarthRadius, s.meanSurfaceElevation,
                                        PixelToVectorUncorrected(s, pix, rot, trig));
            PixelToVector(s, pix, rot, trig, fix) == (if inner.Ok? then Ok(inner.value) else Err(PixelToRayErr(inner.error)))
  {
  }

  /**
   * With the aberration flag set and refraction skipped, the result is the
   * aberration correction of the uncorrected ray with the pixel's camera
   * centre and velocity.
   */
  lemma AberrationAppliedWhenFlagSet(s: CameraState, pix: Vec2, rot: RotationAlgebra, trig: Trig, fix: Corrections)
    requires RayDefined(s, pix, rot, trig)
    requires s.correctAtmosphericRefraction && s.correctVelocityAberration
    ensures var inner := fix.aberration(CameraCenter(s, pix, rot), GetVelocity(s, pix, rot), s.meanEarthRadius,
                                        PixelToVectorUncorrected(s, pix, rot, trig));
            PixelToVector(s, pix, rot, trig, fix) == (if inner.Ok? then Ok(inner.value) else Err(PixelToRayErr(inner.error)))
  {
  }

  /**
   * With the refraction flag clear and the aberration flag set, both
   * corrections run in turn: when both succeed, the result is the aberration
   * correction of the refracted ray, with the pixel's camera centre and
   * velocity.
   */
  lemma BothCorrectionsApplied(s: CameraState, pix: Vec2, rot: RotationAlgebra, trig: Trig, fix: Corrections)
    requires RayDefined(s, pix, rot, trig)
    requires !s.correctAtmosphericRefraction && s.correctVelocityAberration
    ensures var center := CameraCenter(s, pix, rot);
            var refracted := fix.refraction(center, s.meanEarthRadius, s.meanSurfaceElevation,
                                            PixelToVectorUncorrected(s, pix, rot, trig));
            refracted.Ok? && fix.aberration(center, GetVelocity(s, pix, rot), s.meanEarthRadius, refracted.value).Ok?
            ==> PixelToVector(s, pix, rot, trig, fix)
                == Ok(fix.aberration(center, GetVelocity(s, pix, rot), s.meanEarthRadius, refracted.value).value)
  {
  }

  /**
   * The call fails exactly when a correction that runs fails: refraction
   * first, then aberration on the refracted ray.
   */
  lemma PixelToVectorFailsIff(s: CameraState, pix: Vec2, rot: RotationAlgebra, trig: Trig, fix: Corrections)
    requires RayDefined(s, pix, rot, trig)
    ensures var center := CameraCenter(s, pix, rot);
            var ray := PixelToVectorUncorrected(s, pix, rot, trig);
            var refracted := if RefractionApplied(s)
                             then fix.refraction(center, s.meanEarthRadius, s.meanSurfaceElevation, ray) else Ok(ray);
            PixelToVector(s, pix, rot, trig, fix).Err?
            <==> (refracted.Err?
                  || (AberrationApplied(s)
                      && fix.aberration(center, GetVelocity(s, pix, rot), s.meanEarthRadius, refracted.value).Err?))
  {
  }
}

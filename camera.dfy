/**
 * The optical-bar camera's parameter set as a value, and the errors its
 * operations raise.
 */
module Camera {
  import opened Geometry

  /**
   * Every member field of the camera model. The orientation is an axis-angle
   * vector; `useMotionCompensation` is an integer that the ray computation
   * multiplies by, so any non-zero value switches compensation on (and scales it).
   */
  datatype CameraState = CameraState(
    imageSize: Vec2i,
    centerLocPixels: Vec2,
    pixelSize: real,
    focalLength: real,
    scanAngle: real,
    scanRate: real,
    forwardTilt: real,
    initialPosition: Vec3,
    initialOrientation: Vec3,
    speed: real,
    meanEarthRadius: real,
    meanSurfaceElevation: real,
    useMotionCompensation: int,
    scanLeftToRight: bool,
    correctAtmosphericRefraction: bool,
    correctVelocityAberration: bool)

  /** The labelled lines of the camera file, in file order. */
  datatype Field =
    | ImageSize | ImageCenter | Pitch | FocalLength | ScanAngle | ScanRate | ForwardTilt
    | InitialPosition | InitialRotation | Speed | MeanEarthRadius | MeanSurfaceElevation
    | UseMotionCompensation

  /** Why reading or writing a camera file stopped. */
  datatype FileFailure =
    | CannotOpen
    | VersionMissing
    | VersionUnsupported(version: int)
    | WrongCameraType(line: string)
    | Unreadable(field: Field)

  /** The exception kinds the model raises: IOErr, ArgumentErr and PixelToRayErr. */
  datatype CameraError =
    | IOErr(cause: FileFailure)
    | ArgumentErr(cause: FileFailure)
    | PixelToRayErr(message: string)
}

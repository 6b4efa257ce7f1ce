/**
 * The optical-bar camera model as an object: its member fields, updated in
 * place by reading a camera file and by a rigid transform, and written back
 * to a camera file.
 */
module OpticalBarModel {
  import opened Wrappers
  import opened Geometry
  import opened Text
  import opened Camera
  import opened Kinematics
  import opened Transform
  import opened Persistence

  class OpticalBarModel {
    var imageSize: Vec2i
    var centerLocPixels: Vec2
    var pixelSize: real
    var focalLength: real
    var scanAngle: real
    var scanRate: real
    var forwardTilt: real
    var initialPosition: Vec3
    var initialOrientation: Vec3
    var speed: real
    var meanEarthRadius: real
    var meanSurfaceElevation: real
    var useMotionCompensation: int
    var scanLeftToRight: bool
    var correctAtmosphericRefraction: bool
    var correctVelocityAberration: bool

    /** The member fields as one value. */
    function State(): CameraState
      reads this
    {
      CameraState(imageSize, centerLocPixels, pixelSize, focalLength, scanAngle, scanRate, forwardTilt,
                  initialPosition, initialOrientation, speed, meanEarthRadius, meanSurfaceElevation,
                  useMotionCompensation, scanLeftToRight, correctAtmosphericRefraction, correctVelocityAberration)
    }

    constructor (s: CameraState)
      ensures State() == s
    {
      imageSize, centerLocPixels, pixelSize, focalLength := s.imageSize, s.centerLocPixels, s.pixelSize, s.focalLength;
      scanAngle, scanRate, forwardTilt := s.scanAngle, s.scanRate, s.forwardTilt;
      initialPosition, initialOrientation, speed := s.initialPosition, s.initialOrientation, s.speed;
      meanEarthRadius, meanSurfaceElevation := s.meanEarthRadius, s.meanSurfaceElevation;
      useMotionCompensation, scanLeftToRight := s.useMotionCompensation, s.scanLeftToRight;
      correctAtmosphericRefraction, correctVelocityAberration := s.correctAtmosphericRefraction, s.correctVelocityAberration;
    }

    /**
     * Maps the camera by x -> scale * rotation * x + translation: the position
     * taken is the camera centre at pixel (0, 0), and the pose is composed
     * with the rotation.
     */
    method ApplyTransform(rotation: Matrix3, translation: Vec3, scale: real, rot: RotationAlgebra)
      requires ScanDefined(State())
      modifies this
      ensures State() == TransformedAsWritten(old(State()), rotation, translation, scale, rot)
    {
      var position := CameraCenter(State(), Vec2(0.0, 0.0), rot);
      var pose := initialOrientation;
      position := RigidMap(rotation, translation, scale, position);
      pose := rot.compose(rotation, pose);
      initialPosition := position;
      initialOrientation := pose;
    }

    /**
     * The same rigid transform applied to the stored scan-start position,
     * which keeps the position fixed under the identity for either scan
     * direction.
     */
    method ApplyTransformAtScanStart(rotation: Matrix3, translation: Vec3, scale: real, rot: RotationAlgebra)
      modifies this
      ensures State() == Transformed(old(State()), rotation, translation, scale, rot)
    {
      var position := RigidMap(rotation, translation, scale, initialPosition);
      var pose := rot.compose(rotation, initialOrientation);
      initialPosition := position;
      initialOrientation := pose;
    }

    /**
     * One field line: unless the stream went bad, scans it and stores the
     * values converted; reports whether the stream was good and every value
     * was converted.
     */
    method ReadFieldLine(f: TextFile, k: nat, text: NumberText, rot: RotationAlgebra) returns (complete: bool)
      requires k < |FieldOrder|
      modifies this
      ensures (State(), complete) == ReadStep(old(State()), f, k, text, rot)
    {
      if !GoodAfter(f, k + 2) {
        return false;
      }
      var field, line := FieldOrder[k], LineAt(f, k + 2);
      if IsIntField(field) {
        var v := ScanField(line, Label(field), Count(field), ScanInt);
        StoreIntValues(field, v);
        complete := |v| == Count(field);
      } else {
        var v := ScanField(line, Label(field), Count(field), text.scanReal);
        StoreRealValues(field, v, rot);
        complete := |v| == Count(field);
      }
    }

    /**
     * The assignments the %d conversions make: the image size takes each
     * converted value; the motion-compensation flag is read into a temporary
     * and stored only when it was converted.
     */
    method StoreIntValues(field: Field, v: seq<int>)
      modifies this
      ensures State() == StoreInts(old(State()), field, v)
    {
      if field == ImageSize {
        if |v| > 0 { imageSize := imageSize.(x := v[0]); }
        if |v| > 1 { imageSize := imageSize.(y := v[1]); }
      } else if field == UseMotionCompensation && |v| == 1 {
        useMotionCompensation := v[0];
      }
    }

    /** The assignments the %lf conversions make: each converted value lands in its field. */
    method StoreRealValues(field: Field, v: seq<real>, rot: RotationAlgebra)
      modifies this
      ensures State() == StoreReals(old(State()), field, v, rot)
    {
      match field {
        case ImageCenter => StoreImageCenter(v);
        case InitialPosition => StoreInitialPosition(v);
        case InitialRotation =>
          if |v| == 9 { initialOrientation := rot.axisAngleOf(FromEntries(v)); }
        case Pitch => if |v| > 0 { pixelSize := v[0]; }
        case FocalLength => if |v| > 0 { focalLength := v[0]; }
        case ScanAngle => if |v| > 0 { scanAngle := v[0]; }
        case ScanRate => if |v| > 0 { scanRate := v[0]; }
        case ForwardTilt => if |v| > 0 { forwardTilt := v[0]; }
        case Speed => if |v| > 0 { speed := v[0]; }
        case MeanEarthRadius => if |v| > 0 { meanEarthRadius := v[0]; }
        case MeanSurfaceElevation => if |v| > 0 { meanSurfaceElevation := v[0]; }
        case _ =>
      }
    }

    /** "image_center = %lf %lf": each converted value lands in its component. */
    method StoreImageCenter(v: seq<real>)
      modifies this
      ensures State() == StoreCenter(old(State()), v)
    {
      if |v| > 0 { centerLocPixels := centerLocPixels.(x := v[0]); }
      if |v| > 1 { centerLocPixels := centerLocPixels.(y := v[1]); }
    }

    /** "iC = %lf %lf %lf": each converted value lands in its component. */
    method StoreInitialPosition(v: seq<real>)
      modifies this
      ensures State() == StorePosition(old(State()), v)
    {
      if |v| > 0 { initialPosition := initialPosition.(x := v[0]); }
      if |v| > 1 { initialPosition := initialPosition.(y := v[1]); }
      if |v| > 2 { initialPosition := initialPosition.(z := v[2]); }
    }

    /**
     * Reads a camera file into the member fields. The file is None when it
     * cannot be opened.
     */
    method Read(file: Option<TextFile>, text: NumberText, rot: RotationAlgebra) returns (outcome: Outcome<CameraError>)
      modifies this
      ensures (State(), outcome) == ReadCamera(old(State()), file, text, rot)
    {
      if file.None? {
        return Fail(IOErr(CannotOpen));
      }
      var f := file.value;
      var line := LineAt(f, 0);
      if !Contains(line, "VERSION") {
        return Fail(IOErr(VersionMissing));
      }
      var fileVersion := FileVersion(line);
      if fileVersion < 4 {
        return Fail(ArgumentErr(VersionUnsupported(fileVersion)));
      }
      line := TypeLine(f);
      if !Contains(line, "OPTICAL_BAR") {
        return Fail(ArgumentErr(WrongCameraType(line)));
      }
      outcome := ReadBody(f, text, rot);
    }

    /**
     * The field lines and the scan direction, after the header was accepted.
     * The thirteen field blocks run in file order, each one a getline, a
     * stream check and an sscanf with that field's format; the first
     * incomplete one ends the read with IOErr.
     */
    method ReadBody(f: TextFile, text: NumberText, rot: RotationAlgebra) returns (outcome: Outcome<CameraError>)
      modifies this
      ensures (State(), outcome) == ReadFields(old(State()), f, 0, text, rot)
    {
      ghost var goal := ReadFields(State(), f, 0, text, rot);
      var k := 0;
      while k < |FieldOrder|
        invariant k <= |FieldOrder| && goal == ReadFields(State(), f, k, text, rot)
      {
        var complete := ReadFieldLine(f, k, text, rot);
        if !complete {
          return Fail(IOErr(Unreadable(FieldOrder[k])));
        }
        k := k + 1;
      }
      scanLeftToRight := !Contains(LineAt(f, k + 2), "scan_dir = left");
      outcome := Pass;
    }

    /**
     * Writes the camera file: Err when the file cannot be opened, otherwise
     * its sixteen lines in the order they are streamed out.
     */
    method Write(canOpen: bool, text: NumberText, rot: RotationAlgebra) returns (r: Result<TextFile, CameraError>)
      ensures r == if canOpen then Ok(Encode(State(), text, rot)) else Err(IOErr(CannotOpen))
    {
      if !canOpen {
        return Err(IOErr(CannotOpen));
      }
      var sizeLine := EncodeField(State(), ImageSize, text, rot);
      var centerLine := EncodeField(State(), ImageCenter, text, rot);
      var pitchLine := EncodeField(State(), Pitch, text, rot);
      var focalLine := EncodeField(State(), FocalLength, text, rot);
      var angleLine := EncodeField(State(), ScanAngle, text, rot);
      var rateLine := EncodeField(State(), ScanRate, text, rot);
      var tiltLine := EncodeField(State(), ForwardTilt, text, rot);
      var positionLine := EncodeField(State(), InitialPosition, text, rot);
      var rotationLine := EncodeField(State(), InitialRotation, text, rot);
      var speedLine := EncodeField(State(), Speed, text, rot);
      var radiusLine := EncodeField(State(), MeanEarthRadius, text, rot);
      var elevationLine := EncodeField(State(), MeanSurfaceElevation, text, rot);
      var compensationLine := EncodeField(State(), UseMotionCompensation, text, rot);
      var directionLine := ScanDirLine(State());
      var lines := ["VERSION_4", "OPTICAL_BAR", sizeLine, centerLine, pitchLine, focalLine, angleLine, rateLine,
                    tiltLine, positionLine, rotationLine, speedLine, radiusLine, elevationLine, compensationLine,
                    directionLine];
      EncodedLines(State(), text, rot);
      r := Ok(TextFile(lines, true));
    }
  }

  /** The lines Write appends, listed field by field, are the lines Encode lists. */
  lemma EncodedLines(s: CameraState, text: NumberText, rot: RotationAlgebra)
    ensures Encode(s, text, rot)
         == TextFile(["VERSION_4", "OPTICAL_BAR",
             EncodeField(s, ImageSize, text, rot), EncodeField(s, ImageCenter, text, rot),
             EncodeField(s, Pitch, text, rot), EncodeField(s, FocalLength, text, rot),
             EncodeField(s, ScanAngle, text, rot), EncodeField(s, ScanRate, text, rot),
             EncodeField(s, ForwardTilt, text, rot), EncodeField(s, InitialPosition, text, rot),
             EncodeField(s, InitialRotation, text, rot), EncodeField(s, Speed, text, rot),
             EncodeField(s, MeanEarthRadius, text, rot), EncodeField(s, MeanSurfaceElevation, text, rot),
             EncodeField(s, UseMotionCompensation, text, rot), ScanDirLine(s)], true)
  {
  }
}

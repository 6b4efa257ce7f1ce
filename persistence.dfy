/**
 * The camera file format: a version line, a type line, thirteen labelled
 * field lines in fixed order, and a scan-direction line. Reading stops at
 * the first bad line; fields read before it keep their new values.
 */
module Persistence {
  import opened Wrappers
  import opened Geometry
  import opened Text
  import opened Camera
  import opened Kinematics

  /**
   * A text file as getline sees it: its lines without their terminators,
   * and whether the last line was terminated by a newline.
   */
  datatype TextFile = TextFile(lines: seq<string>, endsWithNewline: bool)

  /**
   * The library's text conversion of doubles: strtod on input (the value and
   * the unread rest), and 17-significant-digit output.
   */
  datatype NumberText = NumberText(scanReal: string -> Option<(real, string)>, formatReal: real -> string)

  /** The k-th line getline yields; the empty string past the end of the file. */
  function LineAt(f: TextFile, k: nat): string {
    if k < |f.lines| then f.lines[k] else ""
  }

  /**
   * The stream is still good after the k-th getline: the line existed and
   * reading it did not reach the end of the file, that is, a newline ended it.
   */
  predicate GoodAfter(f: TextFile, k: nat) {
    k < |f.lines| && (k + 1 < |f.lines| || f.endsWithNewline)
  }

  /**
   * The second getline's result. When the first one already reached the end
   * of the file, the second one extracts nothing and leaves the line as it was.
   */
  function TypeLine(f: TextFile): string {
    if GoodAfter(f, 0) then LineAt(f, 1) else LineAt(f, 0)
  }

  /** The field lines in file order; field k is on line k + 2. */
  const FieldOrder: seq<Field> :=
    [ImageSize, ImageCenter, Pitch, FocalLength, ScanAngle, ScanRate, ForwardTilt,
     InitialPosition, InitialRotation, Speed, MeanEarthRadius, MeanSurfaceElevation,
     UseMotionCompensation]

  function Label(field: Field): string {
    match field
    case ImageSize => "image_size"
    case ImageCenter => "image_center"
    case Pitch => "pitch"
    case FocalLength => "f"
    case ScanAngle => "scan_angle"
    case ScanRate => "scan_rate"
    case ForwardTilt => "forward_tilt"
    case InitialPosition => "iC"
    case InitialRotation => "iR"
    case Speed => "speed"
    case MeanEarthRadius => "mean_earth_radius"
    case MeanSurfaceElevation => "mean_surface_elevation"
    case UseMotionCompensation => "use_motion_compensation"
  }

  /** How many numbers the field's line must yield. */
  function Count(field: Field): nat {
    match field
    case ImageSize => 2
    case ImageCenter => 2
    case InitialPosition => 3
    case InitialRotation => 9
    case _ => 1
  }

  /** The fields read with %d; the others are read with %lf. */
  predicate IsIntField(field: Field) { field == ImageSize || field == UseMotionCompensation }

  /** sscanf(line, "VERSION_%d"): the parsed number, or the default 1 when it does not parse. */
  function FileVersion(line: string): int {
    var v := match MatchLiteral("VERSION_", line)
             case None => []
             case Some(rest) => ScanNumbers(rest, 1, ScanInt);
    if |v| == 1 then v[0] else 1
  }

  /** Stores the converted prefix of an integer field's values. */
  function StoreInts(s: CameraState, field: Field, v: seq<int>): (r: CameraState)
    ensures SameFlags(r, s)
  {
    match field
    case ImageSize =>
      s.(imageSize := Vec2i(if |v| > 0 then v[0] else s.imageSize.x, if |v| > 1 then v[1] else s.imageSize.y))
    case UseMotionCompensation =>
      if |v| == 1 then s.(useMotionCompensation := v[0]) else s
    case _ => s
  }

  /**
   * Stores the converted prefix of a real field's values. Vector fields take
   * each converted component; the rotation matrix is converted to axis-angle
   * only when all nine entries were read.
   */
  function StoreReals(s: CameraState, field: Field, v: seq<real>, rot: RotationAlgebra): (r: CameraState)
    ensures SameFlags(r, s)
  {
    var one := |v| > 0;
    match field
    case ImageCenter => StoreCenter(s, v)
    case Pitch => if one then s.(pixelSize := v[0]) else s
    case FocalLength => if one then s.(focalLength := v[0]) else s
    case ScanAngle => if one then s.(scanAngle := v[0]) else s
    case ScanRate => if one then s.(scanRate := v[0]) else s
    case ForwardTilt => if one then s.(forwardTilt := v[0]) else s
    case InitialPosition => StorePosition(s, v)
    case InitialRotation => if |v| == 9 then s.(initialOrientation := rot.axisAngleOf(FromEntries(v))) else s
    case Speed => if one then s.(speed := v[0]) else s
    case MeanEarthRadius => if one then s.(meanEarthRadius := v[0]) else s
    case MeanSurfaceElevation => if one then s.(meanSurfaceElevation := v[0]) else s
    case _ => s
  }

  /** "image_center = %lf %lf": each converted value lands in its component. */
  function StoreCenter(s: CameraState, v: seq<real>): (r: CameraState)
    ensures r == s.(centerLocPixels := r.centerLocPixels)
  {
    s.(centerLocPixels := Vec2(if |v| > 0 then v[0] else s.centerLocPixels.x,
                               if |v| > 1 then v[1] else s.centerLocPixels.y))
  }

  /** "iC = %lf %lf %lf": each converted value lands in its component. */
  function StorePosition(s: CameraState, v: seq<real>): (r: CameraState)
    ensures r == s.(initialPosition := r.initialPosition)
  {
    s.(initialPosition := Vec3(if |v| > 0 then v[0] else s.initialPosition.x,
                               if |v| > 1 then v[1] else s.initialPosition.y,
                               if |v| > 2 then v[2] else s.initialPosition.z))
  }

  /** Scans one field line: the state with what was converted stored, and whether all values were. */
  function ReadField(s: CameraState, field: Field, line: string, text: NumberText, rot: RotationAlgebra)
    : (CameraState, bool)
  {
    if IsIntField(field) then
      var v := ScanField(line, Label(field), Count(field), ScanInt);
      (StoreInts(s, field, v), |v| == Count(field))
    else
      var v := ScanField(line, Label(field), Count(field), text.scanReal);
      (StoreReals(s, field, v, rot), |v| == Count(field))
  }

  /**
   * Reads the fields from the k-th on, then the scan direction, which is
   * left to right unless the last line mentions "scan_dir = left".
   */
  function ReadFields(s: CameraState, f: TextFile, k: nat, text: NumberText, rot: RotationAlgebra)
    : (CameraState, Outcome<CameraError>)
    requires k <= |FieldOrder|
    decreases |FieldOrder| - k
  {
    if k == |FieldOrder| then
      (s.(scanLeftToRight := !Contains(LineAt(f, k + 2), "scan_dir = left")), Pass)
    else
      var (s', complete) := ReadStep(s, f, k, text, rot);
      if !complete then (s', Fail(IOErr(Unreadable(FieldOrder[k]))))
      else ReadFields(s', f, k + 1, text, rot)
  }

  /**
   * The k-th field block: unless the stream went bad on its line, the field
   * scanned from that line; whether the stream was good and every value was
   * converted. A bad stream leaves the state as it was, and no block touches
   * the scan direction or the correction flags.
   */
  function ReadStep(s: CameraState, f: TextFile, k: nat, text: NumberText, rot: RotationAlgebra)
    : (r: (CameraState, bool))
    requires k < |FieldOrder|
    ensures r.1 == FieldComplete(f, k, text)
    ensures !GoodAfter(f, k + 2) ==> r.0 == s
    ensures SameFlags(r.0, s)
  {
    if GoodAfter(f, k + 2) then ReadField(s, FieldOrder[k], LineAt(f, k + 2), text, rot) else (s, false)
  }

  /** How many values sscanf converts from a field's line, with %d or %lf as the field takes. */
  function Converted(field: Field, line: string, text: NumberText): nat {
    if IsIntField(field) then |ScanField(line, Label(field), Count(field), ScanInt)|
    else |ScanField(line, Label(field), Count(field), text.scanReal)|
  }

  /** Field k's block succeeds: the stream is good after its line and all its values convert. */
  predicate FieldComplete(f: TextFile, k: nat, text: NumberText)
    requires k < |FieldOrder|
  {
    GoodAfter(f, k + 2) && Converted(FieldOrder[k], LineAt(f, k + 2), text) == Count(FieldOrder[k])
  }

  /** Two states agree on what the file's field lines do not hold. */
  predicate SameFlags(a: CameraState, b: CameraState) {
    && a.scanLeftToRight == b.scanLeftToRight
    && a.correctAtmosphericRefraction == b.correctAtmosphericRefraction
    && a.correctVelocityAberration == b.correctVelocityAberration
  }

  /** The state after the field blocks k to j - 1 ran in turn. */
  function ReadPrefix(s: CameraState, f: TextFile, k: nat, j: nat, text: NumberText, rot: RotationAlgebra)
    : (r: CameraState)
    requires k <= j <= |FieldOrder|
    ensures SameFlags(r, s)
    decreases j - k
  {
    if k == j then s else ReadPrefix(ReadStep(s, f, k, text, rot).0, f, k + 1, j, text, rot)
  }

  /** The first and second lines pass the version and camera-type checks. */
  predicate HeaderAccepted(f: TextFile) {
    && Contains(LineAt(f, 0), "VERSION")
    && FileVersion(LineAt(f, 0)) >= 4
    && Contains(TypeLine(f), "OPTICAL_BAR")
  }

  /**
   * Reading a camera file into a model whose state is `s`: the new state and
   * whether the read passed. A file that cannot be opened or has no
   * "VERSION" on its first line is an IOErr; a version below 4 (or one that
   * does not parse, which leaves the default 1) and a second line without
   * "OPTICAL_BAR" are ArgumentErrs; a bad field line is an IOErr.
   */
  function ReadCamera(s: CameraState, file: Option<TextFile>, text: NumberText, rot: RotationAlgebra)
    : (r: (CameraState, Outcome<CameraError>))
    ensures r.1.Fail? && !(r.1.error.IOErr? && r.1.error.cause.Unreadable?) ==> r.0 == s
    ensures r.1.Pass? <==> file.Some? && HeaderAccepted(file.value)
                           && CompleteBetween(file.value, 0, |FieldOrder|, text)
    ensures r.1.Pass? ==> r.0.scanLeftToRight == !Contains(LineAt(file.value, 15), "scan_dir = left")
    ensures SameFlags(r.0, s) || r.1.Pass?
  {
    match file
    case None => (s, Fail(IOErr(CannotOpen)))
    case Some(f) =>
      var first := LineAt(f, 0);
      if !Contains(first, "VERSION") then (s, Fail(IOErr(VersionMissing)))
      else
        var version := FileVersion(first);
        if version < 4 then (s, Fail(ArgumentErr(VersionUnsupported(version))))
        else
          var kind := TypeLine(f);
          if !Contains(kind, "OPTICAL_BAR") then (s, Fail(ArgumentErr(WrongCameraType(kind))))
          else
            var r := ReadFields(s, f, 0, text, rot);
            ReadFieldsOutcome(s, f, 0, text, rot);
            ReadFieldsFailures(s, f, 0, text, rot);
            assert r.1.Pass? ==> r.0.scanLeftToRight == !Contains(LineAt(f, 15), "scan_dir = left") by {
              if r.1.Pass? { ReadFieldsPass(s, f, 0, text, rot); }
            }
            r
  }

  /** Every field block from k to j - 1 succeeds. */
  predicate CompleteBetween(f: TextFile, k: nat, j: nat, text: NumberText)
    requires k <= j <= |FieldOrder|
    decreases j - k
  {
    k == j || (FieldComplete(f, k, text) && CompleteBetween(f, k + 1, j, text))
  }

  /** When not every block from k on succeeds, some block j fails after blocks k to j - 1 succeeded. */
  lemma {:induction false} FirstIncomplete(f: TextFile, k: nat, text: NumberText) returns (j: nat)
    requires k <= |FieldOrder| && !CompleteBetween(f, k, |FieldOrder|, text)
    ensures k <= j < |FieldOrder| && CompleteBetween(f, k, j, text) && !FieldComplete(f, j, text)
    decreases |FieldOrder| - k
  {
    if !FieldComplete(f, k, text) {
      j := k;
    } else {
      j := FirstIncomplete(f, k + 1, text);
    }
  }

  /** Field reading from block k on passes exactly when every remaining block succeeds. */
  lemma {:induction false} ReadFieldsOutcome(s: CameraState, f: TextFile, k: nat, text: NumberText, rot: RotationAlgebra)
    requires k <= |FieldOrder|
    ensures ReadFields(s, f, k, text, rot).1.Pass? <==> CompleteBetween(f, k, |FieldOrder|, text)
    decreases |FieldOrder| - k
  {
    if k < |FieldOrder| {
      var (s', complete) := ReadStep(s, f, k, text, rot);
      if complete {
        ReadFieldsOutcome(s', f, k + 1, text, rot);
      }
    }
  }

  /**
   * Field reading fails only with IOErr(Unreadable(..)), and a failure keeps
   * the scan direction and the correction flags.
   */
  lemma {:induction false} ReadFieldsFailures(s: CameraState, f: TextFile, k: nat, text: NumberText, rot: RotationAlgebra)
    requires k <= |FieldOrder|
    ensures var r := ReadFields(s, f, k, text, rot);
            r.1.Fail? ==> r.1.error.IOErr? && r.1.error.cause.Unreadable? && SameFlags(r.0, s)
    decreases |FieldOrder| - k
  {
    if k < |FieldOrder| && FieldComplete(f, k, text) {
      ReadFieldsFailures(ReadStep(s, f, k, text, rot).0, f, k + 1, text, rot);
    }
  }

  /**
   * When blocks k to j - 1 succeed and block j does not, reading stops there
   * with IOErr naming field j; fields k to j - 1 are stored, and so is
   * whatever block j converted before it stopped.
   */
  lemma {:induction false} ReadFieldsFirstFailure(s: CameraState, f: TextFile, k: nat, j: nat,
                                                  text: NumberText, rot: RotationAlgebra)
    requires k <= j < |FieldOrder|
    requires CompleteBetween(f, k, j, text) && !FieldComplete(f, j, text)
    ensures ReadFields(s, f, k, text, rot)
         == (ReadStep(ReadPrefix(s, f, k, j, text, rot), f, j, text, rot).0, Fail(IOErr(Unreadable(FieldOrder[j]))))
    decreases j - k
  {
    if k < j {
      ReadFieldsFirstFailure(ReadStep(s, f, k, text, rot).0, f, k + 1, j, text, rot);
    }
  }

  /** When every block from k on succeeds, reading stores them all and then takes the direction from the last line. */
  lemma {:induction false} ReadFieldsPass(s: CameraState, f: TextFile, k: nat, text: NumberText, rot: RotationAlgebra)
    requires k <= |FieldOrder|
    requires CompleteBetween(f, k, |FieldOrder|, text)
    ensures ReadFields(s, f, k, text, rot)
         == (ReadPrefix(s, f, k, |FieldOrder|, text, rot).(scanLeftToRight := !Contains(LineAt(f, 15), "scan_dir = left")),
             Pass)
    decreases |FieldOrder| - k
  {
    if k < |FieldOrder| {
      ReadFieldsPass(ReadStep(s, f, k, text, rot).0, f, k + 1, text, rot);
    }
  }

  /** A first line without "VERSION" is an IOErr, and the model is left as it was. */
  /** A file that cannot be opened is an IOErr, and the model is left as it was. */
  lemma ReadRejectsUnopenable(s: CameraState, text: NumberText, rot: RotationAlgebra)
    ensures ReadCamera(s, None, text, rot) == (s, Fail(IOErr(CannotOpen)))
  {
  }

  lemma ReadRejectsMissingVersion(s: CameraState, f: TextFile, text: NumberText, rot: RotationAlgebra)
    requires !Contains(LineAt(f, 0), "VERSION")
    ensures ReadCamera(s, Some(f), text, rot) == (s, Fail(IOErr(VersionMissing)))
  {
  }

  /**
   * A first line that mentions "VERSION" but does not scan as "VERSION_%d"
   * leaves the default version 1, which is refused with ArgumentErr.
   */
  lemma ReadRejectsUnparsedVersion(s: CameraState, f: TextFile, text: NumberText, rot: RotationAlgebra)
    requires Contains(LineAt(f, 0), "VERSION")
    requires MatchLiteral("VERSION_", LineAt(f, 0)).None?
             || ScanNumbers(MatchLiteral("VERSION_", LineAt(f, 0)).value, 1, ScanInt) == []
    ensures ReadCamera(s, Some(f), text, rot) == (s, Fail(ArgumentErr(VersionUnsupported(1))))
  {
  }

  /** An accepted version followed by a type line without "OPTICAL_BAR" is refused with ArgumentErr naming that line. */
  lemma ReadRejectsWrongType(s: CameraState, f: TextFile, text: NumberText, rot: RotationAlgebra)
    requires Contains(LineAt(f, 0), "VERSION") && FileVersion(LineAt(f, 0)) >= 4
    requires !Contains(TypeLine(f), "OPTICAL_BAR")
    ensures ReadCamera(s, Some(f), text, rot) == (s, Fail(ArgumentErr(WrongCameraType(TypeLine(f)))))
  {
  }

  /**
   * After an accepted header, the first field block that fails ends the read
   * with IOErr naming its field, the blocks before it stored.
   */
  lemma ReadStopsAtFirstBadField(s: CameraState, f: TextFile, j: nat, text: NumberText, rot: RotationAlgebra)
    requires HeaderAccepted(f) && j < |FieldOrder|
    requires CompleteBetween(f, 0, j, text) && !FieldComplete(f, j, text)
    ensures ReadCamera(s, Some(f), text, rot)
         == (ReadStep(ReadPrefix(s, f, 0, j, text, rot), f, j, text, rot).0, Fail(IOErr(Unreadable(FieldOrder[j]))))
  {
    ReadFieldsFirstFailure(s, f, 0, j, text, rot);
  }

  // ---------------------------------------------------------------------------
  // Writing.

  /** One field's line as the writer emits it; the rotation is written as the pose's matrix. */
  function EncodeField(s: CameraState, field: Field, text: NumberText, rot: RotationAlgebra): string {
    var name := Label(field);
    match field
    case ImageSize => FieldLine(name, [s.imageSize.x, s.imageSize.y], FormatInt)
    case ImageCenter => FieldLine(name, [s.centerLocPixels.x, s.centerLocPixels.y], text.formatReal)
    case Pitch => FieldLine(name, [s.pixelSize], text.formatReal)
    case FocalLength => FieldLine(name, [s.focalLength], text.formatReal)
    case ScanAngle => FieldLine(name, [s.scanAngle], text.formatReal)
    case ScanRate => FieldLine(name, [s.scanRate], text.formatReal)
    case ForwardTilt => FieldLine(name, [s.forwardTilt], text.formatReal)
    case InitialPosition =>
      FieldLine(name, [s.initialPosition.x, s.initialPosition.y, s.initialPosition.z], text.formatReal)
    case InitialRotation => FieldLine(name, Entries(rot.matrixOf(CameraPose(s, Vec2(0.0, 0.0)))), text.formatReal)
    case Speed => FieldLine(name, [s.speed], text.formatReal)
    case MeanEarthRadius => FieldLine(name, [s.meanEarthRadius], text.formatReal)
    case MeanSurfaceElevation => FieldLine(name, [s.meanSurfaceElevation], text.formatReal)
    case UseMotionCompensation => FieldLine(name, [s.useMotionCompensation], FormatInt)
  }

  function ScanDirLine(s: CameraState): string {
    if s.scanLeftToRight then "scan_dir = right" else "scan_dir = left"
  }

  /** The thirteen field lines, in file order. */
  function FieldLines(s: CameraState, text: NumberText, rot: RotationAlgebra): (lines: seq<string>)
    ensures |lines| == |FieldOrder|
    ensures forall i :: 0 <= i < |FieldOrder| ==> lines[i] == EncodeField(s, FieldOrder[i], text, rot)
  {
    seq(|FieldOrder|, i requires 0 <= i < |FieldOrder| => EncodeField(s, FieldOrder[i], text, rot))
  }

  /** The whole file the writer emits, every line newline-terminated. */
  function Encode(s: CameraState, text: NumberText, rot: RotationAlgebra): (f: TextFile)
    ensures |f.lines| == 16 && f.endsWithNewline
  {
    TextFile(["VERSION_4", "OPTICAL_BAR"] + FieldLines(s, text, rot) + [ScanDirLine(s)], true)
  }

  // ---------------------------------------------------------------------------
  // Reading back what was written.

  /** The state after field k was read from a line written for `s`. */
  function SetField(t: CameraState, field: Field, s: CameraState, rot: RotationAlgebra): CameraState {
    match field
    case ImageSize => t.(imageSize := s.imageSize)
    case ImageCenter => t.(centerLocPixels := s.centerLocPixels)
    case Pitch => t.(pixelSize := s.pixelSize)
    case FocalLength => t.(focalLength := s.focalLength)
    case ScanAngle => t.(scanAngle := s.scanAngle)
    case ScanRate => t.(scanRate := s.scanRate)
    case ForwardTilt => t.(forwardTilt := s.forwardTilt)
    case InitialPosition => t.(initialPosition := s.initialPosition)
    case InitialRotation => t.(initialOrientation := rot.axisAngleOf(rot.matrixOf(s.initialOrientation)))
    case Speed => t.(speed := s.speed)
    case MeanEarthRadius => t.(meanEarthRadius := s.meanEarthRadius)
    case MeanSurfaceElevation => t.(meanSurfaceElevation := s.meanSurfaceElevation)
    case UseMotionCompensation => t.(useMotionCompensation := s.useMotionCompensation)
  }

  /** Fields k to j - 1 set from `s`, in file order. */
  function Overwrite(t: CameraState, s: CameraState, k: nat, j: nat, rot: RotationAlgebra): CameraState
    requires k <= j <= |FieldOrder|
    decreases j - k
  {
    if k == j then t else Overwrite(SetField(t, FieldOrder[k], s, rot), s, k + 1, j, rot)
  }

  /**
   * What reading a file written for `s` gives a model whose state was `t`:
   * every persisted field of `s`, the orientation passed through its matrix,
   * and `t`'s correction flags, which the file does not hold.
   */
  function Restored(t: CameraState, s: CameraState, rot: RotationAlgebra): CameraState {
    s.(initialOrientation := rot.axisAngleOf(rot.matrixOf(s.initialOrientation)),
       correctAtmosphericRefraction := t.correctAtmosphericRefraction,
       correctVelocityAberration := t.correctVelocityAberration)
  }

  /**
   * The reals the writer emits for `s`, in file order: the image centre, the
   * five scalar geometry fields, the initial position, the nine rotation
   * matrix entries, the speed and the two Earth fields.
   */
  function WrittenReals(s: CameraState, rot: RotationAlgebra): (xs: seq<real>)
    ensures |xs| == 22
  {
    [s.centerLocPixels.x, s.centerLocPixels.y, s.pixelSize, s.focalLength, s.scanAngle, s.scanRate,
     s.forwardTilt, s.initialPosition.x, s.initialPosition.y, s.initialPosition.z]
    + Entries(rot.matrixOf(s.initialOrientation))
    + [s.speed, s.meanEarthRadius, s.meanSurfaceElevation]
  }

  lemma LabelsHaveNoSpace(field: Field)
    ensures Word(Label(field))
  {
    match field
    case ImageSize => assert Word("image_size");
    case ImageCenter => assert Word("image_center");
    case Pitch => assert Word("pitch");
    case FocalLength => assert Word("f");
    case ScanAngle => assert Word("scan_angle");
    case ScanRate => assert Word("scan_rate");
    case ForwardTilt => assert Word("forward_tilt");
    case InitialPosition => assert Word("iC");
    case InitialRotation => assert Word("iR");
    case Speed => assert Word("speed");
    case MeanEarthRadius => LongLabelsAreWords();
    case MeanSurfaceElevation => LongLabelsAreWords();
    case UseMotionCompensation => LongLabelsAreWords();
  }

  lemma LongLabelsAreWords()
    ensures Word("mean_earth_radius") && Word("mean_surface_elevation") && Word("use_motion_compensation")
  {
  }

  /** A field line written for `s` reads back completely, storing that field of `s`. */
  lemma ReadEncodedField(t: CameraState, s: CameraState, field: Field, text: NumberText, rot: RotationAlgebra)
    requires RoundTripsOn(text.scanReal, text.formatReal, WrittenReals(s, rot))
    ensures ReadField(t, field, EncodeField(s, field, text, rot), text, rot) == (SetField(t, field, s, rot), true)
  {
    LabelsHaveNoSpace(field);
    if IsIntField(field) {
      ReadEncodedIntField(t, s, field, text, rot);
    } else if field.ImageCenter? || field.InitialPosition? || field.InitialRotation? {
      ReadEncodedVectorField(t, s, field, text, rot);
    } else {
      ReadEncodedScalarField(t, s, field, text, rot);
    }
  }

  lemma ReadEncodedIntField(t: CameraState, s: CameraState, field: Field, text: NumberText, rot: RotationAlgebra)
    requires IsIntField(field) && Word(Label(field))
    ensures ReadField(t, field, EncodeField(s, field, text, rot), text, rot) == (SetField(t, field, s, rot), true)
  {
    IntTextRoundTrips();
    if field.ImageSize? {
      FieldLineRoundTrip(Label(field), [s.imageSize.x, s.imageSize.y], ScanInt, FormatInt);
    } else {
      FieldLineRoundTrip(Label(field), [s.useMotionCompensation], ScanInt, FormatInt);
    }
  }

  lemma ReadEncodedVectorField(t: CameraState, s: CameraState, field: Field, text: NumberText, rot: RotationAlgebra)
    requires field.ImageCenter? || field.InitialPosition? || field.InitialRotation?
    requires RoundTripsOn(text.scanReal, text.formatReal, WrittenReals(s, rot)) && Word(Label(field))
    ensures ReadField(t, field, EncodeField(s, field, text, rot), text, rot) == (SetField(t, field, s, rot), true)
  {
    var name := Label(field);
    match field
    case ImageCenter =>
      FieldLineRoundTrip(name, [s.centerLocPixels.x, s.centerLocPixels.y], text.scanReal, text.formatReal);
    case InitialPosition =>
      FieldLineRoundTrip(name, [s.initialPosition.x, s.initialPosition.y, s.initialPosition.z],
                         text.scanReal, text.formatReal);
    case InitialRotation =>
      var m := rot.matrixOf(s.initialOrientation);
      FieldLineRoundTrip(name, Entries(m), text.scanReal, text.formatReal);
      EntriesRoundTrip(m);
  }

  lemma ReadEncodedScalarField(t: CameraState, s: CameraState, field: Field, text: NumberText, rot: RotationAlgebra)
    requires !IsIntField(field) && !(field.ImageCenter? || field.InitialPosition? || field.InitialRotation?)
    requires RoundTripsOn(text.scanReal, text.formatReal, WrittenReals(s, rot)) && Word(Label(field))
    ensures ReadField(t, field, EncodeField(s, field, text, rot), text, rot) == (SetField(t, field, s, rot), true)
  {
    var x := match field
      case Pitch => s.pixelSize
      case FocalLength => s.focalLength
      case ScanAngle => s.scanAngle
      case ScanRate => s.scanRate
      case ForwardTilt => s.forwardTilt
      case Speed => s.speed
      case MeanEarthRadius => s.meanEarthRadius
      case _ => s.meanSurfaceElevation;
    assert EncodeField(s, field, text, rot) == FieldLine(Label(field), [x], text.formatReal);
    FieldLineRoundTrip(Label(field), [x], text.scanReal, text.formatReal);
  }

  /**
   * Field lines k to j - 1 that are good and hold what the writer emits for
   * `s` are read in turn, each storing its field of `s`.
   */
  lemma {:induction false} ReadFieldsAgree(t: CameraState, s: CameraState, f: TextFile, k: nat, j: nat,
                                           text: NumberText, rot: RotationAlgebra)
    requires RoundTripsOn(text.scanReal, text.formatReal, WrittenReals(s, rot))
    requires k <= j <= |FieldOrder|
    requires forall i :: k + 2 <= i < j + 2 ==> GoodAfter(f, i) && LineAt(f, i) == EncodeField(s, FieldOrder[i - 2], text, rot)
    ensures ReadFields(t, f, k, text, rot) == ReadFields(Overwrite(t, s, k, j, rot), f, j, text, rot)
    decreases j - k
  {
    if k < j {
      ReadFieldsStep(t, s, f, k, text, rot);
      ReadFieldsAgree(SetField(t, FieldOrder[k], s, rot), s, f, k + 1, j, text, rot);
    }
  }

  /** One step of ReadFieldsAgree: a good line holding field k as written for `s`. */
  lemma ReadFieldsStep(t: CameraState, s: CameraState, f: TextFile, k: nat, text: NumberText, rot: RotationAlgebra)
    requires RoundTripsOn(text.scanReal, text.formatReal, WrittenReals(s, rot))
    requires k < |FieldOrder|
    requires GoodAfter(f, k + 2) && LineAt(f, k + 2) == EncodeField(s, FieldOrder[k], text, rot)
    ensures ReadFields(t, f, k, text, rot) == ReadFields(SetField(t, FieldOrder[k], s, rot), f, k + 1, text, rot)
  {
    ReadEncodedField(t, s, FieldOrder[k], text, rot);
  }

  /** Setting fields i to j - 1 is setting i to k - 1 and then k to j - 1. */
  lemma {:induction false} OverwriteSplit(t: CameraState, s: CameraState, i: nat, k: nat, j: nat, rot: RotationAlgebra)
    requires i <= k <= j <= |FieldOrder|
    ensures Overwrite(t, s, i, j, rot) == Overwrite(Overwrite(t, s, i, k, rot), s, k, j, rot)
    decreases k - i
  {
    if i < k {
      OverwriteSplit(SetField(t, FieldOrder[i], s, rot), s, i + 1, k, j, rot);
    }
  }

  /** The geometry fields, lines 2 to 8. */
  lemma OverwriteGeometry(t: CameraState, s: CameraState, rot: RotationAlgebra)
    ensures Overwrite(t, s, 0, 7, rot)
         == t.(imageSize := s.imageSize, centerLocPixels := s.centerLocPixels, pixelSize := s.pixelSize,
               focalLength := s.focalLength, scanAngle := s.scanAngle, scanRate := s.scanRate,
               forwardTilt := s.forwardTilt)
  {
    var t1 := SetField(t, FieldOrder[0], s, rot);
    var t2 := SetField(t1, FieldOrder[1], s, rot);
    var t3 := SetField(t2, FieldOrder[2], s, rot);
    var t4 := SetField(t3, FieldOrder[3], s, rot);
    var t5 := SetField(t4, FieldOrder[4], s, rot);
    var t6 := SetField(t5, FieldOrder[5], s, rot);
    var t7 := SetField(t6, FieldOrder[6], s, rot);
    assert Overwrite(t6, s, 6, 7, rot) == t7;
    assert Overwrite(t5, s, 5, 7, rot) == t7;
    assert Overwrite(t4, s, 4, 7, rot) == t7;
    assert Overwrite(t3, s, 3, 7, rot) == t7;
    assert Overwrite(t2, s, 2, 7, rot) == t7;
    assert Overwrite(t1, s, 1, 7, rot) == t7;
  }

  /** The motion and Earth fields, lines 9 to 14. */
  lemma OverwriteMotion(t: CameraState, s: CameraState, rot: RotationAlgebra)
    ensures Overwrite(t, s, 7, |FieldOrder|, rot)
         == t.(initialPosition := s.initialPosition,
               initialOrientation := rot.axisAngleOf(rot.matrixOf(s.initialOrientation)),
               speed := s.speed, meanEarthRadius := s.meanEarthRadius,
               meanSurfaceElevation := s.meanSurfaceElevation, useMotionCompensation := s.useMotionCompensation)
  {
    var n := |FieldOrder|;
    var t8 := SetField(t, FieldOrder[7], s, rot);
    var t9 := SetField(t8, FieldOrder[8], s, rot);
    var t10 := SetField(t9, FieldOrder[9], s, rot);
    var t11 := SetField(t10, FieldOrder[10], s, rot);
    var t12 := SetField(t11, FieldOrder[11], s, rot);
    var t13 := SetField(t12, FieldOrder[12], s, rot);
    assert Overwrite(t12, s, 12, n, rot) == t13;
    assert Overwrite(t11, s, 11, n, rot) == t13;
    assert Overwrite(t10, s, 10, n, rot) == t13;
    assert Overwrite(t9, s, 9, n, rot) == t13;
    assert Overwrite(t8, s, 8, n, rot) == t13;
  }

  /** Setting all thirteen fields in file order sets every persisted field but the scan direction. */
  lemma OverwriteAll(t: CameraState, s: CameraState, rot: RotationAlgebra)
    ensures Overwrite(t, s, 0, |FieldOrder|, rot) == Restored(t, s, rot).(scanLeftToRight := t.scanLeftToRight)
  {
    OverwriteSplit(t, s, 0, 7, |FieldOrder|, rot);
    OverwriteGeometry(t, s, rot);
    OverwriteMotion(Overwrite(t, s, 0, 7, rot), s, rot);
  }


  /** The lines the writer emits for the fields are the lines the reader expects them on. */
  lemma EncodedFieldLines(s: CameraState, text: NumberText, rot: RotationAlgebra)
    ensures forall i :: 2 <= i < |FieldOrder| + 2 ==>
              GoodAfter(Encode(s, text, rot), i)
              && LineAt(Encode(s, text, rot), i) == EncodeField(s, FieldOrder[i - 2], text, rot)
  {
  }

  /** The header the writer emits passes the reader's checks. */
  lemma EncodedHeader(s: CameraState, text: NumberText, rot: RotationAlgebra)
    ensures var f := Encode(s, text, rot);
            && Contains(LineAt(f, 0), "VERSION")
            && FileVersion(LineAt(f, 0)) == 4
            && Contains(TypeLine(f), "OPTICAL_BAR")
  {
    var f := Encode(s, text, rot);
    assert LineAt(f, 0) == "VERSION_4" && TypeLine(f) == "OPTICAL_BAR";
    CurrentVersionParses();
    assert "VERSION" <= "VERSION_4" && "OPTICAL_BAR" <= "OPTICAL_BAR";
  }

  /** The version line the writer emits parses as version 4. */
  lemma CurrentVersionParses()
    ensures FileVersion("VERSION_4") == 4
  {
    VersionPrefixMatches();
    VersionNumberScans();
  }

  lemma VersionPrefixMatches()
    ensures MatchLiteral("VERSION_", "VERSION_4") == Some("4")
  {
    assert Word("VERSION_");
    MatchLiteralSelf("VERSION_", [], "4");
    assert "VERSION_" + [] == "VERSION_" && "VERSION_" + "4" == "VERSION_4";
  }

  lemma VersionNumberScans()
    ensures ScanNumbers("4", 1, ScanInt) == [4]
  {
    assert FormatInt(4) == "4";
    ScanOneInt(4);
  }

  /** "VERSION_" followed by an integer as operator<< writes it parses as that integer. */
  lemma VersionLineParses(v: int)
    ensures FileVersion("VERSION_" + FormatInt(v)) == v
  {
    assert Word("VERSION_");
    MatchLiteralSelf("VERSION_", [], FormatInt(v));
    assert "VERSION_" + [] == "VERSION_";
    ScanOneInt(v);
  }

  /**
   * A first line that mentions "VERSION" and scans as a version below 4 is
   * refused with ArgumentErr naming that version, and the model is left as
   * it was. Any text after the number, such as a carriage return, is ignored.
   */
  lemma ReadRejectsOldVersion(s: CameraState, f: TextFile, text: NumberText, rot: RotationAlgebra)
    requires f.lines != [] && Contains(LineAt(f, 0), "VERSION") && FileVersion(LineAt(f, 0)) < 4
    ensures ReadCamera(s, Some(f), text, rot) == (s, Fail(ArgumentErr(VersionUnsupported(FileVersion(LineAt(f, 0))))))
  {
  }

  /** In particular a first line "VERSION_<v>" as the writer would emit it, with v below 4. */
  lemma ReadRejectsWrittenOldVersion(s: CameraState, f: TextFile, v: int, text: NumberText, rot: RotationAlgebra)
    requires f.lines != [] && f.lines[0] == "VERSION_" + FormatInt(v) && v < 4
    ensures ReadCamera(s, Some(f), text, rot) == (s, Fail(ArgumentErr(VersionUnsupported(v))))
  {
    VersionLineParses(v);
    assert "VERSION" <= f.lines[0];
    ReadRejectsOldVersion(s, f, text, rot);
  }

  /**
   * Text after the written number that starts with whitespace, such as the
   * carriage return of a file saved with CRLF line ends, does not change the
   * version read.
   */
  lemma VersionLineIgnoresTrailer(v: int, trailer: string)
    requires Delimited(trailer)
    ensures FileVersion("VERSION_" + FormatInt(v) + trailer) == v
  {
    assert Word("VERSION_");
    assert "VERSION_" + FormatInt(v) + trailer == "VERSION_" + (FormatInt(v) + trailer);
    MatchLiteralSelf("VERSION_", [], FormatInt(v) + trailer);
    assert "VERSION_" + [] == "VERSION_";
    FormatIntToken(v);
    IntRoundTrip(v, trailer);
    assert (FormatInt(v) + trailer)[0] == FormatInt(v)[0];
  }

  /** The direction line reads back as the direction it was written for. */
  lemma ScanDirRoundTrip(s: CameraState)
    ensures !Contains(ScanDirLine(s), "scan_dir = left") == s.scanLeftToRight
  {
    var left := "scan_dir = left";
    if s.scanLeftToRight {
      var line := ScanDirLine(s);
      assert !(left <= line) by { assert line[11] != left[11]; }
      assert !(left <= line[1..]) by { assert line[1..][0] != left[0]; }
      if Contains(line[1..][1..], left) {
        ContainsNeedsRoom(line[1..][1..], left);
      }
    } else {
      assert left <= ScanDirLine(s);
    }
  }

  /**
   * Reading what the writer emitted passes and restores every persisted
   * field, the scan direction and the integer compensation flag included;
   * the orientation comes back as the axis angle of its own matrix.
   */
  lemma ReadWriteRoundTrip(t: CameraState, s: CameraState, text: NumberText, rot: RotationAlgebra)
    requires RoundTripsOn(text.scanReal, text.formatReal, WrittenReals(s, rot))
    ensures ReadCamera(t, Some(Encode(s, text, rot)), text, rot) == (Restored(t, s, rot), Pass)
  {
    var f := Encode(s, text, rot);
    EncodedHeader(s, text, rot);
    EncodedFieldLines(s, text, rot);
    ReadFieldsAgree(t, s, f, 0, |FieldOrder|, text, rot);
    OverwriteAll(t, s, rot);
    ScanDirRoundTrip(s);
    assert LineAt(f, 15) == ScanDirLine(s);
  }

  /** When the rotation algebra gives back the orientation, reading what was written restores the model exactly. */
  lemma ReadWriteIdentity(s: CameraState, text: NumberText, rot: RotationAlgebra)
    requires RoundTripsOn(text.scanReal, text.formatReal, WrittenReals(s, rot))
    requires rot.axisAngleOf(rot.matrixOf(s.initialOrientation)) == s.initialOrientation
    ensures ReadCamera(s, Some(Encode(s, text, rot)), text, rot) == (s, Pass)
  {
    ReadWriteRoundTrip(s, s, text, rot);
  }

  /**
   * A number text that writes a real as the integer below it and reads an
   * integer back as a real. It reads back every whole number it writes, so
   * the hypothesis of the round trip can be met.
   */
  function WholeNumberText(): NumberText {
    NumberText(line => match ScanInt(line)
                       case None => None
                       case Some((i, rest)) => Some((i as real, rest)),
               (x: real) => FormatInt(x.Floor))
  }

  lemma WholeNumbersReadBack(xs: seq<real>)
    requires forall x | x in xs :: x.Floor as real == x
    ensures RoundTripsOn(WholeNumberText().scanReal, WholeNumberText().formatReal, xs)
  {
    IntTextRoundTrips();
    forall x | x in xs ensures RoundTripsAt(WholeNumberText().scanReal, WholeNumberText().formatReal, x) {
      assert RoundTripsAt(ScanInt, FormatInt, x.Floor);
    }
  }

  /** A model whose written reals are all whole numbers round-trips through WholeNumberText. */
  lemma ReadWriteWholeNumbers(t: CameraState, s: CameraState, rot: RotationAlgebra)
    requires forall x | x in WrittenReals(s, rot) :: x.Floor as real == x
    ensures ReadCamera(t, Some(Encode(s, WholeNumberText(), rot)), WholeNumberText(), rot) == (Restored(t, s, rot), Pass)
  {
    WholeNumbersReadBack(WrittenReals(s, rot));
    ReadWriteRoundTrip(t, s, WholeNumberText(), rot);
  }
}

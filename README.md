# Optical-bar camera model in Dafny

This project models the optical-bar camera of the Ames Stereo Pipeline
(`asp::camera::OpticalBarModel`). An optical-bar (panoramic) camera exposes one
image column at a time while the platform moves. So every column has its own
exposure time and its own camera centre. The model covers:

- **Scan kinematics** (`Kinematics`): pixel to sensor-plane position, pixel to
  time since the start of the scan, platform velocity, and the camera centre
  and pose at a pixel.
- **Forward projection** (`Projection`): the camera-frame ray with forward-motion
  compensation, its rotation into the world frame, and the refraction and
  velocity-aberration corrections chosen by the model's two flags. A failed
  correction is re-raised as `PixelToRayErr`.
- **Rigid transform** (`Transform`): `apply_transform`, as written and in its
  corrected form (see Findings).
- **Camera file** (`Persistence`, `Text`): the version-4 text format. Reading is
  modelled line by line, including `getline`'s stream state and `sscanf`'s
  partial conversions. Writing is modelled line by line too. The model proves
  that reading what was written restores the model, for any number text that
  reads back the reals written for it.
- **The object** (`OpticalBarModel.OpticalBarModel`): a class whose fields are
  the C++ members. Its `Read`, `Write` and `ApplyTransform` methods update or
  read those fields. Each method is proved equal to the value-level function
  that specifies it.

The numerical library is passed in as datatypes of functions, because its
code is not part of this model:

- `Geometry.RotationAlgebra`: axis-angle to matrix and back, quaternion
  composition, x-axis rotation, and rotating a vector.
- `Geometry.Trig`: sin, cos, norm and normalise.
- `Projection.Corrections`: the refraction and aberration corrections.
- `Persistence.NumberText`: `strtod` and 17-digit output.

Integer text (`%d` and `operator<<` on `int`) is modelled completely. Its round
trip is proved in `Text.IntRoundTrip`. For real-number text the round trip is
a hypothesis on the `NumberText` it is given. The hypothesis is stated value by
value (`Text.RoundTripsOn`): the converter must read back the 22 reals written
for the model being saved (`Persistence.WrittenReals`), and no other values.
`Persistence.WholeNumbersReadBack` shows that a `NumberText` can meet it.

## Model

| member | source | states |
|---|---|---|
| Kinematics.SensorPlaneCenter | src/asp/Camera/OpticalBarModel.cc:36-40 | the principal point maps to the sensor-plane origin |
| Kinematics.SensorPlaneAffine | src/asp/Camera/OpticalBarModel.cc:36-40 | differences of pixels map to differences scaled by the pitch |
| Kinematics.SensorPlaneInvertible | src/asp/Camera/OpticalBarModel.cc:36-40 | with a non-zero pitch the pixel is recovered from its sensor-plane position |
| Kinematics.PixelToTimeDelta | src/asp/Camera/OpticalBarModel.cc:42-57 | for a positive last column, a column inside the image and a non-negative scan time, the time offset lies between 0 and the scan time |
| Kinematics.TimeDeltaLeftToRight | src/asp/Camera/OpticalBarModel.cc:42-57 | a left-to-right scan reaches column x after x / max_col of the scan time |
| Kinematics.TimeDeltaMirror | src/asp/Camera/OpticalBarModel.cc:49-54 | a right-to-left scan at column x takes the time a left-to-right scan takes at max_col - x |
| Kinematics.TimeDeltaIgnoresRow | src/asp/Camera/OpticalBarModel.cc:42-57 | the time offset depends on the column only |
| Kinematics.TimeDeltaMonotone | src/asp/Camera/OpticalBarModel.cc:42-57 | the time offset never decreases along a left-to-right scan and never increases along a right-to-left one |
| Kinematics.FractionOrder | src/asp/Camera/OpticalBarModel.cc:49-54 | the scan fraction is ordered like the columns left to right and reversed right to left |
| Kinematics.TimeDeltaOrder | src/asp/Camera/OpticalBarModel.cc:55 | a non-negative scan time keeps the order of the scan fractions |
| Kinematics.TimeDeltaZeroIff | src/asp/Camera/OpticalBarModel.cc:42-57 | with a non-zero scan time the offset is zero exactly at the first column of the scan (0, or max_col right to left) |
| Kinematics.VelocityScalesWithSpeed | src/asp/Camera/OpticalBarModel.cc:59-71 | the velocity is x-rotation(-tilt) applied to pose * (0, speed, 0) and scales linearly with the speed |
| Kinematics.CameraCenterAtScanStart | src/asp/Camera/OpticalBarModel.cc:73-78 | for a moving platform the centre equals the initial position exactly when the time offset is zero, that is, at the first column of the scan |
| Geometry.FromEntries | src/asp/Camera/OpticalBarModel.cc:282-292 | the nine values of the iR line build a matrix whose row-major entries are those values |
| Geometry.EntriesRoundTrip | src/asp/Camera/OpticalBarModel.cc:371-377 | the row-major entries written for a matrix rebuild that matrix |
| Geometry.MatMulApply | src/asp/Camera/OpticalBarModel.cc:68-70 | applying the product matrix equals applying its two factors in turn |
| Geometry.MatVecLinear | src/asp/Camera/OpticalBarModel.cc:196 | a matrix applied to k * a + b is k times its image of a plus its image of b |
| Projection.MotionCompensation | src/asp/Camera/OpticalBarModel.cc:99-108 | the compensation is zero when the integer flag is zero |
| Projection.CompensationMirror | src/asp/Camera/OpticalBarModel.cc:107-108 | reversing the scan direction negates the compensation |
| Projection.CompensationScalesWithFlag | src/asp/Camera/OpticalBarModel.cc:105-106 | the integer flag multiplies the compensation rather than switching it on |
| Projection.CameraFrameRay | src/asp/Camera/OpticalBarModel.cc:86-117 | the ray is (f sin(alpha), ., f cos(alpha)) with alpha = sensor x / f, and its y is the sensor y when compensation is off |
| Projection.PixelToVector | src/asp/Camera/OpticalBarModel.cc:141-161 | every failure is a PixelToRayErr, and with neither correction running the result is the uncorrected ray |
| Projection.RefractionSkippedWhenFlagSet | src/asp/Camera/OpticalBarModel.cc:146-148 | with the refraction flag set, the refraction correction is never consulted |
| Projection.RefractionAppliedWhenFlagClear | src/asp/Camera/OpticalBarModel.cc:146-151 | with the refraction flag clear and aberration off, the result is the refraction correction at the pixel's centre, its failure carried as PixelToRayErr |
| Projection.AberrationSkippedWhenFlagClear | src/asp/Camera/OpticalBarModel.cc:150-151 | with the aberration flag clear, the aberration correction is never consulted |
| Projection.AberrationAppliedWhenFlagSet | src/asp/Camera/OpticalBarModel.cc:150-154 | with the aberration flag set and refraction skipped, the result is the aberration correction with the pixel's centre and velocity |
| Projection.BothCorrectionsApplied | src/asp/Camera/OpticalBarModel.cc:143-154 | with the refraction flag clear and the aberration flag set, when both succeed the result is the aberration correction of the refracted ray with the pixel's centre and velocity |
| Projection.PixelToVectorFailsIff | src/asp/Camera/OpticalBarModel.cc:141-161 | the call fails exactly when a correction that runs fails, refraction first and then aberration on the refracted ray |
| Transform.TransformedAsWritten | src/asp/Camera/OpticalBarModel.cc:185-200 | the code's transform changes only the position and the pose, and the pose becomes the rotation composed with the old pose |
| Transform.Transformed | src/asp/Camera/OpticalBarModel.cc:185-200 | the corrected transform changes only the position and the pose |
| Transform.AsWrittenAgreesLeftToRight | src/asp/Camera/OpticalBarModel.cc:185-200 | for a left-to-right scan the code's transform equals the corrected one |
| Transform.AsWrittenIdentityShiftsRightToLeft | src/asp/Camera/OpticalBarModel.cc:190 | for a right-to-left scan the identity transform moves the position by scan time * velocity |
| Transform.TransformIdentity | src/asp/Camera/OpticalBarModel.cc:185-200 | the identity transform leaves the camera unchanged |
| Transform.TransformCompose | src/asp/Camera/OpticalBarModel.cc:185-200 | two transforms in a row are one transform with the product rotation and scale and the combined translation |
| Text.SkipSpace | src/asp/Camera/OpticalBarModel.cc:231-232 | skipping whitespace leaves a suffix that is empty or starts with a non-space, and changes nothing when there is no leading space |
| Text.ScanField | src/asp/Camera/OpticalBarModel.cc:231-232 | sscanf with n conversions converts at most n values |
| Text.IntRoundTrip | src/asp/Camera/OpticalBarModel.cc:358-359 | %d reads back exactly the integer operator<< wrote, and leaves the rest of the line |
| Text.ScanOneInt | src/asp/Camera/OpticalBarModel.cc:219 | a lone written integer scans back with one %d |
| Text.IntTextRoundTrips | src/asp/Camera/OpticalBarModel.cc:381 | integer text meets the round-trip hypothesis |
| Text.MatchLiteralSelf | src/asp/Camera/OpticalBarModel.cc:231 | a field name without whitespace matches itself in a sscanf format |
| Text.ScanNumbersJoin | src/asp/Camera/OpticalBarModel.cc:358-381 | space-separated written values scan back as those values, when the converter reads back each of them |
| Text.FieldLineRoundTrip | src/asp/Camera/OpticalBarModel.cc:358-381 | a written field line, scanned with its own name and count, yields the written values, when the converter reads back each of them |
| Persistence.ReadCamera | src/asp/Camera/OpticalBarModel.cc:203-340 | a read passes exactly when the file opens, the first line has "VERSION" and a version of at least 4, the second has "OPTICAL_BAR" and every field block succeeds; a pass takes the scan direction from the last line; any other failure than an unreadable field leaves the state unchanged, and no failure changes the scan direction or the correction flags |
| Persistence.ReadFieldsOutcome | src/asp/Camera/OpticalBarModel.cc:229-337 | field reading from block k on passes exactly when every remaining block succeeds |
| Persistence.ReadFieldsFailures | src/asp/Camera/OpticalBarModel.cc:229-335 | field reading fails only with IOErr for an unreadable field, and a failure keeps the scan direction and the correction flags |
| Persistence.FirstIncomplete | src/asp/Camera/OpticalBarModel.cc:229-335 | when not every block succeeds, there is a block that fails after all blocks before it succeeded |
| Persistence.ReadFieldsFirstFailure | src/asp/Camera/OpticalBarModel.cc:229-335 | the first failing block j ends the read with IOErr naming field j, the blocks before it stored and block j's own partial conversions kept |
| Persistence.ReadFieldsPass | src/asp/Camera/OpticalBarModel.cc:229-337 | when every block succeeds, all are stored in turn and the direction comes from the last line |
| Persistence.ReadStep | src/asp/Camera/OpticalBarModel.cc:230-235 | one block succeeds exactly when the stream stays good and every value converts; a bad stream stores nothing; no block touches the direction or the correction flags |
| Persistence.ReadPrefix | src/asp/Camera/OpticalBarModel.cc:229-334 | running field blocks in turn keeps the scan direction and the correction flags |
| Persistence.StoreInts | src/asp/Camera/OpticalBarModel.cc:229-334 | the %d stores keep the scan direction and the correction flags |
| Persistence.StoreReals | src/asp/Camera/OpticalBarModel.cc:237-326 | the %lf stores keep the scan direction and the correction flags |
| Persistence.StoreCenter | src/asp/Camera/OpticalBarModel.cc:238-239 | the image-centre store changes only the image centre |
| Persistence.StorePosition | src/asp/Camera/OpticalBarModel.cc:275-276 | the initial-position store changes only the initial position |
| Persistence.ReadRejectsUnopenable | src/asp/Camera/OpticalBarModel.cc:208-209 | a file that cannot be opened is refused with IOErr and the state is unchanged |
| Persistence.ReadRejectsMissingVersion | src/asp/Camera/OpticalBarModel.cc:212-216 | a first line without "VERSION" is an IOErr and the state is unchanged |
| Persistence.ReadRejectsUnparsedVersion | src/asp/Camera/OpticalBarModel.cc:218-221 | a first line with "VERSION" that does not scan as VERSION_%d keeps the default 1 and is refused with ArgumentErr(1) |
| Persistence.ReadRejectsWrongType | src/asp/Camera/OpticalBarModel.cc:223-227 | a second line without "OPTICAL_BAR" is refused with ArgumentErr naming that line, and the state is unchanged |
| Persistence.ReadStopsAtFirstBadField | src/asp/Camera/OpticalBarModel.cc:203-335 | after an accepted header, the first failing field block ends the read with IOErr naming its field, the fields before it stored |
| Persistence.ReadRejectsOldVersion | src/asp/Camera/OpticalBarModel.cc:218-221 | any first line that mentions "VERSION" and scans as a version below 4 is refused with ArgumentErr naming that version, and the state is unchanged |
| Persistence.ReadRejectsWrittenOldVersion | src/asp/Camera/OpticalBarModel.cc:218-221 | in particular a first line VERSION_v with v below 4 is refused with ArgumentErr naming v |
| Persistence.VersionLineIgnoresTrailer | src/asp/Camera/OpticalBarModel.cc:218 | text after the number that starts with whitespace, such as a trailing carriage return, does not change the version read |
| Persistence.VersionLineParses | src/asp/Camera/OpticalBarModel.cc:219 | "VERSION_" followed by a written integer parses as that integer |
| Persistence.CurrentVersionParses | src/asp/Camera/OpticalBarModel.cc:219 | the version line the writer emits parses as version 4 |
| Persistence.Encode | src/asp/Camera/OpticalBarModel.cc:343-391 | a written file has sixteen lines and ends with a newline |
| Persistence.LabelsHaveNoSpace | src/asp/Camera/OpticalBarModel.cc:231-330 | every field name is made of letters and underscores |
| Persistence.ReadEncodedField | src/asp/Camera/OpticalBarModel.cc:229-334 | reading a field's written line stores that field's value and completes |
| Persistence.ReadFieldsAgree | src/asp/Camera/OpticalBarModel.cc:229-334 | good lines holding written fields are read in turn, each storing its field |
| Persistence.ReadFieldsStep | src/asp/Camera/OpticalBarModel.cc:229-334 | one good written line advances the read by one field |
| Persistence.OverwriteAll | src/asp/Camera/OpticalBarModel.cc:229-334 | storing all thirteen fields yields the written state except for the correction flags and scan direction |
| Persistence.EncodedFieldLines | src/asp/Camera/OpticalBarModel.cc:358-381 | each written field line is where the reader looks for it, and the stream is good after it |
| Persistence.EncodedHeader | src/asp/Camera/OpticalBarModel.cc:356-357 | the written header passes the reader's version and type checks |
| Persistence.ScanDirRoundTrip | src/asp/Camera/OpticalBarModel.cc:336-389 | the direction line reads back as the direction it was written for |
| Persistence.ReadWriteRoundTrip | src/asp/Camera/OpticalBarModel.cc:203-391 | reading a written file passes and restores every persisted field; the orientation comes back through its matrix and the correction flags stay as they were, given that the number text reads back the 22 written reals |
| Persistence.ReadWriteIdentity | src/asp/Camera/OpticalBarModel.cc:203-391 | when the rotation algebra recovers the orientation, reading a written file restores the model exactly |
| Persistence.WholeNumbersReadBack | src/asp/Camera/OpticalBarModel.cc:358-381 | a number text that writes whole numbers as integers reads back any list of whole numbers, so the round-trip hypothesis can be met |
| Persistence.ReadWriteWholeNumbers | src/asp/Camera/OpticalBarModel.cc:203-391 | a model whose written reals are whole numbers reads back from its own file, with no hypothesis left on the number text |
| OpticalBarModel.OpticalBarModel.ApplyTransform | src/asp/Camera/OpticalBarModel.cc:185-200 | the fields become the transform as the code computes it |
| OpticalBarModel.OpticalBarModel.ApplyTransformAtScanStart | src/asp/Camera/OpticalBarModel.cc:185-200 | the fields become the corrected transform |
| OpticalBarModel.OpticalBarModel.Read | src/asp/Camera/OpticalBarModel.cc:203-340 | the new fields and the outcome are those of ReadCamera on the old fields |
| OpticalBarModel.OpticalBarModel.ReadBody | src/asp/Camera/OpticalBarModel.cc:229-337 | the thirteen field blocks and the direction line leave the fields and outcome that ReadFields gives |
| OpticalBarModel.OpticalBarModel.ReadFieldLine | src/asp/Camera/OpticalBarModel.cc:230-235 | one field block stores what ReadStep gives and reports whether it completed |
| OpticalBarModel.OpticalBarModel.StoreIntValues | src/asp/Camera/OpticalBarModel.cc:229-334 | the %d conversions land in their fields; the compensation flag is stored only when converted |
| OpticalBarModel.OpticalBarModel.StoreRealValues | src/asp/Camera/OpticalBarModel.cc:237-326 | each %lf conversion lands in its field; the orientation is set only when all nine entries were read |
| OpticalBarModel.OpticalBarModel.StoreImageCenter | src/asp/Camera/OpticalBarModel.cc:238-239 | each converted component of the image centre is stored |
| OpticalBarModel.OpticalBarModel.StoreInitialPosition | src/asp/Camera/OpticalBarModel.cc:275-276 | each converted component of the initial position is stored |
| OpticalBarModel.OpticalBarModel.Write | src/asp/Camera/OpticalBarModel.cc:343-391 | an IOErr if the file cannot be opened, otherwise the file Encode gives for the fields |
| OpticalBarModel.EncodedLines | src/asp/Camera/OpticalBarModel.cc:356-389 | the written file lists the version, the type, the thirteen field lines in order and the direction line |

## Left out

- `point_to_pixel` is not modelled. It runs the generic Levenberg-Marquardt solver, whose code is not part of this model.
- `operator<<` is not modelled. It is diagnostic text output.
- The bodies of sin, cos, norm, normalise, quaternion and axis-angle conversion, `rotation_x_axis`, the refraction and aberration corrections, `strtod` and 17-digit formatting are parameters. No property of them is assumed except where a lemma names a hypothesis.
- Reals are exact. IEEE infinities, NaN, rounding and division by zero are not modelled. Each division carries a `requires` that its divisor is non-zero (`ScanDefined`, `RayDefined`).
- Projection.CompensationScalesWithFlag: `m_use_motion_compensation` is modelled as an `int`, stored from the `%d` temporary as line 334 does and multiplied in at lines 105-106. Its declared type is in `OpticalBarModel.h`, which is not part of this model. If the member is a `bool`, every non-zero value read is stored as 1, and compensation is then on or off rather than scaled or negated by the flag's value.
- `int` is unbounded. `%d` overflow and the `int` to `double` conversion of `max_col` are not modelled.
- File handles are not modelled: opening, closing and partial writes on a full disk. `Read` takes `None` for a file that cannot be opened. `Write` takes a boolean for whether the file opens.
- `Write` returns the file it would write, as a list of lines, instead of streaming the lines one at a time.
- The header file (`OpticalBarModel.h`) is not part of this model. `camera_center()` with no argument is taken to be `camera_center(Vector2(0,0))`, as the header's default argument makes it, and `camera_pose()` to be the pose at any pixel.
- OpticalBarModel.OpticalBarModel.ReadBody: the thirteen read blocks are modelled as one loop over the table of field names and counts (`FieldOrder`, `Label`, `Count`). The per-field conversions are chosen by the field.
- Text.ScanField: `sscanf` is modelled for the formats this file uses: literal text, whitespace in the format, and `%d` / `%lf` conversions. The model returns the converted prefix, and its length is the return count. Input failure before the first conversion (an EOF return) counts as zero conversions, which the code treats the same way.
- Persistence.ReadWriteRoundTrip: the round trip of real-number text is a hypothesis, because `strtod` and the output formatting are parameters. It asks only that the 22 reals written for the model read back (`RoundTripsOn` over `WrittenReals`). Whether 17-digit output and `strtod` meet it for every double is not modelled.

Behaviour of the code that its flag names and error kinds do not suggest:

- The refraction correction runs when `m_correct_atmospheric_refraction` is **false**, as line 146 tests it. The aberration correction runs when its flag is true.
- A field line that does not parse raises `IOErr`, the same kind as a file that cannot be opened, rather than `ArgumentErr`, which the header checks raise (lines 231-333).
- Fields read before a failing line keep their new values, and `sscanf` writes partial conversions straight into the members. A read that raises has therefore already changed the model.

## Findings

| source | as written | input that shows it | evidently intended | confidence | as-written member | corrected member |
|---|---|---|---|---|---|---|
| src/asp/Camera/OpticalBarModel.cc:190 | `apply_transform` maps `camera_center()`, the centre at pixel (0, 0), and stores the result as the scan-start position | any right-to-left scan with non-zero scan time and velocity, under the identity transform: the position moves by scan_time * velocity | map the stored scan-start position `m_initial_position`, so that the identity transform changes nothing | medium, not executed (relies on the header's default argument for `camera_center()`) | Transform.AsWrittenIdentityShiftsRightToLeft | Transform.TransformIdentity |

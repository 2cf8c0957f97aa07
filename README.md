# Postura per-frame pipeline, in Dafny

A model of the per-frame bookkeeping of the Postura posture-feedback app. The
pose-estimation network itself is foreign and is not modelled; what surrounds it is:

- **NV21 assembly** (`BitmapUtils`): the three camera planes are copied into one byte
  array, Y first, then V (plane 2), then U (plane 1), by three `ByteBuffer.get`
  calls that advance each plane's position. Modelled as a `ByteBuffer` class and a
  method that fills a fresh `array<bv8>`.
- **Keypoint mapping** (`PoseDetector`): the 17 `(y, x, score)` rows the model writes
  become 17 keypoints with coordinate `(x, y)`; an exception gives the empty list.
- **Posture heuristic** (`Posture`): the size gate (17 keypoints), the confidence gate
  (5 keypoints scoring above 0.05), the shoulder-height and head-offset
  sub-judgments tiered at 0.05 and 0.1, their combination, the corrections and the
  message.
- **View model** (`PoseViewModel`): three single-slot observable cells overwritten by
  four setters, as a class, with a pure replay of setter calls beside it to state
  that the last write wins.
- **Per-frame shell** (`FrameAnalysis`): `analyze` assembles the buffer, publishes the
  keypoints and their feedback, counts the frame (a Kotlin `Int`, so it wraps), and
  closes the frame exactly once on every path.
- **Overlay decisions** (`PoseOverlay`): keypoint colour tiers, detection status and
  its colour, the edge-drawing gate, and the feedback background colour.

`KeyPoints` holds what these share: the 17 body parts, the `KeyPoint` record, the
`find`-by-body-part lookup and the confidence filter. Coordinates and scores are
`real`, and thresholds are exact reals.

Fewer than five confident keypoints give POOR with the message "Poor detection
quality" (`PoseAnalyzer.kt:116-123`), so `AnalyzePosture` is UNKNOWN exactly when
fewer than 17 keypoints are given.

`BodyPart.kt`, which defines `BodyPart.from`, is not part of this model. `BodyPartFrom`
uses the single-pose model's documented row order: nose, left/right eye, left/right
ear, then left/right shoulder, elbow, wrist, hip, knee and ankle.

## Model

| member | source | states |
|---|---|---|
| `KeyPoints.BodyPartFrom` | app/src/main/java/com/example/postura/data/pose/PoseDetector.kt:57 | Row `i` gets a body part whose row index is `i` again, so different rows get different body parts |
| `KeyPoints.BodyPartFromIndex` | app/src/main/java/com/example/postura/data/pose/PoseDetector.kt:57 | Every body part belongs to exactly one output row |
| `KeyPoints.Confident` | app/src/main/java/com/example/postura/data/pose/PoseAnalyzer.kt:116 | The filter keeps exactly the keypoints scoring above 0.05, and its length is the number of positions holding one; it keeps everything iff every keypoint is confident |
| `KeyPoints.ConfidentAppend` | app/src/main/java/com/example/postura/data/pose/PoseAnalyzer.kt:116 | The filter of a concatenation is the concatenation of the filters, so the kept keypoints stay in list order |
| `KeyPoints.ConfidentSingleton` | app/src/main/java/com/example/postura/data/pose/PoseAnalyzer.kt:116 | A single keypoint is kept iff it scores above 0.05; with `ConfidentAppend` this fixes the filter on every list |
| `KeyPoints.Find` | app/src/main/java/com/example/postura/data/pose/PoseAnalyzer.kt:126-132 | `find` returns nothing iff no keypoint has the body part; otherwise it returns a keypoint of the list with that body part |
| `KeyPoints.FindFirst` | app/src/main/java/com/example/postura/data/pose/PoseAnalyzer.kt:126-132 | `find` returns the first keypoint with the body part |
| `BitmapUtils.ByteBuffer.Get` | app/src/main/java/com/example/postura/utils/BitmapUtils.kt:18-20 | A relative bulk `get` copies the next `length` bytes to `dst[offset..]`, leaves the rest of `dst` alone and advances the position by `length`; it fails without changing anything iff the range does not fit or too few bytes remain |
| `BitmapUtils.ToNv21` | app/src/main/java/com/example/postura/utils/BitmapUtils.kt:7-20 | The fresh buffer holds all remaining Y bytes, then all V bytes, then all U bytes; none of the three copies fails, and every plane ends with nothing remaining |
| `BitmapUtils.Nv21Regions` | app/src/main/java/com/example/postura/utils/BitmapUtils.kt:12-20 | The buffer's length is ySize + uSize + vSize; bytes `[0, ySize)` are plane 0, `[ySize, ySize+vSize)` plane 2, and the rest plane 1 |
| `BitmapUtils.SourceOf` | app/src/main/java/com/example/postura/utils/BitmapUtils.kt:16-20 | Each buffer position lies in the destination range of exactly one copy, at a position inside that plane |
| `BitmapUtils.Nv21ByteSource` | app/src/main/java/com/example/postura/utils/BitmapUtils.kt:16-20 | Each byte of the buffer equals the byte of the plane and position `SourceOf` names: no gap and no overlap |
| `PoseDetector.DetectPose` | app/src/main/java/com/example/postura/data/pose/PoseDetector.kt:42-66 | A failed run gives the empty list; a successful one gives 17 keypoints, row `i` giving `BodyPart.from(i)`, and reading a keypoint back in `(y, x, score)` order gives its row |
| `PoseDetector.DetectedRow` | app/src/main/java/com/example/postura/data/pose/PoseDetector.kt:55-61 | Keypoint `i` has x from column 1, y from column 0 and the score of column 2, unchanged |
| `PoseDetector.DistinctBodyParts` | app/src/main/java/com/example/postura/data/pose/PoseDetector.kt:55-61 | The 17 keypoints of a detection carry pairwise different body parts |
| `PoseDetector.FindDetected` | app/src/main/java/com/example/postura/data/pose/PoseDetector.kt:55-61 | Looking up a body part in a detection finds the keypoint of that body part's row |
| `PoseDetector.LeftShoulderRowExample` | app/src/main/java/com/example/postura/data/pose/PoseDetector.kt:56-60 | Row 5 with `(0.3, 0.4, 0.8)` becomes the left shoulder at `(0.4, 0.3)` with score 0.8 |
| `Posture.Tier` | app/src/main/java/com/example/postura/data/pose/PoseAnalyzer.kt:172-176 | A deviation is good iff below 0.05, poor iff at least 0.1, and never unknown |
| `Posture.TierMonotone` | app/src/main/java/com/example/postura/data/pose/PoseAnalyzer.kt:188-192 | A larger deviation never gets a better tier |
| `Posture.ShoulderAlignment` | app/src/main/java/com/example/postura/data/pose/PoseAnalyzer.kt:165-177 | Unknown iff a shoulder is absent or scores below 0.05; otherwise good iff the height difference is below 0.05 and poor iff it is at least 0.1 |
| `Posture.HeadPosition` | app/src/main/java/com/example/postura/data/pose/PoseAnalyzer.kt:179-193 | Unknown iff the nose or a shoulder is absent or scores below 0.05; otherwise good iff the nose is less than 0.05 from the shoulders' mid-x and poor iff at least 0.1 |
| `Posture.SubJudgmentsSymmetric` | app/src/main/java/com/example/postura/data/pose/PoseAnalyzer.kt:165-193 | Swapping the left and right shoulder changes neither sub-judgment |
| `Posture.HeadNeedsShoulders` | app/src/main/java/com/example/postura/data/pose/PoseAnalyzer.kt:179-183 | When the shoulders cannot be judged, the head cannot either |
| `Posture.Combine` | app/src/main/java/com/example/postura/data/pose/PoseAnalyzer.kt:136-140 | Overall is good iff both sub-judgments are good, poor iff either is poor, and never unknown |
| `Posture.Usable` | app/src/main/java/com/example/postura/data/pose/PoseAnalyzer.kt:165-167 | No contract: a keypoint the sub-judgments may use is present and its score is not below 0.05 (a score of exactly 0.05 is usable); `ThresholdScoreUsableNotConfident` sets it against the confidence filter |
| `Posture.Corrections` | app/src/main/java/com/example/postura/data/pose/PoseAnalyzer.kt:142-151 | Never empty; "Level your shoulders" iff the shoulders are poor and first when present; "Keep your head straight" iff the head is poor and last when present; the praise is the sole entry iff neither is poor; when one is poor, the list holds exactly the poor sub-judgments' corrections and nothing else |
| `Posture.Message` | app/src/main/java/com/example/postura/data/pose/PoseAnalyzer.kt:155-160 | No contract: the message of each overall quality; `MessageInjective` proves the four different |
| `Posture.MessageInjective` | app/src/main/java/com/example/postura/data/pose/PoseAnalyzer.kt:153-162 | Each quality has its own message |
| `Posture.AnalyzePosture` | app/src/main/java/com/example/postura/data/pose/PoseAnalyzer.kt:107-163 | The result is unknown iff fewer than 17 keypoints are given, and its corrections are never empty |
| `Posture.TooFewKeyPoints` | app/src/main/java/com/example/postura/data/pose/PoseAnalyzer.kt:108-114 | Fewer than 17 keypoints: UNKNOWN, "Not enough keypoints detected", and exactly the two fixed corrections |
| `Posture.PoorDetection` | app/src/main/java/com/example/postura/data/pose/PoseAnalyzer.kt:116-123 | 17 or more keypoints with fewer than 5 scoring above 0.05: POOR, "Poor detection quality", and exactly the three fixed corrections |
| `Posture.JudgedFeedback` | app/src/main/java/com/example/postura/data/pose/PoseAnalyzer.kt:125-162 | Past both gates: the quality combines the sub-judgments of the first nose and shoulders, the message is that quality's, each correction appears iff its sub-judgment is poor, and the praise alone iff the quality is not poor |
| `Posture.PoorDetectionMessage` | app/src/main/java/com/example/postura/data/pose/PoseAnalyzer.kt:107-162 | The message is "Poor detection quality" iff the size gate passes and the confidence gate fails |
| `Posture.GoodPosture` | app/src/main/java/com/example/postura/data/pose/PoseAnalyzer.kt:136-140 | The result is good iff both gates pass and both sub-judgments are good |
| `Posture.UnusableShouldersGiveFair` | app/src/main/java/com/example/postura/data/pose/PoseAnalyzer.kt:126-151 | Past both gates, a missing or low-scoring first shoulder yields FAIR with only the praise as correction |
| `Posture.ThresholdScoreUsableNotConfident` | app/src/main/java/com/example/postura/data/pose/PoseAnalyzer.kt:116-167 | A score of exactly 0.05 is usable by the sub-judgments but not counted as confident |
| `Posture.BoundaryExamples` | app/src/main/java/com/example/postura/data/pose/PoseAnalyzer.kt:165-193 | Heights 0.50/0.549 are good, 0.50/0.551 fair, 0.50/0.61 poor; with shoulders at x 0.40 and 0.60, a nose at 0.549 is good and one at 0.61 poor |
| `PoseViewModel.Apply` | app/src/main/java/com/example/postura/viewmodel/PoseViewModel.kt:26-41 | No contract: one setter call as a write to the cells; the class's setters are proved to act on their fields as `Apply` says, and the `Last…Wins` lemmas state what repeated writes leave |
| `PoseViewModel.LastStateWins` | app/src/main/java/com/example/postura/viewmodel/PoseViewModel.kt:16-41 | The state cell holds the value of the last setter that writes it; later feedback writes do not matter |
| `PoseViewModel.LastKeypointsWin` | app/src/main/java/com/example/postura/viewmodel/PoseViewModel.kt:26-29 | The keypoints cell holds the points of the last `updateKeypoints`, whatever other setters follow |
| `PoseViewModel.LastFeedbackWins` | app/src/main/java/com/example/postura/viewmodel/PoseViewModel.kt:31-33 | The feedback cell holds the feedback of the last `updatePostureFeedback`, whatever other setters follow |
| `PoseViewModel.ErrorKeepsKeypoints` | app/src/main/java/com/example/postura/viewmodel/PoseViewModel.kt:26-37 | After `updateKeypoints(p)` then `setError(m)`, the state is `Error(m)` while the keypoints cell still holds `p` |
| `PoseViewModel.PoseViewModel.constructor` | app/src/main/java/com/example/postura/viewmodel/PoseViewModel.kt:15-23 | A new view model is loading, with no keypoints and no feedback |
| `PoseViewModel.PoseViewModel.UpdateKeypoints` | app/src/main/java/com/example/postura/viewmodel/PoseViewModel.kt:26-29 | The state becomes `Success(p)`, the keypoints cell `p`, and the feedback is unchanged |
| `PoseViewModel.PoseViewModel.UpdatePostureFeedback` | app/src/main/java/com/example/postura/viewmodel/PoseViewModel.kt:31-33 | The feedback cell becomes the feedback; state and keypoints are unchanged |
| `PoseViewModel.PoseViewModel.SetError` | app/src/main/java/com/example/postura/viewmodel/PoseViewModel.kt:35-37 | The state becomes `Error(m)`; keypoints and feedback are unchanged |
| `PoseViewModel.PoseViewModel.SetLoading` | app/src/main/java/com/example/postura/viewmodel/PoseViewModel.kt:39-41 | The state becomes `Loading` and nothing else changes |
| `PoseOverlay.KeyPointColor` | app/src/main/java/com/example/postura/pose/PoseOverlay.kt:46-50 | Green iff score > 0.05, yellow iff 0.02 < score <= 0.05, red iff score <= 0.02 |
| `PoseOverlay.GreenIsConfident` | app/src/main/java/com/example/postura/pose/PoseOverlay.kt:46-47 | A dot is green iff the analyzer counts its keypoint as confident |
| `PoseOverlay.StatusOf` | app/src/main/java/com/example/postura/pose/PoseOverlay.kt:88-95 | With c confident keypoints: Good iff c >= 10, Partial iff 5 <= c < 10, Poor iff 0 < c < 5, No Detection iff c = 0 |
| `PoseOverlay.StatusLabel` | app/src/main/java/com/example/postura/pose/PoseOverlay.kt:90-95 | No contract: the status line of each tier |
| `PoseOverlay.StatusLabelInjective` | app/src/main/java/com/example/postura/pose/PoseOverlay.kt:90-95 | Each tier has its own status line |
| `PoseOverlay.StatusColor` | app/src/main/java/com/example/postura/pose/PoseOverlay.kt:97-101 | No contract: green from 10 confident keypoints, yellow from 5, red below; `StatusColorAgrees` relates it to the status tier |
| `PoseOverlay.StatusColorAgrees` | app/src/main/java/com/example/postura/pose/PoseOverlay.kt:97-101 | The status colour is green iff the status is good, yellow iff partial, and red iff poor or none |
| `PoseOverlay.DetectionStatusOf` | app/src/main/java/com/example/postura/pose/PoseOverlay.kt:88-95 | No contract: the status tier of the number of keypoints scoring above 0.05 |
| `PoseOverlay.StatusAgreesWithAnalyzer` | app/src/main/java/com/example/postura/pose/PoseOverlay.kt:88-95 | With at least 17 keypoints, the overlay shows poor or no detection iff the analyzer reports poor detection quality |
| `PoseOverlay.DrawsLine` | app/src/main/java/com/example/postura/pose/PoseOverlay.kt:201-205 | No contract: `drawLineBetween`'s gate, both parts found by `find` and both scoring above 0.3; `DrawnLineEnds` states what it implies |
| `PoseOverlay.DrawnLineEnds` | app/src/main/java/com/example/postura/pose/PoseOverlay.kt:201-205 | The gate is symmetric in its two parts; a drawn edge has keypoints of both parts scoring above 0.3; a first keypoint of either part scoring 0.3 or less blocks the edge |
| `PoseOverlay.GatedEdges` | app/src/main/java/com/example/postura/pose/PoseOverlay.kt:194-212 | An edge is kept iff it is among the candidates and its gate passes, never more often than it occurs among them |
| `PoseOverlay.GatedEdgesAppend` | app/src/main/java/com/example/postura/pose/PoseOverlay.kt:60-73 | Gating a concatenation of edge lists gates each in turn, so the drawn edges keep the drawing order; with `GatedEdgesSingleton` this fixes `GatedEdges` on every list |
| `PoseOverlay.GatedEdgesSingleton` | app/src/main/java/com/example/postura/pose/PoseOverlay.kt:194-212 | One edge is kept iff its gate passes |
| `PoseOverlay.DrawnEdges` | app/src/main/java/com/example/postura/pose/PoseOverlay.kt:60-73 | Without `drawLines` no edge is drawn; with it, exactly the ten skeleton edges whose gate passes, each at most once |
| `PoseOverlay.SkeletonEdgesNoRepeats` | app/src/main/java/com/example/postura/pose/PoseOverlay.kt:60-73 | The ten skeleton edges are pairwise different |
| `PoseOverlay.FeedbackColor` | app/src/main/java/com/example/postura/pose/PoseOverlay.kt:139-144 | No contract: the background colour of each quality; `FeedbackColorInjective` proves them distinct |
| `PoseOverlay.FeedbackColorInjective` | app/src/main/java/com/example/postura/pose/PoseOverlay.kt:139-144 | Each quality has its own background colour, and gray means UNKNOWN |
| `FrameAnalysis.Increment` | app/src/main/java/com/example/postura/data/pose/PoseAnalyzer.kt:61 | `frameCount++` adds one modulo 2^32, and below the largest `Int` it grows |
| `FrameAnalysis.ImageProxy.Close` | app/src/main/java/com/example/postura/data/pose/PoseAnalyzer.kt:102-103 | Closing the frame counts one more close |
| `FrameAnalysis.PoseAnalyzer.constructor` | app/src/main/java/com/example/postura/data/pose/PoseAnalyzer.kt:19-24 | A new analyzer publishes to the given view model and has counted no frame |
| `FrameAnalysis.PoseAnalyzer.Analyze` | app/src/main/java/com/example/postura/data/pose/PoseAnalyzer.kt:27-105 | When `detectPose` returns, the view model gets the detected keypoints and then their feedback, and the counter is incremented; when an exception is caught earlier (a failed NV21 allocation, a failed preprocessing stage, an `OutOfMemoryError` in `detectPose` or `analyzePosture`) neither changes; the planes are consumed unless the NV21 allocation failed, in which case they are untouched; the frame is closed exactly once on every path |
| `FrameAnalysis.InferenceFailureIsUnknown` | app/src/main/java/com/example/postura/data/pose/PoseDetector.kt:62-65 | A failed inference is reported as UNKNOWN with the "not enough keypoints" corrections |
| `FrameAnalysis.DetectedJudgments` | app/src/main/java/com/example/postura/data/pose/PoseAnalyzer.kt:126-133 | On a detection, the shoulder judgment compares column 0 of rows 5 and 6, the head judgment column 1 of row 0 against the mean of rows 5 and 6, each unknown when a used row scores below 0.05 |
| `FrameAnalysis.DetectedFeedback` | app/src/main/java/com/example/postura/data/pose/PoseAnalyzer.kt:107-140 | A detection is never UNKNOWN, and past the confidence gate its quality combines the two row-based judgments |
| `FrameAnalysis.UprightDetection` | app/src/main/java/com/example/postura/data/pose/PoseAnalyzer.kt:136-162 | Seventeen rows scoring 0.9, level shoulders and a centred nose give GOOD, "Excellent posture!" and only the praise |

## Left out

- The JPEG round trip and the `Matrix` rotation of `toBitmap` (`BitmapUtils.kt:22-38`): platform codecs. Whether they succeed is an input of `Analyze`.
- The `ImageProcessor` resize and normalisation (`PoseAnalyzer.kt:35-44`): float resampling inside a library. It is folded into the same input.
- Loading and memory-mapping the model file and building the interpreter (`PoseDetector.kt:18-40`), and `interpreter.run` itself (`PoseDetector.kt:46`). What the run leaves behind (the filled 17x3 buffer, or an exception) is the input of `DetectPose`.
- The logging, the timing and the FPS arithmetic in `analyze`, and the `lastLogTime` field: diagnostics only. They use wall-clock time and float division, and no result depends on them.
- FrameAnalysis.PoseAnalyzer.Analyze: an `OutOfMemoryError` is modelled before the planes are read (the NV21 `ByteArray`, `BitmapUtils.kt:16`), during preprocessing (`BitmapUtils.kt:22-38`, `PoseAnalyzer.kt:35-44`), and anywhere after that before `updateKeypoints` writes (`detectPose`, whose `catch (e: Exception)` lets it through, and `analyzePosture`). Two later ones are not modelled: one after `updateKeypoints` has written and before `updatePostureFeedback` has (`PoseAnalyzer.kt:54-55`), which leaves the keypoints published without their feedback; and one in the logging allocations (`PoseAnalyzer.kt:58-59`), which leaves both cells written but skips `frameCount++`.
- The drawing in `PoseOverlay.kt` (circles, lines, text, layout), and the average and maximum confidence texts of the status box: UI only. The status labels are modelled by `StatusLabel`, without a contract.
- IEEE float rounding: `0.05f` and `0.1f` are not exactly 0.05 and 0.1, so a value at the exact boundary may tier differently on the device.
- NaN scores and coordinates: reals have no NaN. On the device a NaN score fails `> 0.05f` and `< 0.05f` alike, so it is not confident yet is usable (`PoseAnalyzer.kt:116`, `:167`), and a NaN coordinate fails both `<` tests of a tier, giving POOR (`PoseAnalyzer.kt:173-175`, `:189-191`).
- BitmapUtils.ToNv21: requires three distinct plane buffers, as a camera frame provides; aliased planes are not modelled.
- The camera preview, camera screen, activity, dependency injection and build files: I/O, UI, concurrency and configuration.
- Purity of `analyzePosture`: two calls on one list give equal feedback because `AnalyzePosture` is a function. No lemma is needed to state it.

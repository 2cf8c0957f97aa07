/** `PoseAnalyzer.analyze`, the per-frame shell around the pipeline: assemble the
    NV21 buffer, let the platform decode and preprocess it, detect keypoints,
    judge the posture, publish both to the view model, count the frame, and
    close the frame on every path. The stages this model cannot see (JPEG round
    trip, rotation, resize, normalisation, the interpreter) are inputs that say
    how they ended. Also here: what the analyzer makes of the detector's output. */
module FrameAnalysis {
  import opened KeyPoints
  import opened BitmapUtils
  import opened PoseDetector
  import opened Posture
  import opened PoseViewModel

  /** Kotlin's `Int`. */
  newtype int32 = x: int | -0x8000_0000 <= x < 0x8000_0000

  /** `frameCount++` on an `Int`: one more, modulo 2^32, in the signed range. */
  function Increment(n: int32): (r: int32)
    ensures (r as int - n as int - 1) % 0x1_0000_0000 == 0
    ensures n < 0x7FFF_FFFF ==> r > n
  {
    if n == 0x7FFF_FFFF then -0x8000_0000 else n + 1
  }

  /** The camera frame: planes 0, 1 and 2 (Y, U, V) and how often it was closed. */
  class ImageProxy {
    const yPlane: ByteBuffer
    const uPlane: ByteBuffer
    const vPlane: ByteBuffer
    var closeCount: nat

    ghost predicate Valid()
      reads this, yPlane, uPlane, vPlane
    {
      yPlane.Valid() && uPlane.Valid() && vPlane.Valid() &&
      yPlane != uPlane && yPlane != vPlane && uPlane != vPlane
    }

    constructor (yPlane: ByteBuffer, uPlane: ByteBuffer, vPlane: ByteBuffer)
      requires yPlane.Valid() && uPlane.Valid() && vPlane.Valid()
      requires yPlane != uPlane && yPlane != vPlane && uPlane != vPlane
      ensures Valid() && closeCount == 0
      ensures this.yPlane == yPlane && this.uPlane == uPlane && this.vPlane == vPlane
    {
      this.yPlane := yPlane;
      this.uPlane := uPlane;
      this.vPlane := vPlane;
      closeCount := 0;
    }

    /** `close()`: hands the frame back to the camera. */
    method Close()
      modifies this
      ensures closeCount == old(closeCount) + 1
    {
      closeCount := closeCount + 1;
    }
  }

  /** The exceptions `analyze` catches, one per `catch` clause. */
  datatype FrameError = OutOfMemory | InvalidImageFormat | OtherException

  /** How the stages this model cannot see ended for one frame. */
  datatype FrameRun =
      // The NV21 `ByteArray` of `toBitmap` could not be allocated: an
      // `OutOfMemoryError` before any plane is read.
    | BufferOutOfMemory
      // After the planes were read: the JPEG round trip, the rotation, the
      // resize or the normalisation threw.
    | PreprocessingFailed(error: FrameError)
      // An `OutOfMemoryError` after preprocessing and before `updateKeypoints`
      // writes: inside `detectPose`, whose `catch (e: Exception)` lets it
      // through, or inside `analyzePosture`.
    | OutOfMemoryBeforeUpdate
      // `detectPose` returned; what the interpreter left behind.
    | Detected(inference: Inference)

  class PoseAnalyzer {
    const viewModel: PoseViewModel
    var frameCount: int32

    /** A new analyzer publishes to `viewModel` and has counted no frame. */
    constructor (viewModel: PoseViewModel)
      ensures this.viewModel == viewModel && frameCount == 0
    {
      this.viewModel := viewModel;
      frameCount := 0;
    }

    /** `analyze(image)`. When `detectPose` returns, the view model receives the
        detected keypoints and the feedback judged from those same keypoints, in
        that order, and one more frame is counted; when an exception is caught
        before that, neither the view model nor the counter changes. The planes
        are consumed unless the buffer could not be allocated, and the frame is
        closed exactly once on every path. */
    method Analyze(image: ImageProxy, run: FrameRun)
      requires image.Valid()
      modifies this, viewModel, image, image.yPlane, image.uPlane, image.vPlane
      ensures image.Valid() && image.closeCount == old(image.closeCount) + 1
      ensures run.BufferOutOfMemory? ==> unchanged(image.yPlane, image.uPlane, image.vPlane)
      ensures !run.BufferOutOfMemory? ==>
        image.yPlane.Remaining() == 0 && image.uPlane.Remaining() == 0 && image.vPlane.Remaining() == 0
      ensures run.Detected? ==>
        && viewModel.Snapshot() == Apply(Apply(old(viewModel.Snapshot()), WriteKeypoints(DetectPose(run.inference))),
                                         WriteFeedback(AnalyzePosture(DetectPose(run.inference))))
        && frameCount == Increment(old(frameCount))
      ensures !run.Detected? ==>
        viewModel.Snapshot() == old(viewModel.Snapshot()) && frameCount == old(frameCount)
    {
      if !run.BufferOutOfMemory? {
        var nv21 := ToNv21(image.yPlane, image.uPlane, image.vPlane);
      }
      match run {
        case Detected(inference) =>
          var keypoints := DetectPose(inference);
          var postureFeedback := AnalyzePosture(keypoints);
          viewModel.UpdateKeypoints(keypoints);
          viewModel.UpdatePostureFeedback(postureFeedback);
          frameCount := Increment(frameCount);
        case _ =>
      }
      image.Close();
    }
  }

  /** A failed inference reaches the analyzer as the empty list, which it
      reports as unknown with the two "not enough keypoints" corrections. */
  lemma InferenceFailureIsUnknown()
    ensures AnalyzePosture(DetectPose(Threw)) ==
      PostureFeedback(Unknown, "Not enough keypoints detected", ["Move closer to camera", "Improve lighting"])
  {
    TooFewKeyPoints(DetectPose(Threw));
  }

  /** On the detector's keypoints the shoulder judgment compares column 0 (the
      height) of rows 5 and 6, and the head judgment compares column 1 of row 0
      with the mean of column 1 of rows 5 and 6; a row whose score (column 2) is
      below 0.05 leaves both unknown. */
  lemma {:induction false} DetectedJudgments(output: OutputRows)
    ensures ShoulderJudgment(DetectPose(Filled(output))) ==
      if output[5][2] < 0.05 || output[6][2] < 0.05 then Unknown
      else Tier(Abs(output[5][0] - output[6][0]))
    ensures HeadJudgment(DetectPose(Filled(output))) ==
      if output[0][2] < 0.05 || output[5][2] < 0.05 || output[6][2] < 0.05 then Unknown
      else Tier(Abs(output[0][1] - (output[5][1] + output[6][1]) / 2.0))
  {
    var kps := DetectPose(Filled(output));
    FindDetected(output, Nose);
    FindDetected(output, LeftShoulder);
    FindDetected(output, RightShoulder);
    DetectedRow(output, 0);
    DetectedRow(output, 5);
    DetectedRow(output, 6);
  }

  /** The detector's keypoints are never unknown: a detection is judged poor when
      fewer than five rows are confident, and judged on its rows otherwise. */
  lemma {:induction false} DetectedFeedback(output: OutputRows)
    ensures AnalyzePosture(DetectPose(Filled(output))).quality != Unknown
    ensures Judged(DetectPose(Filled(output))) ==>
      AnalyzePosture(DetectPose(Filled(output))).quality ==
        Combine(ShoulderJudgment(DetectPose(Filled(output))), HeadJudgment(DetectPose(Filled(output))))
  {
    var kps := DetectPose(Filled(output));
    if Judged(kps) {
      JudgedFeedback(kps);
    }
  }

  /** Seventeen rows all scoring 0.9, shoulders level and the nose centred
      between them: good posture, "Excellent posture!", and only the praise. */
  lemma {:induction false} UprightDetection(output: OutputRows)
    requires forall i :: 0 <= i < BodyPartCount ==> output[i][2] == 0.9
    requires output[5][0] == output[6][0]
    requires output[0][1] == (output[5][1] + output[6][1]) / 2.0
    ensures AnalyzePosture(DetectPose(Filled(output))) ==
      PostureFeedback(Good, "Excellent posture!", ["Great posture! Keep it up!"])
  {
    var kps := DetectPose(Filled(output));
    forall i | 0 <= i < |kps| ensures IsConfident(kps[i]) {
      DetectedRow(output, i);
    }
    assert |Confident(kps)| == |kps|;
    DetectedJudgments(output);
  }
}

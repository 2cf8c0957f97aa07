/** `PoseDetector.detectPose`: the model fills a `[1][1][17][3]` buffer with one
    `(y, x, score)` row per body part; each row becomes a keypoint with its
    coordinate turned into `(x, y)`. Any exception gives the empty list. The
    interpreter itself is foreign: what it leaves behind is an input here. */
module PoseDetector {
  import opened KeyPoints

  /** One output row as the model writes it: `[y, x, score]`. */
  type Row = r: seq<real> | |r| == 3 witness [0.0, 0.0, 0.0]

  /** The rows of `output[0][0]`: the detector allocates exactly 17 of them. */
  type OutputRows = t: seq<Row> | |t| == BodyPartCount
    witness seq(17, _ => ZeroRow)

  /** The row the detector's buffer starts with before the interpreter fills it. */
  const ZeroRow: Row := [0.0, 0.0, 0.0]

  /** What `interpreter.run` leaves behind: the filled buffer, or an `Exception`,
      which `detectPose` catches. */
  datatype Inference = Filled(output: OutputRows) | Threw

  /** The keypoint of output row `i`. */
  function RowKeyPoint(i: nat, row: Row): KeyPoint
    requires i < BodyPartCount
  {
    KeyPoint(BodyPartFrom(i), Offset(row[1], row[0]), row[2])
  }

  /** The row a keypoint came from, in the model's `[y, x, score]` order. */
  function KeyPointRow(k: KeyPoint): Row {
    [k.coordinate.y, k.coordinate.x, k.score]
  }

  /** `detectPose`: on success one keypoint per row, in row order, row `i` giving
      body part `BodyPart.from(i)`; reading each keypoint back in the model's
      order gives the row it came from. On an exception, the empty list. */
  function DetectPose(inference: Inference): (kps: seq<KeyPoint>)
    ensures inference.Threw? ==> kps == []
    ensures inference.Filled? ==> |kps| == BodyPartCount
    ensures inference.Filled? ==> forall i :: 0 <= i < |kps| ==>
      kps[i].bodyPart == BodyPartFrom(i) && KeyPointRow(kps[i]) == inference.output[i]
  {
    match inference
    case Threw => []
    case Filled(output) => seq(BodyPartCount, i requires 0 <= i < BodyPartCount => RowKeyPoint(i, output[i]))
  }

  /** Row `i` becomes keypoint `i`: x from column 1, y from column 0, and the
      score of column 2 unchanged. */
  lemma {:induction false} DetectedRow(output: OutputRows, i: nat)
    requires i < BodyPartCount
    ensures |DetectPose(Filled(output))| == BodyPartCount
    ensures DetectPose(Filled(output))[i] ==
      KeyPoint(BodyPartFrom(i), Offset(output[i][1], output[i][0]), output[i][2])
  {
    var k := DetectPose(Filled(output))[i];
    assert KeyPointRow(k) == output[i];
    assert k.coordinate.y == KeyPointRow(k)[0] && k.coordinate.x == KeyPointRow(k)[1];
  }

  /** The 17 keypoints of a detection carry 17 different body parts. */
  lemma DistinctBodyParts(output: OutputRows, i: nat, j: nat)
    requires i < j < BodyPartCount
    ensures DetectPose(Filled(output))[i].bodyPart != DetectPose(Filled(output))[j].bodyPart
  {
  }

  /** Looking a body part up in a detection finds the keypoint of that body part's row. */
  lemma {:induction false} FindDetected(output: OutputRows, part: BodyPart)
    ensures Find(DetectPose(Filled(output)), part) == Some(DetectPose(Filled(output))[BodyPartIndex(part)])
  {
    var kps := DetectPose(Filled(output));
    var i := BodyPartIndex(part);
    BodyPartFromIndex(part);
    forall j | 0 <= j < i ensures kps[j].bodyPart != part {
      DistinctBodyParts(output, j, i);
    }
    FindFirst(kps, part, i);
  }

  /** A left-shoulder row `(y = 0.3, x = 0.4, score = 0.8)` becomes the left
      shoulder at `(0.4, 0.3)` with score 0.8. */
  lemma LeftShoulderRowExample(output: OutputRows)
    requires output[5] == [0.3, 0.4, 0.8]
    ensures DetectPose(Filled(output))[5] == KeyPoint(LeftShoulder, Offset(0.4, 0.3), 0.8)
  {
    DetectedRow(output, 5);
  }
}

/** The posture heuristic of `PoseAnalyzer`: two gates on the keypoint list, two
    threshold-tiered sub-judgments (shoulder height and head offset), the rule that
    combines them, and the corrections and message shown to the user. */
module Posture {
  import opened KeyPoints

  datatype PostureQuality = Good | Fair | Poor | Unknown

  datatype PostureFeedback = PostureFeedback(quality: PostureQuality, message: string, corrections: seq<string>)

  /** Fewer keypoints than this and the list is not analysed at all. */
  const MinKeyPoints: nat := 17
  /** Fewer confident keypoints than this and the detection is judged poor. */
  const MinConfidentKeyPoints: nat := 5
  /** A deviation below this is good. */
  const GoodBound: real := 0.05
  /** A deviation below this (and not below `GoodBound`) is fair. */
  const FairBound: real := 0.1

  const NotEnoughKeyPoints := "Not enough keypoints detected"
  const PoorDetectionQuality := "Poor detection quality"
  const MoveCloser := "Move closer to camera"
  const ImproveLighting := "Improve lighting"
  const StandCloser := "Stand closer to camera"
  const FaceCamera := "Face camera directly"
  const LevelShoulders := "Level your shoulders"
  const KeepHeadStraight := "Keep your head straight"
  const GreatPosture := "Great posture! Keep it up!"

  function Abs(x: real): (r: real)
    ensures r >= 0.0 && (r == x || r == -x)
  {
    if x < 0.0 then -x else x
  }

  /** Rank of a judged quality, better first; used to say a tiering is monotone. */
  function Rank(q: PostureQuality): nat {
    match q
    case Good => 0
    case Fair => 1
    case Poor => 2
    case Unknown => 3
  }

  /** The `when` both sub-judgments share: below 0.05 good, below 0.1 fair, else poor. */
  function Tier(deviation: real): (q: PostureQuality)
    ensures q != Unknown
    ensures q == Good <==> deviation < GoodBound
    ensures q == Poor <==> deviation >= FairBound
  {
    if deviation < GoodBound then Good
    else if deviation < FairBound then Fair
    else Poor
  }

  /** A larger deviation never earns a better tier. */
  lemma TierMonotone(d1: real, d2: real)
    requires d1 <= d2
    ensures Rank(Tier(d1)) <= Rank(Tier(d2))
  {
  }

  /** A keypoint the sub-judgments may use: present, and with a score not below
      0.05. A score of exactly 0.05 is usable here although the confidence gate
      does not count it. */
  predicate Usable(k: Option<KeyPoint>) {
    k.Some? && !(k.value.score < ConfidenceThreshold)
  }

  /** `analyzeShoulderAlignment`: unknown without two usable shoulders, otherwise
      the tier of their height difference. */
  function ShoulderAlignment(leftShoulder: Option<KeyPoint>, rightShoulder: Option<KeyPoint>): (q: PostureQuality)
    ensures q == Unknown <==> !Usable(leftShoulder) || !Usable(rightShoulder)
    ensures q == Good <==> (Usable(leftShoulder) && Usable(rightShoulder) &&
      Abs(leftShoulder.value.coordinate.y - rightShoulder.value.coordinate.y) < GoodBound)
    ensures q == Poor <==> (Usable(leftShoulder) && Usable(rightShoulder) &&
      Abs(leftShoulder.value.coordinate.y - rightShoulder.value.coordinate.y) >= FairBound)
  {
    if !Usable(leftShoulder) || !Usable(rightShoulder) then Unknown
    else Tier(Abs(leftShoulder.value.coordinate.y - rightShoulder.value.coordinate.y))
  }

  /** `analyzeHeadPosition`: unknown without a usable nose and two usable
      shoulders, otherwise the tier of the nose's horizontal offset from the
      midpoint of the shoulders. */
  function HeadPosition(nose: Option<KeyPoint>, leftShoulder: Option<KeyPoint>, rightShoulder: Option<KeyPoint>): (q: PostureQuality)
    ensures q == Unknown <==> !Usable(nose) || !Usable(leftShoulder) || !Usable(rightShoulder)
    ensures q == Good <==> (Usable(nose) && Usable(leftShoulder) && Usable(rightShoulder) &&
      Abs(nose.value.coordinate.x - (leftShoulder.value.coordinate.x + rightShoulder.value.coordinate.x) / 2.0) < GoodBound)
    ensures q == Poor <==> (Usable(nose) && Usable(leftShoulder) && Usable(rightShoulder) &&
      Abs(nose.value.coordinate.x - (leftShoulder.value.coordinate.x + rightShoulder.value.coordinate.x) / 2.0) >= FairBound)
  {
    if !Usable(nose) || !Usable(leftShoulder) || !Usable(rightShoulder) then Unknown
    else
      var shoulderCenterX := (leftShoulder.value.coordinate.x + rightShoulder.value.coordinate.x) / 2.0;
      Tier(Abs(nose.value.coordinate.x - shoulderCenterX))
  }

  /** Telling the shoulders apart does not matter to either sub-judgment. */
  lemma SubJudgmentsSymmetric(nose: Option<KeyPoint>, leftShoulder: Option<KeyPoint>, rightShoulder: Option<KeyPoint>)
    ensures ShoulderAlignment(leftShoulder, rightShoulder) == ShoulderAlignment(rightShoulder, leftShoulder)
    ensures HeadPosition(nose, leftShoulder, rightShoulder) == HeadPosition(nose, rightShoulder, leftShoulder)
  {
    if Usable(leftShoulder) && Usable(rightShoulder) {
      var l, r := leftShoulder.value.coordinate, rightShoulder.value.coordinate;
      assert Abs(l.y - r.y) == Abs(r.y - l.y);
      assert (l.x + r.x) / 2.0 == (r.x + l.x) / 2.0;
    }
  }

  /** Whenever the shoulders cannot be judged, neither can the head. */
  lemma HeadNeedsShoulders(nose: Option<KeyPoint>, leftShoulder: Option<KeyPoint>, rightShoulder: Option<KeyPoint>)
    ensures ShoulderAlignment(leftShoulder, rightShoulder) == Unknown ==>
      HeadPosition(nose, leftShoulder, rightShoulder) == Unknown
  {
  }

  /** The overall quality: good only when both sub-judgments are good, poor as
      soon as one of them is poor, fair otherwise (an unknown sub-judgment
      included). */
  function Combine(shoulder: PostureQuality, head: PostureQuality): (q: PostureQuality)
    ensures q != Unknown
    ensures q == Good <==> shoulder == Good && head == Good
    ensures q == Poor <==> shoulder == Poor || head == Poor
  {
    if shoulder == Good && head == Good then Good
    else if shoulder == Poor || head == Poor then Poor
    else Fair
  }

  /** The corrections of a judged posture, in order: shoulders, then head, and
      the praise only when neither was poor. */
  function Corrections(shoulder: PostureQuality, head: PostureQuality): (r: seq<string>)
    ensures r != [] && |r| <= 2
    ensures LevelShoulders in r <==> shoulder == Poor
    ensures KeepHeadStraight in r <==> head == Poor
    ensures r == [GreatPosture] <==> shoulder != Poor && head != Poor
    ensures shoulder == Poor ==> r[0] == LevelShoulders
    ensures head == Poor ==> r[|r| - 1] == KeepHeadStraight
    ensures shoulder == Poor || head == Poor ==>
      |r| == (if shoulder == Poor then 1 else 0) + (if head == Poor then 1 else 0)
  {
    var corrections := (if shoulder == Poor then [LevelShoulders] else [])
      + (if head == Poor then [KeepHeadStraight] else []);
    if corrections == [] then [GreatPosture] else corrections
  }

  /** The message of each overall quality. */
  function Message(q: PostureQuality): string {
    match q
    case Good => "Excellent posture!"
    case Fair => "Good posture with room for improvement"
    case Poor => "Posture needs attention"
    case Unknown => "Unable to analyze posture"
  }

  /** Each quality has its own message, so the message tells the quality. */
  lemma MessageInjective(q1: PostureQuality, q2: PostureQuality)
    requires Message(q1) == Message(q2)
    ensures q1 == q2
  {
  }

  /** `analyzePosture`: the size gate, the confidence gate, then the two
      sub-judgments over the first nose and shoulders of the list. */
  function AnalyzePosture(kps: seq<KeyPoint>): (r: PostureFeedback)
    ensures r.quality == Unknown <==> |kps| < MinKeyPoints
    ensures r.corrections != []
  {
    if |kps| < MinKeyPoints then
      PostureFeedback(Unknown, NotEnoughKeyPoints, [MoveCloser, ImproveLighting])
    else if |Confident(kps)| < MinConfidentKeyPoints then
      PostureFeedback(Poor, PoorDetectionQuality, [StandCloser, FaceCamera, ImproveLighting])
    else
      var leftShoulder := Find(kps, LeftShoulder);
      var rightShoulder := Find(kps, RightShoulder);
      var shoulder := ShoulderAlignment(leftShoulder, rightShoulder);
      var head := HeadPosition(Find(kps, Nose), leftShoulder, rightShoulder);
      var overall := Combine(shoulder, head);
      PostureFeedback(overall, Message(overall), Corrections(shoulder, head))
  }

  /** The shoulder sub-judgment `AnalyzePosture` makes of a list. */
  function ShoulderJudgment(kps: seq<KeyPoint>): PostureQuality {
    ShoulderAlignment(Find(kps, LeftShoulder), Find(kps, RightShoulder))
  }

  /** The head sub-judgment `AnalyzePosture` makes of a list. */
  function HeadJudgment(kps: seq<KeyPoint>): PostureQuality {
    HeadPosition(Find(kps, Nose), Find(kps, LeftShoulder), Find(kps, RightShoulder))
  }

  /** A list with both gates passed is judged: its message comes from its
      quality alone, and the corrections name exactly the poor sub-judgments. */
  predicate Judged(kps: seq<KeyPoint>) {
    |kps| >= MinKeyPoints && |Confident(kps)| >= MinConfidentKeyPoints
  }

  /** Fewer than 17 keypoints: unknown, with the two fixed corrections. */
  lemma TooFewKeyPoints(kps: seq<KeyPoint>)
    requires |kps| < MinKeyPoints
    ensures AnalyzePosture(kps) ==
      PostureFeedback(Unknown, "Not enough keypoints detected", ["Move closer to camera", "Improve lighting"])
  {
  }

  /** Enough keypoints but fewer than 5 confident ones: poor, with the three
      fixed corrections. */
  lemma PoorDetection(kps: seq<KeyPoint>)
    requires |kps| >= MinKeyPoints && |Confident(kps)| < MinConfidentKeyPoints
    ensures AnalyzePosture(kps) == PostureFeedback(Poor, "Poor detection quality",
      ["Stand closer to camera", "Face camera directly", "Improve lighting"])
  {
  }

  /** What a judged list's feedback says: the combined quality, its message, and
      a correction for each poor sub-judgment (shoulders before head), or the
      praise alone. */
  lemma JudgedFeedback(kps: seq<KeyPoint>)
    requires Judged(kps)
    ensures AnalyzePosture(kps).quality == Combine(ShoulderJudgment(kps), HeadJudgment(kps))
    ensures AnalyzePosture(kps).message == Message(AnalyzePosture(kps).quality)
    ensures LevelShoulders in AnalyzePosture(kps).corrections <==> ShoulderJudgment(kps) == Poor
    ensures KeepHeadStraight in AnalyzePosture(kps).corrections <==> HeadJudgment(kps) == Poor
    ensures AnalyzePosture(kps).corrections == [GreatPosture] <==> AnalyzePosture(kps).quality != Poor
  {
  }

  /** The poor-detection message appears exactly when the confidence gate fails. */
  lemma PoorDetectionMessage(kps: seq<KeyPoint>)
    ensures AnalyzePosture(kps).message == PoorDetectionQuality <==>
      |kps| >= MinKeyPoints && |Confident(kps)| < MinConfidentKeyPoints
  {
    var r := AnalyzePosture(kps);
    if Judged(kps) {
      var m := r.message;
      assert m == Message(r.quality);
      assert m[0] != PoorDetectionQuality[0] || m[1] != PoorDetectionQuality[1] || |m| != |PoorDetectionQuality|;
    } else if |kps| < MinKeyPoints {
      assert r.message[0] != PoorDetectionQuality[0];
    }
  }

  /** Only a judged list can be good, and a judged list is good exactly when
      both sub-judgments are. */
  lemma GoodPosture(kps: seq<KeyPoint>)
    ensures AnalyzePosture(kps).quality == Good <==>
      Judged(kps) && ShoulderJudgment(kps) == Good && HeadJudgment(kps) == Good
  {
  }

  /** A judged list whose first left or right shoulder is missing or scores below
      0.05 cannot be poor: both sub-judgments are unknown, so the result is fair
      and the user is praised. */
  lemma UnusableShouldersGiveFair(kps: seq<KeyPoint>)
    requires Judged(kps)
    requires !Usable(Find(kps, LeftShoulder)) || !Usable(Find(kps, RightShoulder))
    ensures AnalyzePosture(kps) ==
      PostureFeedback(Fair, "Good posture with room for improvement", ["Great posture! Keep it up!"])
  {
    HeadNeedsShoulders(Find(kps, Nose), Find(kps, LeftShoulder), Find(kps, RightShoulder));
  }

  /** A score of exactly 0.05 is usable by the sub-judgments but not confident. */
  lemma ThresholdScoreUsableNotConfident(k: KeyPoint)
    requires k.score == 0.05
    ensures Usable(Some(k)) && !IsConfident(k)
  {
  }

  /** The boundary cases: shoulders at heights 0.50 and 0.549 are good, 0.50 and
      0.551 fair, 0.50 and 0.61 poor; with shoulders at x = 0.40 and 0.60, a nose
      at x = 0.549 is good and one at x = 0.61 poor. */
  lemma BoundaryExamples(score: real)
    requires score >= ConfidenceThreshold
    ensures var l := Some(KeyPoint(LeftShoulder, Offset(0.4, 0.50), score));
      && ShoulderAlignment(l, Some(KeyPoint(RightShoulder, Offset(0.6, 0.549), score))) == Good
      && ShoulderAlignment(l, Some(KeyPoint(RightShoulder, Offset(0.6, 0.551), score))) == Fair
      && ShoulderAlignment(l, Some(KeyPoint(RightShoulder, Offset(0.6, 0.61), score))) == Poor
    ensures var l, r := Some(KeyPoint(LeftShoulder, Offset(0.4, 0.5), score)), Some(KeyPoint(RightShoulder, Offset(0.6, 0.5), score));
      && HeadPosition(Some(KeyPoint(Nose, Offset(0.549, 0.2), score)), l, r) == Good
      && HeadPosition(Some(KeyPoint(Nose, Offset(0.61, 0.2), score)), l, r) == Poor
  {
  }
}

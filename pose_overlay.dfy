/** The decisions `PoseOverlay` takes before it draws: the colour of each
    keypoint, the detection status and its colour, which skeleton edges are
    drawn, and the background colour of the feedback box. Drawing is not modelled. */
module PoseOverlay {
  import opened KeyPoints
  import opened Posture

  datatype Color = Green | Yellow | Red | Gray

  /** Scores above this, and not confident, are drawn yellow. */
  const WeakThreshold: real := 0.02
  /** Both ends of an edge need a score above this for the edge to be drawn. */
  const LineThreshold: real := 0.3

  /** The colour of a keypoint's dot: the three tiers cover every score once. */
  function KeyPointColor(score: real): (c: Color)
    ensures c == Green <==> score > ConfidenceThreshold
    ensures c == Yellow <==> WeakThreshold < score <= ConfidenceThreshold
    ensures c == Red <==> score <= WeakThreshold
  {
    if score > ConfidenceThreshold then Green
    else if score > WeakThreshold then Yellow
    else Red
  }

  /** The dots drawn green are exactly the keypoints the analyzer counts as confident. */
  lemma GreenIsConfident(kps: seq<KeyPoint>, k: KeyPoint)
    requires k in kps
    ensures KeyPointColor(k.score) == Green <==> k in Confident(kps)
  {
  }

  datatype DetectionStatus = GoodDetection | PartialDetection | PoorDetection | NoDetection

  /** The status tier of `confident` confident keypoints: 10 or more good, 5 or
      more partial, at least one poor, none no detection. */
  function StatusOf(confident: nat): (s: DetectionStatus)
    ensures s == GoodDetection <==> confident >= 10
    ensures s == PartialDetection <==> 5 <= confident < 10
    ensures s == PoorDetection <==> 0 < confident < 5
    ensures s == NoDetection <==> confident == 0
  {
    if confident >= 10 then GoodDetection
    else if confident >= 5 then PartialDetection
    else if confident > 0 then PoorDetection
    else NoDetection
  }

  /** The status line shown for each tier. */
  function StatusLabel(s: DetectionStatus): string {
    match s
    case GoodDetection => "\U{2705} Good Detection"
    case PartialDetection => "\U{26A0}\U{FE0F} Partial Detection"
    case PoorDetection => "\U{274C} Poor Detection"
    case NoDetection => "\U{274C} No Detection"
  }

  /** Each tier has its own status line. */
  lemma StatusLabelInjective(s1: DetectionStatus, s2: DetectionStatus)
    ensures StatusLabel(s1) == StatusLabel(s2) <==> s1 == s2
  {
  }

  /** The colour of the status line, decided on the count by its own `when`. */
  function StatusColor(confident: nat): Color {
    if confident >= 10 then Green
    else if confident >= 5 then Yellow
    else Red
  }

  /** The status colour agrees with the status tier: green for good, yellow for
      partial, red for poor and for no detection. */
  lemma StatusColorAgrees(confident: nat)
    ensures StatusColor(confident) == Green <==> StatusOf(confident) == GoodDetection
    ensures StatusColor(confident) == Yellow <==> StatusOf(confident) == PartialDetection
    ensures StatusColor(confident) == Red <==>
      StatusOf(confident) == PoorDetection || StatusOf(confident) == NoDetection
  {
  }

  /** The status of a keypoint list, from its confident keypoints. */
  function DetectionStatusOf(kps: seq<KeyPoint>): DetectionStatus {
    StatusOf(|Confident(kps)|)
  }

  /** On a list the analyzer does not reject for size, the overlay shows a poor
      or no detection exactly when the analyzer reports poor detection quality. */
  lemma StatusAgreesWithAnalyzer(kps: seq<KeyPoint>)
    requires |kps| >= MinKeyPoints
    ensures (DetectionStatusOf(kps) == PoorDetection || DetectionStatusOf(kps) == NoDetection) <==>
      AnalyzePosture(kps).message == PoorDetectionQuality
  {
    PoorDetectionMessage(kps);
  }

  /** `drawLineBetween`'s gate: both parts found, and both scoring above 0.3. */
  predicate DrawsLine(kps: seq<KeyPoint>, partA: BodyPart, partB: BodyPart) {
    var a, b := Find(kps, partA), Find(kps, partB);
    a.Some? && b.Some? && a.value.score > LineThreshold && b.value.score > LineThreshold
  }

  /** A drawn edge joins two keypoints of the list with the two parts, both
      scoring above 0.3; and the first keypoint of a part decides, so a confident
      later duplicate does not rescue a weak first one. */
  lemma DrawnLineEnds(kps: seq<KeyPoint>, partA: BodyPart, partB: BodyPart)
    ensures DrawsLine(kps, partA, partB) == DrawsLine(kps, partB, partA)
    ensures DrawsLine(kps, partA, partB) ==>
      exists a, b :: a in kps && b in kps && a.bodyPart == partA && b.bodyPart == partB &&
        a.score > LineThreshold && b.score > LineThreshold
    ensures (exists i :: 0 <= i < |kps| && FirstOf(kps, partA, i) && kps[i].score <= LineThreshold) ==>
      !DrawsLine(kps, partA, partB)
    ensures (exists i :: 0 <= i < |kps| && FirstOf(kps, partB, i) && kps[i].score <= LineThreshold) ==>
      !DrawsLine(kps, partA, partB)
  {
    if DrawsLine(kps, partA, partB) {
      var a, b := Find(kps, partA).value, Find(kps, partB).value;
      assert a in kps && b in kps && a.bodyPart == partA && b.bodyPart == partB;
    }
    if i :| 0 <= i < |kps| && FirstOf(kps, partA, i) && kps[i].score <= LineThreshold {
      FindFirst(kps, partA, i);
    }
    if i :| 0 <= i < |kps| && FirstOf(kps, partB, i) && kps[i].score <= LineThreshold {
      FindFirst(kps, partB, i);
    }
  }

  /** The ten skeleton edges, in drawing order. */
  const SkeletonEdges: seq<(BodyPart, BodyPart)> := [
    (LeftShoulder, RightShoulder), (LeftHip, RightHip),
    (LeftShoulder, LeftElbow), (LeftElbow, LeftWrist),
    (RightShoulder, RightElbow), (RightElbow, RightWrist),
    (LeftHip, LeftKnee), (LeftKnee, LeftAnkle),
    (RightHip, RightKnee), (RightKnee, RightAnkle)
  ]

  /** The edges of `edges` whose gate passes, in order. */
  function GatedEdges(kps: seq<KeyPoint>, edges: seq<(BodyPart, BodyPart)>): (r: seq<(BodyPart, BodyPart)>)
    ensures |r| <= |edges|
    ensures forall e :: e in r <==> e in edges && DrawsLine(kps, e.0, e.1)
    ensures forall e :: multiset(r)[e] <= multiset(edges)[e]
  {
    if edges == [] then []
    else
      var rest := GatedEdges(kps, edges[1..]);
      assert edges == [edges[0]] + edges[1..];
      if DrawsLine(kps, edges[0].0, edges[0].1) then [edges[0]] + rest else rest
  }

  /** Gating keeps the order: the gated edges of a concatenation are the gated
      edges of each part, one after the other. */
  lemma {:induction false} GatedEdgesAppend(kps: seq<KeyPoint>, e1: seq<(BodyPart, BodyPart)>, e2: seq<(BodyPart, BodyPart)>)
    ensures GatedEdges(kps, e1 + e2) == GatedEdges(kps, e1) + GatedEdges(kps, e2)
  {
    if e1 == [] {
      assert e1 + e2 == e2;
    } else {
      assert (e1 + e2)[0] == e1[0] && (e1 + e2)[1..] == e1[1..] + e2;
      GatedEdgesAppend(kps, e1[1..], e2);
    }
  }

  /** One candidate edge is kept exactly when its gate passes. */
  lemma GatedEdgesSingleton(kps: seq<KeyPoint>, e: (BodyPart, BodyPart))
    ensures GatedEdges(kps, [e]) == if DrawsLine(kps, e.0, e.1) then [e] else []
  {
  }

  /** No element of `xs` occurs twice. */
  predicate NoRepeats<T(==)>(xs: seq<T>) {
    xs == [] || (xs[0] !in xs[1..] && NoRepeats(xs[1..]))
  }

  /** A list without repeats holds each element at most once. */
  lemma {:induction false} NoRepeatsOnce<T>(xs: seq<T>, x: T)
    requires NoRepeats(xs)
    ensures multiset(xs)[x] <= 1
  {
    if xs != [] {
      assert xs == [xs[0]] + xs[1..];
      NoRepeatsOnce(xs[1..], x);
    }
  }

  /** Putting a new element in front keeps a list free of repeats. */
  lemma NoRepeatsCons<T>(x: T, xs: seq<T>)
    requires x !in xs && NoRepeats(xs)
    ensures NoRepeats([x] + xs)
  {
    assert ([x] + xs)[1..] == xs;
  }

  /** The ten skeleton edges are pairwise different. */
  lemma SkeletonEdgesNoRepeats()
    ensures NoRepeats(SkeletonEdges)
  {
    var es: seq<(BodyPart, BodyPart)> := [];
    NoRepeatsCons((RightKnee, RightAnkle), es);
    es := [(RightKnee, RightAnkle)] + es;
    NoRepeatsCons((RightHip, RightKnee), es);
    es := [(RightHip, RightKnee)] + es;
    NoRepeatsCons((LeftKnee, LeftAnkle), es);
    es := [(LeftKnee, LeftAnkle)] + es;
    NoRepeatsCons((LeftHip, LeftKnee), es);
    es := [(LeftHip, LeftKnee)] + es;
    NoRepeatsCons((RightElbow, RightWrist), es);
    es := [(RightElbow, RightWrist)] + es;
    NoRepeatsCons((RightShoulder, RightElbow), es);
    es := [(RightShoulder, RightElbow)] + es;
    NoRepeatsCons((LeftElbow, LeftWrist), es);
    es := [(LeftElbow, LeftWrist)] + es;
    NoRepeatsCons((LeftShoulder, LeftElbow), es);
    es := [(LeftShoulder, LeftElbow)] + es;
    NoRepeatsCons((LeftHip, RightHip), es);
    es := [(LeftHip, RightHip)] + es;
    NoRepeatsCons((LeftShoulder, RightShoulder), es);
    es := [(LeftShoulder, RightShoulder)] + es;
    assert es == SkeletonEdges;
  }

  /** The lines the canvas draws: none unless `drawLines` is set, then exactly the
      skeleton edges whose gate passes. */
  function DrawnEdges(kps: seq<KeyPoint>, drawLines: bool): (r: seq<(BodyPart, BodyPart)>)
    ensures |r| <= 10
    ensures !drawLines ==> r == []
    ensures forall e :: e in r <==> drawLines && e in SkeletonEdges && DrawsLine(kps, e.0, e.1)
    ensures forall e :: multiset(r)[e] <= 1
  {
    SkeletonEdgesNoRepeats();
    forall e ensures multiset(SkeletonEdges)[e] <= 1 {
      NoRepeatsOnce(SkeletonEdges, e);
    }
    if drawLines then GatedEdges(kps, SkeletonEdges) else []
  }

  /** The background of the feedback box for each quality (drawn at 80% opacity). */
  function FeedbackColor(q: PostureQuality): Color {
    match q
    case Good => Green
    case Fair => Yellow
    case Poor => Red
    case Unknown => Gray
  }

  /** Each quality has its own background, and gray means unknown. */
  lemma FeedbackColorInjective(q1: PostureQuality, q2: PostureQuality)
    ensures FeedbackColor(q1) == FeedbackColor(q2) <==> q1 == q2
    ensures FeedbackColor(q1) == Gray <==> q1 == Unknown
  {
  }
}

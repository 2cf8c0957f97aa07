/** Body parts and keypoints, and the two list queries (`find` by body part,
    `filter` by confidence) that the posture analyzer and the overlay share. */
module KeyPoints {

  datatype Option<T> = None | Some(value: T)

  /** The 17 body parts of the single-pose model, in the order of its output rows. */
  datatype BodyPart =
    | Nose | LeftEye | RightEye | LeftEar | RightEar
    | LeftShoulder | RightShoulder | LeftElbow | RightElbow
    | LeftWrist | RightWrist | LeftHip | RightHip
    | LeftKnee | RightKnee | LeftAnkle | RightAnkle

  /** Number of rows the model writes, one per body part. */
  const BodyPartCount: nat := 17

  /** Row of the model's output that holds a body part. */
  function BodyPartIndex(p: BodyPart): (i: nat)
    ensures i < BodyPartCount
  {
    match p
    case Nose => 0
    case LeftEye => 1
    case RightEye => 2
    case LeftEar => 3
    case RightEar => 4
    case LeftShoulder => 5
    case RightShoulder => 6
    case LeftElbow => 7
    case RightElbow => 8
    case LeftWrist => 9
    case RightWrist => 10
    case LeftHip => 11
    case RightHip => 12
    case LeftKnee => 13
    case RightKnee => 14
    case LeftAnkle => 15
    case RightAnkle => 16
  }

  /** `BodyPart.from(i)`: the body part of output row `i`. Its contract says
      that `BodyPartIndex` undoes it, so rows map to body parts one to one. */
  function BodyPartFrom(i: nat): (p: BodyPart)
    requires i < BodyPartCount
    ensures BodyPartIndex(p) == i
  {
    if i == 0 then Nose
    else if i == 1 then LeftEye
    else if i == 2 then RightEye
    else if i == 3 then LeftEar
    else if i == 4 then RightEar
    else if i == 5 then LeftShoulder
    else if i == 6 then RightShoulder
    else if i == 7 then LeftElbow
    else if i == 8 then RightElbow
    else if i == 9 then LeftWrist
    else if i == 10 then RightWrist
    else if i == 11 then LeftHip
    else if i == 12 then RightHip
    else if i == 13 then LeftKnee
    else if i == 14 then RightKnee
    else if i == 15 then LeftAnkle
    else RightAnkle
  }

  /** Every body part is the body part of exactly one row. */
  lemma BodyPartFromIndex(p: BodyPart)
    ensures BodyPartFrom(BodyPartIndex(p)) == p
  {
  }

  /** A normalised image coordinate. */
  datatype Offset = Offset(x: real, y: real)

  /** One detected landmark: which body part, where, and how confident the model is. */
  datatype KeyPoint = KeyPoint(bodyPart: BodyPart, coordinate: Offset, score: real)

  /** Scores above this count as a confident detection. */
  const ConfidenceThreshold: real := 0.05

  predicate IsConfident(k: KeyPoint) {
    k.score > ConfidenceThreshold
  }

  /** The positions of `kps` that hold a confident keypoint. */
  ghost function ConfidentPositions(kps: seq<KeyPoint>): set<nat> {
    set i: nat | i < |kps| && IsConfident(kps[i])
  }

  /** Every position of `s`, one place to the right. */
  ghost function Shifted(s: set<nat>): set<nat> {
    set i | i in s :: i + 1
  }

  /** Moving every position one place to the right keeps their number. */
  lemma {:induction false} ShiftedCardinality(s: set<nat>)
    ensures |Shifted(s)| == |s|
  {
    if s != {} {
      var x :| x in s;
      var rest := s - {x};
      ShiftedCardinality(rest);
      forall y | y in Shifted(s) ensures y in Shifted(rest) + {x + 1} {
        var i :| i in s && y == i + 1;
        if i != x {
          assert i in rest;
        }
      }
      forall y | y in Shifted(rest) ensures y in Shifted(s) && y != x + 1 {
        var i :| i in rest && y == i + 1;
        assert i in s;
      }
      assert Shifted(s) == Shifted(rest) + {x + 1};
    }
  }

  /** The confident positions of a non-empty list: the head's, if it is
      confident, and the tail's, one place to the right. */
  lemma ConfidentPositionsCons(kps: seq<KeyPoint>)
    requires kps != []
    ensures |ConfidentPositions(kps)| ==
      (if IsConfident(kps[0]) then 1 else 0) + |ConfidentPositions(kps[1..])|
  {
    var tail := ConfidentPositions(kps[1..]);
    assert ConfidentPositions(kps) == (if IsConfident(kps[0]) then {0} else {}) + Shifted(tail) by {
      forall i: nat | i in ConfidentPositions(kps) && i > 0 ensures i in Shifted(tail) {
        assert i - 1 in tail;
      }
    }
    ShiftedCardinality(tail);
  }

  /** `keypoints.filter { it.score > 0.05f }`: the confident keypoints, in order.
      Its length is the number of positions holding a confident keypoint. */
  function Confident(kps: seq<KeyPoint>): (r: seq<KeyPoint>)
    ensures |r| == |ConfidentPositions(kps)| <= |kps|
    ensures forall k :: k in r <==> k in kps && IsConfident(k)
    ensures |r| == |kps| <==> forall i :: 0 <= i < |kps| ==> IsConfident(kps[i])
  {
    if kps == [] then []
    else
      ConfidentPositionsCons(kps);
      if IsConfident(kps[0]) then [kps[0]] + Confident(kps[1..])
      else Confident(kps[1..])
  }

  /** Filtering keeps the order: the filter of a concatenation is the
      concatenation of the filters. With the filter of one keypoint (itself when
      confident, nothing otherwise) this determines `Confident` on every list. */
  lemma {:induction false} ConfidentAppend(a: seq<KeyPoint>, b: seq<KeyPoint>)
    ensures Confident(a + b) == Confident(a) + Confident(b)
  {
    if a == [] {
      assert a + b == b;
    } else {
      assert (a + b)[0] == a[0] && (a + b)[1..] == a[1..] + b;
      ConfidentAppend(a[1..], b);
    }
  }

  /** The filter of a single keypoint. */
  lemma ConfidentSingleton(k: KeyPoint)
    ensures Confident([k]) == if IsConfident(k) then [k] else []
  {
  }

  /** `keypoints.find { it.bodyPart == part }`: the first keypoint of that part,
      or nothing when no keypoint has it. */
  function Find(kps: seq<KeyPoint>, part: BodyPart): (r: Option<KeyPoint>)
    ensures r.None? <==> forall i :: 0 <= i < |kps| ==> kps[i].bodyPart != part
    ensures r.Some? ==> r.value in kps && r.value.bodyPart == part
  {
    if kps == [] then None
    else if kps[0].bodyPart == part then Some(kps[0])
    else Find(kps[1..], part)
  }

  /** Position `i` holds the first keypoint of `part`. */
  predicate FirstOf(kps: seq<KeyPoint>, part: BodyPart, i: nat)
    requires i < |kps|
  {
    kps[i].bodyPart == part && forall j :: 0 <= j < i ==> kps[j].bodyPart != part
  }

  /** When position `i` holds the first keypoint of `part`, `Find` returns exactly it. */
  lemma {:induction false} FindFirst(kps: seq<KeyPoint>, part: BodyPart, i: nat)
    requires i < |kps| && FirstOf(kps, part, i)
    ensures Find(kps, part) == Some(kps[i])
  {
    if i > 0 {
      assert kps[0].bodyPart != part;
      FindFirst(kps[1..], part, i - 1);
    }
  }
}

/** `PoseViewModel`: three observable single-slot cells (the detection state, the
    keypoints, the posture feedback), each overwritten by its setters. Subscribers
    see only the latest value of a cell, so a cell is modelled by that value. */
module PoseViewModel {
  import opened KeyPoints
  import opened Posture

  datatype PoseDetectionState = Loading | Success(keypoints: seq<KeyPoint>) | Error(message: string)

  /** What the three cells hold at one moment. */
  datatype Cells = Cells(state: PoseDetectionState, keypoints: seq<KeyPoint>, postureFeedback: Option<PostureFeedback>)

  /** The four setters, as writes to the cells. */
  datatype Write =
    | WriteKeypoints(newPoints: seq<KeyPoint>)
    | WriteFeedback(feedback: PostureFeedback)
    | WriteError(message: string)
    | WriteLoading

  /** The cells of a new view model. */
  const Initial := Cells(Loading, [], None)

  /** The cells after one setter call: the written cells take the new value, the
      others keep theirs. */
  function Apply(c: Cells, w: Write): Cells {
    match w
    case WriteKeypoints(p) => c.(state := Success(p), keypoints := p)
    case WriteFeedback(f) => c.(postureFeedback := Some(f))
    case WriteError(m) => c.(state := Error(m))
    case WriteLoading => c.(state := Loading)
  }

  /** The cells after a sequence of setter calls on a new view model. */
  function Replay(ws: seq<Write>): Cells {
    if ws == [] then Initial else Apply(Replay(ws[..|ws| - 1]), ws[|ws| - 1])
  }

  /** Replaying one more write is applying it to what was there. */
  lemma ReplaySnoc(ws: seq<Write>, w: Write)
    ensures Replay(ws + [w]) == Apply(Replay(ws), w)
  {
    assert (ws + [w])[..|ws + [w]| - 1] == ws;
  }

  /** Whether a write sets the state cell. */
  predicate WritesState(w: Write) {
    !w.WriteFeedback?
  }

  /** The state cell holds the state of the last write that set it: writes
      replace, nothing accumulates, and the other cells' writes do not matter. */
  lemma {:induction false} LastStateWins(ws: seq<Write>, w: Write, rest: seq<Write>)
    requires WritesState(w)
    requires forall i :: 0 <= i < |rest| ==> !WritesState(rest[i])
    ensures Replay(ws + [w] + rest).state == Apply(Replay(ws), w).state
  {
    if rest == [] {
      ReplaySnoc(ws, w);
    } else {
      var init := rest[..|rest| - 1];
      assert ws + [w] + rest == (ws + [w] + init) + [rest[|rest| - 1]];
      ReplaySnoc(ws + [w] + init, rest[|rest| - 1]);
      LastStateWins(ws, w, init);
    }
  }

  /** The keypoints cell holds the points of the last `updateKeypoints`. */
  lemma {:induction false} LastKeypointsWin(ws: seq<Write>, p: seq<KeyPoint>, rest: seq<Write>)
    requires forall i :: 0 <= i < |rest| ==> !rest[i].WriteKeypoints?
    ensures Replay(ws + [WriteKeypoints(p)] + rest).keypoints == p
  {
    if rest == [] {
      ReplaySnoc(ws, WriteKeypoints(p));
    } else {
      var init := rest[..|rest| - 1];
      assert ws + [WriteKeypoints(p)] + rest == (ws + [WriteKeypoints(p)] + init) + [rest[|rest| - 1]];
      ReplaySnoc(ws + [WriteKeypoints(p)] + init, rest[|rest| - 1]);
      LastKeypointsWin(ws, p, init);
    }
  }

  /** The feedback cell holds the feedback of the last `updatePostureFeedback`. */
  lemma {:induction false} LastFeedbackWins(ws: seq<Write>, f: PostureFeedback, rest: seq<Write>)
    requires forall i :: 0 <= i < |rest| ==> !rest[i].WriteFeedback?
    ensures Replay(ws + [WriteFeedback(f)] + rest).postureFeedback == Some(f)
  {
    if rest == [] {
      ReplaySnoc(ws, WriteFeedback(f));
    } else {
      var init := rest[..|rest| - 1];
      assert ws + [WriteFeedback(f)] + rest == (ws + [WriteFeedback(f)] + init) + [rest[|rest| - 1]];
      ReplaySnoc(ws + [WriteFeedback(f)] + init, rest[|rest| - 1]);
      LastFeedbackWins(ws, f, init);
    }
  }

  /** The keypoints cell and the state can disagree: after `setError` the state
      is an error while the keypoints cell still holds the last points. */
  lemma ErrorKeepsKeypoints(p: seq<KeyPoint>, m: string)
    ensures Replay([WriteKeypoints(p), WriteError(m)]) == Cells(Error(m), p, None)
  {
    ReplaySnoc([WriteKeypoints(p)], WriteError(m));
    ReplaySnoc([], WriteKeypoints(p));
  }

  class PoseViewModel {
    var state: PoseDetectionState
    var keypoints: seq<KeyPoint>
    var postureFeedback: Option<PostureFeedback>

    /** The three cells of this view model. */
    function Snapshot(): Cells
      reads this
    {
      Cells(state, keypoints, postureFeedback)
    }

    /** Loading, no keypoints, no feedback. */
    constructor ()
      ensures state == Loading && keypoints == [] && postureFeedback == None
      ensures Snapshot() == Replay([])
    {
      state := Loading;
      keypoints := [];
      postureFeedback := None;
    }

    /** `updateKeypoints`: the state becomes a success carrying the points, the
        keypoints cell the points; the feedback is left alone. */
    method UpdateKeypoints(newPoints: seq<KeyPoint>)
      modifies this
      ensures state == Success(newPoints) && keypoints == newPoints
      ensures postureFeedback == old(postureFeedback)
      ensures Snapshot() == Apply(old(Snapshot()), WriteKeypoints(newPoints))
    {
      state := Success(newPoints);
      keypoints := newPoints;
    }

    /** `updatePostureFeedback`: only the feedback cell changes. */
    method UpdatePostureFeedback(feedback: PostureFeedback)
      modifies this
      ensures postureFeedback == Some(feedback)
      ensures state == old(state) && keypoints == old(keypoints)
      ensures Snapshot() == Apply(old(Snapshot()), WriteFeedback(feedback))
    {
      postureFeedback := Some(feedback);
    }

    /** `setError`: only the state changes, to an error with the message. */
    method SetError(message: string)
      modifies this
      ensures state == Error(message)
      ensures keypoints == old(keypoints) && postureFeedback == old(postureFeedback)
      ensures Snapshot() == Apply(old(Snapshot()), WriteError(message))
    {
      state := Error(message);
    }

    /** `setLoading`: only the state changes, back to loading. */
    method SetLoading()
      modifies this
      ensures state == Loading
      ensures keypoints == old(keypoints) && postureFeedback == old(postureFeedback)
      ensures Snapshot() == Apply(old(Snapshot()), WriteLoading)
    {
      state := Loading;
    }
  }
}

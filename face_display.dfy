/** The live face overlay (src/components/FaceDisplay.tsx): the bouncing
    scan line shown while no face is found, the box, colour, label and
    feature dots drawn for each detected face, the five landmarks sent to
    the scoring service, and the status, score and "no face" banner that
    follow each detector result and each scoring response. */
module FaceOverlay {
  import opened Wrappers
  import opened Text

  // ---------------------------------------------------------------------
  // Scan line
  // ---------------------------------------------------------------------

  datatype Direction = Down | Up

  /** Position of the horizontal scan line, in canvas pixels, and where it
      is heading. */
  datatype ScanLine = ScanLine(position: int, direction: Direction)

  /** Pixels the line moves per drawn frame. */
  const ScanSpeed: int := 2

  /** One frame of the scan line on a canvas `canvasHeight` pixels tall:
      move by the speed, and turn round once an edge is reached. */
  function ScanStep(s: ScanLine, canvasHeight: int): (r: ScanLine)
    ensures s.direction == Down ==> r.position == s.position + ScanSpeed
    ensures s.direction == Up ==> r.position == s.position - ScanSpeed
    ensures s.direction == Down ==> (r.direction == Up <==> r.position >= canvasHeight)
    ensures s.direction == Up ==> (r.direction == Down <==> r.position <= 0)
  {
    if s.direction == Down then
      var p := s.position + ScanSpeed;
      ScanLine(p, if p >= canvasHeight then Up else Down)
    else
      var p := s.position - ScanSpeed;
      ScanLine(p, if p <= 0 then Down else Up)
  }

  /** `n` consecutive frames on a canvas of fixed height. */
  function ScanSteps(s: ScanLine, canvasHeight: int, n: nat): ScanLine
    decreases n
  {
    if n == 0 then s else ScanSteps(ScanStep(s, canvasHeight), canvasHeight, n - 1)
  }

  /** Where the line can be in each direction: overshooting one step past
      the edge it has just turned at, never further. */
  predicate ScanInBand(s: ScanLine, canvasHeight: int)
  {
    match s.direction
    case Down => -ScanSpeed <= s.position <= canvasHeight
    case Up => 0 <= s.position <= canvasHeight + ScanSpeed
  }

  lemma ScanStepKeepsBand(s: ScanLine, canvasHeight: nat)
    requires ScanInBand(s, canvasHeight)
    ensures ScanInBand(ScanStep(s, canvasHeight), canvasHeight)
  {
  }

  /** Started anywhere on a canvas of fixed height, the line never leaves
      the canvas by more than one step, however many frames are drawn. */
  lemma {:induction false} ScanStaysNearCanvas(s: ScanLine, canvasHeight: nat, n: nat)
    requires 0 <= s.position <= canvasHeight
    ensures -ScanSpeed <= ScanSteps(s, canvasHeight, n).position <= canvasHeight + ScanSpeed
  {
    ScanBandForever(s, canvasHeight, n);
  }

  lemma {:induction false} ScanBandForever(s: ScanLine, canvasHeight: nat, n: nat)
    requires ScanInBand(s, canvasHeight)
    ensures ScanInBand(ScanSteps(s, canvasHeight, n), canvasHeight)
    decreases n
  {
    if n > 0 {
      ScanStepKeepsBand(s, canvasHeight);
      ScanBandForever(ScanStep(s, canvasHeight), canvasHeight, n - 1);
    }
  }

  // ---------------------------------------------------------------------
  // Landmarks, box, colour and label
  // ---------------------------------------------------------------------

  /** A face-mesh landmark, with coordinates relative to the frame. */
  datatype Landmark = Landmark(x: real, y: real)

  /** A rectangle in canvas pixels. */
  datatype Box = Box(x: real, y: real, width: real, height: real)

  /** `Math.min` of a non-empty list. */
  function MinOf(xs: seq<real>): real
    requires |xs| > 0
  {
    if |xs| == 1 then xs[0]
    else
      var rest := MinOf(xs[1..]);
      if xs[0] <= rest then xs[0] else rest
  }

  /** `Math.max` of a non-empty list. */
  function MaxOf(xs: seq<real>): real
    requires |xs| > 0
  {
    if |xs| == 1 then xs[0]
    else
      var rest := MaxOf(xs[1..]);
      if xs[0] >= rest then xs[0] else rest
  }

  /** The minimum is one of the values and no value is below it. */
  lemma {:induction false} MinOfIsLeast(xs: seq<real>)
    requires |xs| > 0
    ensures MinOf(xs) in xs
    ensures forall x :: x in xs ==> MinOf(xs) <= x
  {
    if |xs| > 1 {
      MinOfIsLeast(xs[1..]);
      assert forall x :: x in xs ==> x == xs[0] || x in xs[1..];
    }
  }

  /** The maximum is one of the values and no value is above it. */
  lemma {:induction false} MaxOfIsGreatest(xs: seq<real>)
    requires |xs| > 0
    ensures MaxOf(xs) in xs
    ensures forall x :: x in xs ==> x <= MaxOf(xs)
  {
    if |xs| > 1 {
      MaxOfIsGreatest(xs[1..]);
      assert forall x :: x in xs ==> x == xs[0] || x in xs[1..];
    }
  }

  function ScaledXs(face: seq<Landmark>, canvasWidth: real): seq<real>
  {
    seq(|face|, i requires 0 <= i < |face| => face[i].x * canvasWidth)
  }

  function ScaledYs(face: seq<Landmark>, canvasHeight: real): seq<real>
  {
    seq(|face|, i requires 0 <= i < |face| => face[i].y * canvasHeight)
  }

  /** The rectangle drawn round a face: from the smallest to the largest
      scaled coordinate on each axis. An empty landmark list has no box
      (its extents would be infinite). */
  function FaceBox(face: seq<Landmark>, canvasWidth: real, canvasHeight: real): (r: Option<Box>)
    ensures r.None? <==> |face| == 0
  {
    if |face| == 0 then None
    else
      var xs, ys := ScaledXs(face, canvasWidth), ScaledYs(face, canvasHeight);
      var minX, minY := MinOf(xs), MinOf(ys);
      Some(Box(minX, minY, MaxOf(xs) - minX, MaxOf(ys) - minY))
  }

  /** The box has no negative side, holds every scaled landmark, and
      touches one on each of its four edges. */
  lemma FaceBoxBounds(face: seq<Landmark>, canvasWidth: real, canvasHeight: real)
    requires |face| > 0
    ensures var b := FaceBox(face, canvasWidth, canvasHeight).value;
            && b.width >= 0.0 && b.height >= 0.0
            && (forall i :: 0 <= i < |face| ==>
                  b.x <= face[i].x * canvasWidth <= b.x + b.width
                  && b.y <= face[i].y * canvasHeight <= b.y + b.height)
            && (exists i :: 0 <= i < |face| && face[i].x * canvasWidth == b.x)
            && (exists i :: 0 <= i < |face| && face[i].x * canvasWidth == b.x + b.width)
            && (exists i :: 0 <= i < |face| && face[i].y * canvasHeight == b.y)
            && (exists i :: 0 <= i < |face| && face[i].y * canvasHeight == b.y + b.height)
  {
    var xs, ys := ScaledXs(face, canvasWidth), ScaledYs(face, canvasHeight);
    assert FaceBox(face, canvasWidth, canvasHeight).value
        == Box(MinOf(xs), MinOf(ys), MaxOf(xs) - MinOf(xs), MaxOf(ys) - MinOf(ys));
    HorizontalSpan(face, canvasWidth);
    VerticalSpan(face, canvasHeight);
  }

  lemma HorizontalSpan(face: seq<Landmark>, canvasWidth: real)
    requires |face| > 0
    ensures var xs := ScaledXs(face, canvasWidth);
            && (forall i :: 0 <= i < |face| ==> MinOf(xs) <= face[i].x * canvasWidth <= MaxOf(xs))
            && (exists i :: 0 <= i < |face| && face[i].x * canvasWidth == MinOf(xs))
            && (exists i :: 0 <= i < |face| && face[i].x * canvasWidth == MaxOf(xs))
  {
    var xs := ScaledXs(face, canvasWidth);
    Span(xs);
    assert forall i :: 0 <= i < |face| ==> xs[i] == face[i].x * canvasWidth;
  }

  lemma VerticalSpan(face: seq<Landmark>, canvasHeight: real)
    requires |face| > 0
    ensures var ys := ScaledYs(face, canvasHeight);
            && (forall i :: 0 <= i < |face| ==> MinOf(ys) <= face[i].y * canvasHeight <= MaxOf(ys))
            && (exists i :: 0 <= i < |face| && face[i].y * canvasHeight == MinOf(ys))
            && (exists i :: 0 <= i < |face| && face[i].y * canvasHeight == MaxOf(ys))
  {
    var ys := ScaledYs(face, canvasHeight);
    Span(ys);
    assert forall i :: 0 <= i < |face| ==> ys[i] == face[i].y * canvasHeight;
  }

  /** Every value lies between the minimum and the maximum, and both are
      attained, stated by position. */
  lemma Span(xs: seq<real>)
    requires |xs| > 0
    ensures forall i :: 0 <= i < |xs| ==> MinOf(xs) <= xs[i] <= MaxOf(xs)
    ensures exists i :: 0 <= i < |xs| && xs[i] == MinOf(xs)
    ensures exists i :: 0 <= i < |xs| && xs[i] == MaxOf(xs)
  {
    MinOfIsLeast(xs);
    MaxOfIsGreatest(xs);
    assert forall i :: 0 <= i < |xs| ==> xs[i] in xs;
    var lo :| 0 <= lo < |xs| && xs[lo] == MinOf(xs);
    var hi :| 0 <= hi < |xs| && xs[hi] == MaxOf(xs);
  }

  /** The stroke colours, cycled through by face index. */
  const Colors: seq<string> := ["#FF6347", "#32CD32", "#1E90FF", "#FFD700", "#FF4500"]

  function FaceColor(index: nat): (c: string)
    ensures c in Colors
  {
    Colors[index % |Colors|]
  }

  /** The colour repeats every five faces and never sooner. */
  lemma FaceColorCycle(i: nat, j: nat)
    ensures FaceColor(i) == FaceColor(j) <==> i % 5 == j % 5
  {
    var a, b := i % 5, j % 5;
    assert FaceColor(i) == Colors[a] && FaceColor(j) == Colors[b];
    if a != b {
      assert Colors[0][3] == '6' && Colors[1][3] == 'C' && Colors[2][3] == '9'
             && Colors[3][3] == 'D' && Colors[4][3] == '4';
      assert Colors[a][3] != Colors[b][3];
    }
  }

  function FaceLabel(index: nat): string
  {
    "Face " + NatToString(index + 1)
  }

  /** The label of face `index` reads "Face " followed by the decimal
      numeral of `index + 1`, so distinct faces get distinct labels. */
  lemma FaceLabelNumber(index: nat)
    ensures |FaceLabel(index)| > 5 && FaceLabel(index)[..5] == "Face "
    ensures IsDigits(FaceLabel(index)[5..])
    ensures DecimalValue(FaceLabel(index)[5..]) == index + 1
  {
    var s := FaceLabel(index);
    assert s[5..] == NatToString(index + 1);
    NatToStringRoundTrip(index + 1);
  }

  lemma FaceLabelsDistinct(i: nat, j: nat)
    requires i != j
    ensures FaceLabel(i) != FaceLabel(j)
  {
    FaceLabelNumber(i);
    FaceLabelNumber(j);
  }

  /** Left eye, right eye, nose tip, left and right mouth corner. */
  const FeatureIndices: seq<nat> := [33, 263, 1, 61, 291]

  /** A face has every feature landmark only if it has more than 291
      points; reading a missing one throws. */
  predicate HasFeatures(face: seq<Landmark>)
  {
    |face| > 291
  }

  /** A landmark in canvas pixels. */
  function Scaled(p: Landmark, canvasWidth: real, canvasHeight: real): (real, real)
  {
    (p.x * canvasWidth, p.y * canvasHeight)
  }

  /** The red dots of one face: its feature landmarks in canvas pixels,
      left eye, right eye, nose, mouth left, mouth right. */
  function FeatureDots(face: seq<Landmark>, canvasWidth: real, canvasHeight: real): (dots: seq<(real, real)>)
    requires HasFeatures(face)
    ensures dots == [Scaled(face[33], canvasWidth, canvasHeight),
                     Scaled(face[263], canvasWidth, canvasHeight),
                     Scaled(face[1], canvasWidth, canvasHeight),
                     Scaled(face[61], canvasWidth, canvasHeight),
                     Scaled(face[291], canvasWidth, canvasHeight)]
  {
    seq(|FeatureIndices|, k requires 0 <= k < |FeatureIndices| =>
          Scaled(face[FeatureIndices[k]], canvasWidth, canvasHeight))
  }

  /** The dots drawn for `face` from the landmarks `indices`, in order,
      until the first index the face does not have: each dot is drawn
      before the next landmark is read, and reading a missing one throws. */
  function DotsUntilMissing(face: seq<Landmark>, indices: seq<nat>, canvasWidth: real, canvasHeight: real)
    : (dots: seq<(real, real)>)
    ensures |dots| <= |indices|
    ensures forall k :: 0 <= k < |dots| ==>
              indices[k] < |face| && dots[k] == Scaled(face[indices[k]], canvasWidth, canvasHeight)
    ensures |dots| < |indices| ==> indices[|dots|] >= |face|
    decreases indices
  {
    if indices == [] || indices[0] >= |face| then []
    else
      var rest := DotsUntilMissing(face, indices[1..], canvasWidth, canvasHeight);
      [Scaled(face[indices[0]], canvasWidth, canvasHeight)] + rest
  }

  /** A face with every feature landmark gets all five dots. */
  lemma DotsOfCompleteFace(face: seq<Landmark>, canvasWidth: real, canvasHeight: real)
    requires HasFeatures(face)
    ensures DotsUntilMissing(face, FeatureIndices, canvasWidth, canvasHeight)
            == FeatureDots(face, canvasWidth, canvasHeight)
  {
  }

  /** A face lacking a feature landmark gets the dots before the first
      missing one: none below 34 landmarks (the left eye, 33, is read
      first), the left eye alone up to 263, and four dots up to 291, where
      only the right mouth corner is missing. */
  lemma DotsBeforeThrow(face: seq<Landmark>, canvasWidth: real, canvasHeight: real)
    requires !HasFeatures(face)
    ensures |DotsUntilMissing(face, FeatureIndices, canvasWidth, canvasHeight)|
            == if |face| <= 33 then 0 else if |face| <= 263 then 1 else 4
  {
  }

  /** What is drawn for one face: the feature dots, the box, its colour and
      the caption with its anchor. */
  datatype Overlay = Overlay(dots: seq<(real, real)>, box: Box, color: string,
                             caption: string, captionX: real, captionY: real)

  function MeshOverlay(face: seq<Landmark>, index: nat, canvasWidth: real, canvasHeight: real): (r: Option<Overlay>)
    ensures r.Some? <==> HasFeatures(face)
    ensures r.Some? ==>
              r.value.dots == FeatureDots(face, canvasWidth, canvasHeight)
              && Some(r.value.box) == FaceBox(face, canvasWidth, canvasHeight)
              && r.value.color == FaceColor(index)
              && r.value.caption == FaceLabel(index)
              && r.value.captionX == r.value.box.x + 4.0
              && r.value.captionY == r.value.box.y - 8.0
  {
    if !HasFeatures(face) then None
    else
      var box := FaceBox(face, canvasWidth, canvasHeight).value;
      Some(Overlay(FeatureDots(face, canvasWidth, canvasHeight), box, FaceColor(index), FaceLabel(index), box.x + 4.0, box.y - 8.0))
  }

  /** How many faces are drawn: drawing goes through the faces in order
      and throws at the first one lacking a feature landmark. */
  function DrawnCount(faces: seq<seq<Landmark>>): (n: nat)
    ensures n <= |faces|
    ensures forall k :: 0 <= k < n ==> HasFeatures(faces[k])
    ensures n < |faces| ==> !HasFeatures(faces[n])
  {
    if |faces| == 0 || !HasFeatures(faces[0]) then 0
    else 1 + DrawnCount(faces[1..])
  }

  /** The overlays of the first `n` faces, in drawing order. */
  function Overlays(faces: seq<seq<Landmark>>, n: nat, canvasWidth: real, canvasHeight: real): seq<Overlay>
    requires n <= DrawnCount(faces)
  {
    if n == 0 then []
    else Overlays(faces, n - 1, canvasWidth, canvasHeight)
         + [MeshOverlay(faces[n - 1], n - 1, canvasWidth, canvasHeight).value]
  }

  /** Overlay `k` is the one of face `k`: its box, its colour and its
      label. */
  lemma {:induction false} OverlayOfFace(faces: seq<seq<Landmark>>, n: nat, canvasWidth: real, canvasHeight: real, k: nat)
    requires n <= DrawnCount(faces) && k < n
    ensures |Overlays(faces, n, canvasWidth, canvasHeight)| == n
    ensures Some(Overlays(faces, n, canvasWidth, canvasHeight)[k])
            == MeshOverlay(faces[k], k, canvasWidth, canvasHeight)
    decreases n
  {
    if k < n - 1 {
      OverlayOfFace(faces, n - 1, canvasWidth, canvasHeight, k);
    } else {
      OverlaysLength(faces, n - 1, canvasWidth, canvasHeight);
    }
  }

  lemma {:induction false} OverlaysLength(faces: seq<seq<Landmark>>, n: nat, canvasWidth: real, canvasHeight: real)
    requires n <= DrawnCount(faces)
    ensures |Overlays(faces, n, canvasWidth, canvasHeight)| == n
    decreases n
  {
    if n > 0 {
      OverlaysLength(faces, n - 1, canvasWidth, canvasHeight);
    }
  }

  /** The dots left on the canvas by the face that stops the drawing, if
      any face does. */
  function StrayDots(faces: seq<seq<Landmark>>, canvasWidth: real, canvasHeight: real): seq<(real, real)>
  {
    var n := DrawnCount(faces);
    if n < |faces| then DotsUntilMissing(faces[n], FeatureIndices, canvasWidth, canvasHeight) else []
  }

  /** Draws the faces in order, each with its overlay, until one lacks a
      feature landmark, of which only the leading dots get drawn; returns
      the complete overlays and those dots. */
  method DrawMeshes(faces: seq<seq<Landmark>>, canvasWidth: real, canvasHeight: real)
    returns (drawn: seq<Overlay>, stray: seq<(real, real)>)
    ensures drawn == Overlays(faces, DrawnCount(faces), canvasWidth, canvasHeight)
    ensures stray == StrayDots(faces, canvasWidth, canvasHeight)
  {
    drawn := [];
    var i := 0;
    while i < |faces| && HasFeatures(faces[i])
      invariant i <= DrawnCount(faces)
      invariant drawn == Overlays(faces, i, canvasWidth, canvasHeight)
    {
      assert i != DrawnCount(faces);
      drawn := drawn + [MeshOverlay(faces[i], i, canvasWidth, canvasHeight).value];
      i := i + 1;
    }
    assert i == DrawnCount(faces);
    if i < |faces| {
      stray := DotsUntilMissing(faces[i], FeatureIndices, canvasWidth, canvasHeight);
    } else {
      stray := [];
    }
  }

  // ---------------------------------------------------------------------
  // Scoring request and response
  // ---------------------------------------------------------------------

  /** The body posted to the scoring service: `[x, y]` pairs. */
  datatype ScoreRequest = ScoreRequest(landmarks: seq<(real, real)>)

  /** The request for the first face: its five feature landmarks, in the
      order left eye, right eye, nose, mouth left, mouth right. */
  function ScoreRequestFor(face: seq<Landmark>): (r: Option<ScoreRequest>)
    ensures r.Some? <==> HasFeatures(face)
    ensures r.Some? ==> r.value.landmarks == [(face[33].x, face[33].y), (face[263].x, face[263].y),
                                              (face[1].x, face[1].y), (face[61].x, face[61].y),
                                              (face[291].x, face[291].y)]
  {
    if !HasFeatures(face) then None
    else Some(ScoreRequest(seq(|FeatureIndices|, k requires 0 <= k < |FeatureIndices| =>
                                (face[FeatureIndices[k]].x, face[FeatureIndices[k]].y))))
  }

  /** The service's own landmark check (Backend/app.py:43-47). */
  predicate ServiceSeesFace(request: ScoreRequest)
  {
    |request.landmarks| >= 5
  }

  /** Every request the overlay sends passes the service's landmark check. */
  lemma RequestsPassServiceCheck(face: seq<Landmark>)
    ensures ScoreRequestFor(face).Some? ==> ServiceSeesFace(ScoreRequestFor(face).value)
  {
  }

  /** The JSON answer: an `error` or a `score` field, as strings. */
  datatype ScoreBody = ScoreBody(error: Option<string>, score: Option<string>)

  /** The outcome of the request: an answer, or a failed fetch or parse. */
  datatype ScoreOutcome = Answered(body: ScoreBody) | FetchFailed

  /** JavaScript truthiness of an optional string field. */
  predicate Truthy(field: Option<string>)
  {
    field.Some? && field.value != ""
  }

  /** The part of the display that scoring touches; `score == None` is
      `null`. */
  datatype ScoreView = ScoreView(score: Option<string>, statusMessage: string, noFaceDetected: bool)

  /** The banner "No face detected" is never shown beside a score. */
  predicate Consistent(v: ScoreView)
  {
    v.noFaceDetected ==> v.score.None?
  }

  /** How the display follows a scoring outcome: an error clears the score
      and shows the banner with the error text, a score is shown and hides
      the banner, an answer with neither changes nothing, and a failed
      fetch clears the score and shows the banner. */
  function AfterScore(v: ScoreView, outcome: ScoreOutcome): (r: ScoreView)
    ensures outcome.FetchFailed? ==> r == ScoreView(None, "Error while fetching score.", true)
    ensures outcome.Answered? && Truthy(outcome.body.error) ==>
              r == ScoreView(None, outcome.body.error.value, true)
    ensures outcome.Answered? && !Truthy(outcome.body.error) && Truthy(outcome.body.score) ==>
              r == v.(score := outcome.body.score, noFaceDetected := false)
    ensures outcome.Answered? && !Truthy(outcome.body.error) && !Truthy(outcome.body.score) ==>
              r == v
  {
    match outcome
    case FetchFailed => ScoreView(None, "Error while fetching score.", true)
    case Answered(body) =>
      if Truthy(body.error) then ScoreView(None, body.error.value, true)
      else if Truthy(body.score) then v.(score := body.score, noFaceDetected := false)
      else v
  }

  /** A scoring outcome never shows the banner beside a score, and after it
      exactly one of them is visible unless the answer was empty. */
  lemma AfterScoreConsistent(v: ScoreView, outcome: ScoreOutcome)
    requires Consistent(v)
    ensures Consistent(AfterScore(v, outcome))
    ensures outcome.Answered? && (Truthy(outcome.body.error) || Truthy(outcome.body.score)) ==>
              (AfterScore(v, outcome).score.Some? <==> !AfterScore(v, outcome).noFaceDetected)
  {
  }

  /** The status line after a result with faces. */
  const FaceCountSuffix := " face(s) detected."

  function FaceCountStatus(n: nat): string
  {
    NatToString(n) + FaceCountSuffix
  }

  /** The count at the head of the status line reads back as the number
      of faces. */
  lemma FaceCountStatusReadable(n: nat)
    ensures |FaceCountStatus(n)| > |FaceCountSuffix|
    ensures var s := FaceCountStatus(n);
            var digits := s[..|s| - |FaceCountSuffix|];
            IsDigits(digits) && DecimalValue(digits) == n
  {
    var s := FaceCountStatus(n);
    assert s[..|s| - |FaceCountSuffix|] == NatToString(n);
    NatToStringRoundTrip(n);
  }

  // ---------------------------------------------------------------------
  // The component
  // ---------------------------------------------------------------------

  class FaceDisplay {
    var scanLine: ScanLine
    var currentLandmarks: seq<seq<Landmark>>
    var statusMessage: string
    var score: Option<string>
    var noFaceDetected: bool

    function View(): ScoreView
      reads this
    {
      ScoreView(score, statusMessage, noFaceDetected)
    }

    predicate Valid()
      reads this
    {
      Consistent(View())
    }

    constructor ()
      ensures Valid()
      ensures scanLine == ScanLine(0, Down) && currentLandmarks == []
      ensures statusMessage == "Initializing camera..." && score == Some("Analyzing...")
      ensures !noFaceDetected
    {
      scanLine := ScanLine(0, Down);
      currentLandmarks := [];
      statusMessage := "Initializing camera...";
      score := Some("Analyzing...");
      noFaceDetected := false;
    }

    /** The camera could not be opened. */
    method OnCameraError()
      modifies this`statusMessage
      ensures statusMessage == "Camera access denied or unavailable."
    {
      statusMessage := "Camera access denied or unavailable.";
    }

    /** Advances the scan line by one frame on a canvas of the given
        height. */
    method DrawScanningLine(canvasHeight: nat)
      modifies this`scanLine
      ensures scanLine == ScanStep(old(scanLine), canvasHeight)
    {
      var position, direction := scanLine.position, scanLine.direction;
      if direction == Down {
        position := position + ScanSpeed;
        if position >= canvasHeight {
          direction := Up;
        }
      } else {
        position := position - ScanSpeed;
        if position <= 0 {
          direction := Down;
        }
      }
      scanLine := ScanLine(position, direction);
    }

    /** The score button: with no stored face, clear the score; with a
        first face lacking a feature landmark, throw before sending (no
        change); otherwise send its five landmarks and apply `outcome`,
        the service's response to that request. */
    method FetchScore(outcome: ScoreOutcome) returns (sent: Option<ScoreRequest>)
      requires Valid()
      modifies this`score, this`statusMessage, this`noFaceDetected
      ensures Valid()
      ensures old(currentLandmarks) == [] ==>
                sent.None? && score.None? && statusMessage == "No face landmarks available."
                && noFaceDetected == old(noFaceDetected)
      ensures old(currentLandmarks) != [] ==> sent == ScoreRequestFor(currentLandmarks[0])
      ensures old(currentLandmarks) != [] && sent.None? ==> View() == old(View())
      ensures old(currentLandmarks) != [] && sent.Some? ==> View() == AfterScore(old(View()), outcome)
    {
      if |currentLandmarks| == 0 {
        statusMessage := "No face landmarks available.";
        score := None;
        return None;
      }
      var face := currentLandmarks[0];
      sent := ScoreRequestFor(face);
      if sent.Some? {
        AfterScoreConsistent(View(), outcome);
        var v := AfterScore(View(), outcome);
        score, statusMessage, noFaceDetected := v.score, v.statusMessage, v.noFaceDetected;
      }
    }

    /** One detector result on a frame of the given size: store the faces
        and report their number, drawing the faces' overlays in order
        until one lacks a feature landmark; with no face,
        forget the stored ones, advance the scan line and clear the score.
        Returns the complete overlays drawn and the dots left by the face
        that stopped the drawing. */
    method OnResults(faces: seq<seq<Landmark>>, videoWidth: nat, videoHeight: nat)
      returns (drawn: seq<Overlay>, stray: seq<(real, real)>)
      requires Valid()
      modifies this`currentLandmarks, this`statusMessage, this`scanLine, this`score
      ensures Valid()
      ensures noFaceDetected == old(noFaceDetected)
      ensures faces != [] ==>
                currentLandmarks == faces && statusMessage == FaceCountStatus(|faces|)
                && scanLine == old(scanLine) && score == old(score)
                && drawn == Overlays(faces, DrawnCount(faces), videoWidth as real, videoHeight as real)
                && stray == StrayDots(faces, videoWidth as real, videoHeight as real)
      ensures faces == [] ==>
                currentLandmarks == [] && statusMessage == "No face detected. Please center your face."
                && scanLine == ScanStep(old(scanLine), videoHeight) && score.None? && drawn == [] && stray == []
    {
      if |faces| > 0 {
        currentLandmarks := faces;
        statusMessage := FaceCountStatus(|faces|);
        drawn, stray := DrawMeshes(faces, videoWidth as real, videoHeight as real);
      } else {
        currentLandmarks := [];
        statusMessage := "No face detected. Please center your face.";
        DrawScanningLine(videoHeight);
        score := None;
        drawn, stray := [], [];
      }
    }
  }
}

/** Model of the pose adapter: the landmark list built by `findPosition` and the
    angle lookup and normalisation performed by `findAngle`. The pose detector
    itself, the atan2/degrees computation and all drawing are outside the model:
    landmarks arrive already in pixel coordinates, and the raw angle difference
    is supplied by an opaque function of the three points. */
module Pose {

  datatype Option<T> = None | Some(value: T)

  /** The only failure the adapter can raise on well-typed input: a list index out of range. */
  datatype PyError = IndexError

  datatype Result<T> = Ok(value: T) | Err(error: PyError)

  /** A detected landmark, with its pixel coordinates already computed by the detector side. */
  datatype PixelLandmark = PixelLandmark(cx: int, cy: int)

  /** One row `[id, cx, cy]` of the landmark list. */
  datatype Entry = Entry(id: int, cx: int, cy: int)

  datatype Point = Point(x: int, y: int)

  /** A difference of two atan2 results in degrees: each lies in [-180, 180], so the difference lies in [-360, 360]. */
  type RawAngle = r: real | -360.0 <= r <= 360.0 witness 0.0

  /** The largest angle the normalisation produces: the interior angle at a vertex. */
  const StraightAngle: real := 180.0

  const FullTurn: real := 360.0

  // ---------------------------------------------------------------------------
  // Angle normalisation
  // ---------------------------------------------------------------------------

  /** The branch chain of `findAngle` that folds a raw degree difference into [0, 180]:
      a negative value is first shifted by a full turn and then reflected if it is
      beyond a straight angle; a value beyond a straight angle is reflected. */
  function Normalize(raw: real): (angle: real)
    ensures -FullTurn <= raw <= FullTurn ==> 0.0 <= angle <= StraightAngle
  {
    if raw < 0.0 then
      var shifted := raw + FullTurn;
      if shifted > StraightAngle then FullTurn - shifted else shifted
    else if raw > StraightAngle then
      FullTurn - raw
    else
      raw
  }

  function Abs(a: real): real {
    if a < 0.0 then -a else a
  }

  function Min(a: real, b: real): real {
    if a <= b then a else b
  }

  /** Reference definition: the distance, along the circle of degrees, between `raw` and 0. */
  function CircularDistance(raw: real): real {
    Min(Abs(raw), FullTurn - Abs(raw))
  }

  /** An angle already in [0, 180] is returned as is. */
  lemma NormalizeKeepsInterior(raw: real)
    requires 0.0 <= raw <= StraightAngle
    ensures Normalize(raw) == raw
  {
  }

  /** The three ways a raw value outside [0, 180] is folded back. */
  lemma NormalizeFolds(raw: real)
    requires -FullTurn <= raw <= FullTurn
    ensures StraightAngle < raw ==> Normalize(raw) == FullTurn - raw
    ensures raw <= -StraightAngle ==> Normalize(raw) == raw + FullTurn
    ensures -StraightAngle < raw < 0.0 ==> Normalize(raw) == -raw
  {
  }

  /** Normalising agrees with the circular-distance reference on the whole raw range. */
  lemma NormalizeIsCircularDistance(raw: real)
    requires -FullTurn <= raw <= FullTurn
    ensures Normalize(raw) == CircularDistance(raw)
  {
  }

  /** Swapping the two arms of the angle (negating the raw value) does not change the result. */
  lemma NormalizeSymmetric(a: real)
    requires 0.0 <= a <= FullTurn
    ensures Normalize(-a) == Normalize(a)
  {
  }

  /** Normalising a normalised angle changes nothing. */
  lemma NormalizeIdempotent(raw: real)
    requires -FullTurn <= raw <= FullTurn
    ensures Normalize(Normalize(raw)) == Normalize(raw)
  {
  }

  /** The raw range matters: beyond a full turn either way the branch chain yields a
      negative value, which a second normalisation changes; 400, for one, maps to -40. */
  lemma NormalizeNeedsRawRange(raw: real)
    requires raw < -FullTurn || FullTurn < raw
    ensures Normalize(raw) < 0.0
    ensures Normalize(Normalize(raw)) != Normalize(raw)
    ensures Normalize(400.0) == -40.0
  {
  }

  // ---------------------------------------------------------------------------
  // The landmark list
  // ---------------------------------------------------------------------------

  /** `lmList` lists the detected landmarks in enumeration order, row i carrying id i. */
  ghost predicate ListsLandmarks(lmList: seq<Entry>, landmarks: seq<PixelLandmark>) {
    && |lmList| == |landmarks|
    && forall i :: 0 <= i < |lmList| ==> lmList[i] == Entry(i, landmarks[i].cx, landmarks[i].cy)
  }

  /** `findPosition`: an empty list when no pose was detected, otherwise one row per
      landmark, built by appending in enumeration order. */
  method FindPosition(detected: Option<seq<PixelLandmark>>) returns (lmList: seq<Entry>)
    ensures detected.None? ==> lmList == []
    ensures detected.Some? ==> ListsLandmarks(lmList, detected.value)
    ensures forall i :: 0 <= i < |lmList| ==> lmList[i].id == i
  {
    lmList := [];
    if detected.Some? {
      var landmarks := detected.value;
      var id := 0;
      while id < |landmarks|
        invariant 0 <= id <= |landmarks|
        invariant |lmList| == id
        invariant forall i :: 0 <= i < id ==> lmList[i] == Entry(i, landmarks[i].cx, landmarks[i].cy)
      {
        lmList := lmList + [Entry(id, landmarks[id].cx, landmarks[id].cy)];
        id := id + 1;
      }
    }
  }

  // ---------------------------------------------------------------------------
  // Angle lookup
  // ---------------------------------------------------------------------------

  /** A Python list index is valid when it is in [-n, n); negative indices count from the end. */
  predicate ValidIndex<T>(s: seq<T>, i: int) {
    -|s| <= i < |s|
  }

  /** Python list indexing: `s[i]`, or None where Python raises IndexError. A valid
      index reads the element at its position modulo the length, which is Python's
      wrap-around of negative indices. */
  function PyIndex<T>(s: seq<T>, i: int): (r: Option<T>)
    ensures r.None? <==> !ValidIndex(s, i)
    ensures ValidIndex(s, i) ==> r == Some(s[i % |s|])
  {
    if 0 <= i < |s| then Some(s[i])
    else if -|s| <= i < 0 then Some(s[|s| + i])
    else None
  }

  /** A negative index names the same element as the index one length further on. */
  lemma PyIndexNegative<T>(s: seq<T>, i: int)
    requires -|s| <= i < 0
    ensures PyIndex(s, i) == PyIndex(s, i + |s|)
    ensures PyIndex(s, i).Some?
  {
  }

  function PointOf(e: Entry): Point {
    Point(e.cx, e.cy)
  }

  function Pixel(lm: PixelLandmark): Point {
    Point(lm.cx, lm.cy)
  }

  /** `findAngle`: look up the three rows (p2 is the vertex), take the raw degree difference
      of the two arms from `rawOf`, and normalise it. Any index out of range raises. */
  function FindAngle(lmList: seq<Entry>, p1: int, p2: int, p3: int,
                     rawOf: (Point, Point, Point) -> RawAngle): (r: Result<real>)
    ensures r.Ok? <==> ValidIndex(lmList, p1) && ValidIndex(lmList, p2) && ValidIndex(lmList, p3)
    ensures r.Ok? ==> 0.0 <= r.value <= StraightAngle
  {
    match (PyIndex(lmList, p1), PyIndex(lmList, p2), PyIndex(lmList, p3))
    case (Some(e1), Some(e2), Some(e3)) => Ok(Normalize(rawOf(PointOf(e1), PointOf(e2), PointOf(e3))))
    case _ => Err(IndexError)
  }

  /** On a list built by `findPosition`, a non-negative index in range reads the landmark
      with that id, so the angle is the normalised raw angle of those three landmarks. */
  lemma FindAngleReadsLandmarks(lmList: seq<Entry>, landmarks: seq<PixelLandmark>,
                                p1: int, p2: int, p3: int, rawOf: (Point, Point, Point) -> RawAngle)
    requires ListsLandmarks(lmList, landmarks)
    requires 0 <= p1 < |landmarks| && 0 <= p2 < |landmarks| && 0 <= p3 < |landmarks|
    ensures FindAngle(lmList, p1, p2, p3, rawOf)
         == Ok(Normalize(rawOf(Pixel(landmarks[p1]), Pixel(landmarks[p2]), Pixel(landmarks[p3]))))
  {
  }
}

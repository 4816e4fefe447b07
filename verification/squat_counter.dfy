/** Model of the per-frame update of the squat-jump counter: two guarded side
    transitions over four joint angles, and the progress bar readout. The camera
    loop, drawing and the clock are outside the model; the current time of a
    frame is an input. */
module SquatCounter {
  import opened Pose

  /** The side of the last qualifying event. The program's "right" side is the one
      measured on landmarks 23, 25 and 27. */
  datatype Side = Right | Left

  /** The counter's session state: repetitions, side and time of the last
      qualifying event (None before the first), and the feedback text shown. */
  datatype State = State(count: nat, prevSide: Option<Side>, prevJumpTime: real, feedback: string)

  /** The four angles of one frame, whether landmarks were found in it, and its time. */
  datatype Frame = Frame(present: bool, rightKnee: real, rightHip: real,
                         leftKnee: real, leftHip: real, now: real)

  /** What one frame produces: the new state and, when landmarks were found, the bar width. */
  datatype FrameOutput = FrameOutput(state: State, progress: Option<int>)

  const KneeMax: real := 90.0
  const HipMin: real := 150.0
  const InitialFeedback: string := "Perbaiki Posisi"
  const JumpFeedback: string := "Lompat"

  /** Full width of the progress bar, in pixels, and the time it takes to fill, in seconds. */
  const ProgressFull: int := 400
  const ProgressSeconds: real := 2.0

  /** Landmark triples of the four angles: vertex in the middle. */
  const RightKneeTriple: (int, int, int) := (23, 25, 27)
  const RightHipTriple: (int, int, int) := (11, 23, 25)
  const LeftKneeTriple: (int, int, int) := (24, 26, 28)
  const LeftHipTriple: (int, int, int) := (12, 24, 26)

  /** The highest landmark index the four angles read. */
  const MaxLandmarkIndex: int := 28

  function Init(startTime: real): State {
    State(0, None, startTime, InitialFeedback)
  }

  function Other(side: Side): Side {
    match side
    case Right => Left
    case Left => Right
  }

  /** A side qualifies with a bent knee and a straight hip; both bounds are inclusive. */
  predicate Qualifies(knee: real, hip: real) {
    knee <= KneeMax && hip >= HipMin
  }

  /** One guarded side transition: fires when the side qualifies and was not the last
      side recorded; counts when the other side was. */
  function SideCheck(s: State, side: Side, knee: real, hip: real, now: real): State {
    if Qualifies(knee, hip) && s.prevSide != Some(side) then
      if s.prevSide == Some(Other(side)) then
        State(s.count + 1, Some(side), now, JumpFeedback)
      else
        State(s.count, Some(side), now, s.feedback)
    else
      s
  }

  /** The per-frame update: nothing happens without landmarks; otherwise the right
      side is checked, then the left side against the state the right check left. */
  function Step(s: State, f: Frame): (t: State)
    ensures !f.present ==> t == s
    ensures s.count <= t.count <= s.count + 2
    ensures s.prevSide != Some(Left) ==> t.count <= s.count + 1
    ensures t.count > s.count ==> t.feedback == JumpFeedback
    ensures t.count == s.count ==> t.feedback == s.feedback
  {
    if !f.present then
      s
    else
      var afterRight := SideCheck(s, Right, f.rightKnee, f.rightHip, f.now);
      SideCheck(afterRight, Left, f.leftKnee, f.leftHip, f.now)
  }

  // ---------------------------------------------------------------------------
  // Which transitions fire
  // ---------------------------------------------------------------------------

  predicate RightFires(s: State, f: Frame) {
    f.present && Qualifies(f.rightKnee, f.rightHip) && s.prevSide != Some(Right)
  }

  /** The left guard sees the side the right transition may just have written. */
  predicate LeftFires(s: State, f: Frame) {
    f.present && Qualifies(f.leftKnee, f.leftHip) && (s.prevSide != Some(Left) || RightFires(s, f))
  }

  /** The qualifying events of one frame, in the order they fire. */
  function FiredSides(s: State, f: Frame): seq<Side> {
    (if RightFires(s, f) then [Right] else []) + (if LeftFires(s, f) then [Left] else [])
  }

  /** A side transition counts exactly when the side qualifies and the other side was
      the last one; from no side at all the first qualifying event only records the side. */
  lemma SideCheckCountsOnAlternation(s: State, side: Side, knee: real, hip: real, now: real)
    ensures SideCheck(s, side, knee, hip, now).count == s.count + 1
        <==> Qualifies(knee, hip) && s.prevSide == Some(Other(side))
    ensures SideCheck(s, side, knee, hip, now).count <= s.count + 1
    ensures s.prevSide.None? && Qualifies(knee, hip)
        ==> SideCheck(s, side, knee, hip, now) == s.(prevSide := Some(side), prevJumpTime := now)
  {
  }

  /** A side that does not qualify, or that was already the last side, changes nothing;
      the thresholds themselves qualify. */
  lemma SideCheckGuard(s: State, side: Side, knee: real, hip: real, now: real)
    ensures !Qualifies(knee, hip) ==> SideCheck(s, side, knee, hip, now) == s
    ensures s.prevSide == Some(side) ==> SideCheck(s, side, knee, hip, now) == s
    ensures KneeMax < knee ==> SideCheck(s, side, knee, hip, now) == s
    ensures hip < HipMin ==> SideCheck(s, side, knee, hip, now) == s
    ensures s.prevSide != Some(side) ==> SideCheck(s, side, KneeMax, HipMin, now).prevSide == Some(side)
  {
  }

  /** The effect of one step in terms of the events that fire: side, time, count and feedback. */
  lemma StepEffect(s: State, f: Frame)
    ensures Step(s, f).prevSide
         == (if LeftFires(s, f) then Some(Left) else if RightFires(s, f) then Some(Right) else s.prevSide)
    ensures Step(s, f).prevJumpTime
         == (if RightFires(s, f) || LeftFires(s, f) then f.now else s.prevJumpTime)
    ensures Step(s, f).count
         == s.count + (if RightFires(s, f) && s.prevSide == Some(Left) then 1 else 0)
                    + (if LeftFires(s, f) && (RightFires(s, f) || s.prevSide == Some(Right)) then 1 else 0)
  {
  }

  /** Both transitions can fire in one frame: from the left side, a frame where both sides
      qualify counts twice and leaves the left side recorded. */
  lemma BothSidesInOneStep(s: State, f: Frame)
    requires f.present && Qualifies(f.rightKnee, f.rightHip) && Qualifies(f.leftKnee, f.leftHip)
    ensures s.prevSide == Some(Left) ==> Step(s, f).count == s.count + 2 && Step(s, f).prevSide == Some(Left)
    ensures s.prevSide.None? ==> Step(s, f).count == s.count + 1 && Step(s, f).prevSide == Some(Left)
    ensures s.prevSide == Some(Right) ==> Step(s, f).count == s.count + 1 && Step(s, f).prevSide == Some(Left)
  {
  }

  // ---------------------------------------------------------------------------
  // Progress bar
  // ---------------------------------------------------------------------------

  /** Python's `int()` on a number: truncation toward zero. */
  function Truncate(v: real): (n: int)
    ensures 0.0 <= v ==> n as real <= v < n as real + 1.0
    ensures v < 0.0 ==> n as real - 1.0 < v <= n as real
  {
    if v >= 0.0 then v.Floor else -((-v).Floor)
  }

  /** Width of the progress bar: the elapsed time since the last qualifying event as a
      fraction of the fill time, capped at 1, scaled to the bar and truncated. */
  function ProgressWidth(prevJumpTime: real, now: real): (w: int)
    ensures prevJumpTime <= now ==> 0 <= w <= ProgressFull
    ensures now == prevJumpTime ==> w == 0
    ensures prevJumpTime + ProgressSeconds <= now ==> w == ProgressFull
    ensures now < prevJumpTime ==> w <= 0
    ensures prevJumpTime <= now <= prevJumpTime + ProgressSeconds
        ==> w as real <= (ProgressFull as real / ProgressSeconds) * (now - prevJumpTime) < w as real + 1.0
    ensures now < prevJumpTime
        ==> w as real - 1.0 < (ProgressFull as real / ProgressSeconds) * (now - prevJumpTime) <= w as real
  {
    var elapsed := (now - prevJumpTime) / ProgressSeconds;
    var fraction := if elapsed < 1.0 then elapsed else 1.0;
    Truncate(ProgressFull as real * fraction)
  }

  /** The bar never shrinks while time moves forward. */
  lemma ProgressMonotone(prevJumpTime: real, now: real, later: real)
    requires now <= later
    ensures ProgressWidth(prevJumpTime, now) <= ProgressWidth(prevJumpTime, later)
  {
  }

  // ---------------------------------------------------------------------------
  // One frame of the program: landmark list in, state and bar width out
  // ---------------------------------------------------------------------------

  function AngleOf(lmList: seq<Entry>, triple: (int, int, int), rawOf: (Point, Point, Point) -> RawAngle): Result<real> {
    FindAngle(lmList, triple.0, triple.1, triple.2, rawOf)
  }

  /** One pass of the main loop on a landmark list: with landmarks, the four angles are
      computed (an index out of range raises), the step runs, and the bar width is read
      from the updated state. */
  function ProcessFrame(s: State, lmList: seq<Entry>, rawOf: (Point, Point, Point) -> RawAngle, now: real): (r: Result<FrameOutput>)
    ensures r.Err? <==> 0 < |lmList| <= MaxLandmarkIndex
    ensures |lmList| == 0 ==> r == Ok(FrameOutput(s, None))
    ensures r.Ok? && 0 < |lmList| ==> r.value.progress.Some?
    ensures r.Ok? ==> s.count <= r.value.state.count <= s.count + 2
    ensures r.Ok? && 0 < |lmList| ==> r.value.progress == Some(ProgressWidth(r.value.state.prevJumpTime, now))
  {
    if |lmList| == 0 then
      Ok(FrameOutput(s, None))
    else
      match (AngleOf(lmList, RightKneeTriple, rawOf), AngleOf(lmList, RightHipTriple, rawOf),
             AngleOf(lmList, LeftKneeTriple, rawOf), AngleOf(lmList, LeftHipTriple, rawOf))
      case (Ok(rightKnee), Ok(rightHip), Ok(leftKnee), Ok(leftHip)) =>
        var t := Step(s, Frame(true, rightKnee, rightHip, leftKnee, leftHip, now));
        Ok(FrameOutput(t, Some(ProgressWidth(t.prevJumpTime, now))))
      case _ =>
        Err(IndexError)
  }

  /** The pose topology has 33 landmarks, so a detected pose never makes the angles raise. */
  lemma FullPoseNeverRaises(s: State, lmList: seq<Entry>, rawOf: (Point, Point, Point) -> RawAngle, now: real)
    requires |lmList| == 33
    ensures ProcessFrame(s, lmList, rawOf, now).Ok?
  {
  }

  /** The side wiring of the four angles: on a list built by `findPosition` that reaches
      landmark 28, the frame's state is the step over the right knee at 25 (from 23 to 27),
      the right hip at 23 (from 11 to 25), the left knee at 26 (from 24 to 28) and the
      left hip at 24 (from 12 to 26). */
  lemma ProcessFrameReadsTriples(s: State, lmList: seq<Entry>, landmarks: seq<PixelLandmark>,
                                 rawOf: (Point, Point, Point) -> RawAngle, now: real)
    requires ListsLandmarks(lmList, landmarks)
    requires MaxLandmarkIndex < |landmarks|
    ensures ProcessFrame(s, lmList, rawOf, now).Ok?
    ensures ProcessFrame(s, lmList, rawOf, now).value.state
         == Step(s, Frame(true,
                          Normalize(rawOf(Pixel(landmarks[23]), Pixel(landmarks[25]), Pixel(landmarks[27]))),
                          Normalize(rawOf(Pixel(landmarks[11]), Pixel(landmarks[23]), Pixel(landmarks[25]))),
                          Normalize(rawOf(Pixel(landmarks[24]), Pixel(landmarks[26]), Pixel(landmarks[28]))),
                          Normalize(rawOf(Pixel(landmarks[12]), Pixel(landmarks[24]), Pixel(landmarks[26]))),
                          now))
    ensures var out := ProcessFrame(s, lmList, rawOf, now).value;
            out.progress == Some(ProgressWidth(out.state.prevJumpTime, now))
  {
  }

  /** The bar is empty right after a qualifying event and otherwise within its full width
      while the clock does not run backwards. */
  lemma ProcessFrameProgress(s: State, lmList: seq<Entry>, rawOf: (Point, Point, Point) -> RawAngle, now: real)
    requires ProcessFrame(s, lmList, rawOf, now).Ok?
    requires s.prevJumpTime <= now
    ensures var out := ProcessFrame(s, lmList, rawOf, now).value;
            out.progress.Some? ==> 0 <= out.progress.value <= ProgressFull
    ensures var out := ProcessFrame(s, lmList, rawOf, now).value;
            out.progress.Some? && out.state.prevSide != s.prevSide ==> out.progress.value == 0
    ensures var out := ProcessFrame(s, lmList, rawOf, now).value;
            out.progress.Some? && out.state.count > s.count ==> out.progress.value == 0
  {
  }
}

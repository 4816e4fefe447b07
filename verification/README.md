# Squat-jump counter: verified model of the decision logic

The program watches a webcam, asks a pose detector for 33 body landmarks per
frame, measures four joint angles (right and left knee, right and left hip)
and counts alternating-leg squat jumps. This project models the two pieces of
its own logic in Dafny and proves properties of them:

- **Pose adapter** (`pose.dfy`, module `Pose`, from `PoseModule.py`):
  `findPosition` builds the landmark list `lmList` of `[id, cx, cy]` rows in
  enumeration order; `findAngle` looks up three rows (Python list indexing,
  negative indices included; an index out of range raises `IndexError`) and
  folds the raw difference of the two arms' `atan2` angles, in degrees, into
  [0, 180] by the branch chain of the source. The raw difference is an opaque
  function `rawOf` of the three points whose values lie in [-360, 360], the
  range of a difference of two `atan2` results.
- **Rep counter** (`squat_counter.dfy`, module `SquatCounter`, from
  `Squat_counter.py`): the session state is `(count, prevSide, prevJumpTime,
  feedback)` with `prevSide` one of none, right, left; `Init` is the session
  start of `Squat_counter.py:13-18` (count 0, no side, the start time, feedback
  "Perbaiki Posisi"). A frame carries the four
  angles, whether landmarks were found, and the current time. `Step` runs the
  right-side transition and then the left-side transition; the left guard reads
  the side the right transition may just have written, so both can fire in one
  frame. A side qualifies with knee `<= 90` and hip `>= 150`. The progress bar is
  `int(400 * min(1, elapsed / 2))`, with Python's truncating `int()` written out.
  `ProcessFrame` ties the two modules together: it takes the landmark list,
  computes the four angles from landmark triples 23/25/27, 11/23/25, 24/26/28 and
  12/24/26, runs `Step` and reads the bar width.
- **Runs** (`squat_traces.dfy`, module `SquatTraces`): `Run` feeds a sequence of
  frames; `Events` lists the qualifying events that fire along the way. An
  event-level reference machine (`Alternating`, `Counted`, `LastSide`) is the
  independent definition the runs are proved to agree with: events alternate
  strictly between sides starting from the recorded side, every event after the
  first recorded side counts one repetition, and the recorded side is that of
  the last event.

The program only checks that the landmark list is non-empty before reading
landmarks up to index 28. `ProcessFrame` therefore raises exactly when the list
has between 1 and 28 rows; the pose topology always gives 33, and
`FullPoseNeverRaises` shows that such a list never raises.

The side labels are those of the code: "right" is measured on landmarks
23/25/27, and the bar fills in 2 seconds. The comment on
`Squat_counter.py:59` says 3 seconds, but the code divides by 2, and the model
follows the code.

## Model

| member | source | states |
|---|---|---|
| `Pose.Normalize` | PoseModule.py:104-111 | for every raw difference in [-360, 360] the normalised angle lies in [0, 180] |
| `Pose.NormalizeKeepsInterior` | PoseModule.py:106-111 | a raw angle already in [0, 180] is returned unchanged |
| `Pose.NormalizeFolds` | PoseModule.py:106-111 | a raw angle in (180, 360] maps to 360 - raw, one in [-360, -180] to raw + 360, one in (-180, 0) to -raw |
| `Pose.NormalizeIsCircularDistance` | PoseModule.py:104-111 | on [-360, 360] the result equals the circular distance min(abs(raw), 360 - abs(raw)) of the raw angle from 0 |
| `Pose.NormalizeSymmetric` | PoseModule.py:106-111 | swapping the arms does not matter: Normalize(-a) == Normalize(a) for a in [0, 360] |
| `Pose.NormalizeIdempotent` | PoseModule.py:106-111 | normalising twice is the same as normalising once, for raw values in [-360, 360] |
| `Pose.NormalizeNeedsRawRange` | PoseModule.py:106-111 | for every raw value beyond a full turn either way the branch chain gives a negative angle that a second normalisation changes (400 maps to -40) |
| `Pose.FindPosition` | PoseModule.py:73-83 | no pose gives the empty list; otherwise one row per landmark, row i being `[i, cx, cy]` of landmark i, so every id equals its position |
| `Pose.PyIndex` | PoseModule.py:99-101 | Python list indexing raises exactly outside [-n, n); a valid index reads the element at its position modulo the length |
| `Pose.PyIndexNegative` | PoseModule.py:99-101 | a negative index in range names the same element as that index plus the length |
| `Pose.FindAngle` | PoseModule.py:99-111 | succeeds exactly when all three indices are valid Python indices, otherwise raises IndexError; a result lies in [0, 180] |
| `Pose.FindAngleReadsLandmarks` | PoseModule.py:99-101 | on a list built by findPosition, in-range indices read the landmarks with those ids, so the angle is the normalised raw angle of those three landmarks |
| `SquatCounter.Step` | Squat_counter.py:35-56 | without landmarks the state is unchanged; count never decreases, rises by at most 2, by at most 1 unless the left side was recorded; feedback is "Lompat" when the count rose and unchanged otherwise |
| `SquatCounter.SideCheckCountsOnAlternation` | Squat_counter.py:43-48 | a side transition counts exactly when the side qualifies and the other side was recorded; from no side it only records the side and the time |
| `SquatCounter.SideCheckGuard` | Squat_counter.py:43-48 | a side that does not qualify (knee above 90 or hip below 150) or is already recorded changes nothing; knee 90 with hip 150 qualifies |
| `SquatCounter.StepEffect` | Squat_counter.py:43-56 | the recorded side, the event time (reset to now on every qualifying event, counted or not) and the count after a step, in terms of which guards fire |
| `SquatCounter.BothSidesInOneStep` | Squat_counter.py:43-56 | when both sides qualify, from left the count rises by 2, from none or right by 1, and left ends up recorded |
| `SquatCounter.Truncate` | Squat_counter.py:59 | Python `int()` truncates toward zero: the result is within 1 of the value, on the zero side |
| `SquatCounter.ProgressWidth` | Squat_counter.py:59 | the bar width is in [0, 400] when time has not gone backwards, 0 at the event time, 400 from 2 seconds on, and never positive before the event time; below 2 seconds it is the truncation of 200 per second elapsed (toward zero, also for a clock that ran backwards) |
| `SquatCounter.ProgressMonotone` | Squat_counter.py:59 | the bar width never shrinks as time moves forward |
| `SquatCounter.ProcessFrame` | Squat_counter.py:35-59 | a frame raises exactly when the list has 1 to 28 rows; an empty list leaves the state and draws no bar; otherwise the bar width is that of the updated event time at the frame's time, and the count rises by 0 to 2 |
| `SquatCounter.ProcessFrameReadsTriples` | Squat_counter.py:37-56 | on a landmark list reaching index 28, the new state is the step over the normalised angles of triples 23/25/27 (right knee), 11/23/25 (right hip), 24/26/28 (left knee) and 12/24/26 (left hip), and the bar width is read from the updated event time |
| `SquatCounter.FullPoseNeverRaises` | Squat_counter.py:35-40 | a list with the 33 landmarks of the pose topology never makes the four angle lookups raise |
| `SquatCounter.ProcessFrameProgress` | Squat_counter.py:46-59 | the bar is within [0, 400], and it is empty on a frame where the recorded side changed or the count rose; the emptiness rests on the three clock reads of a frame returning the same time |
| `SquatTraces.StepMatchesEvents` | Squat_counter.py:43-56 | the events of one step alternate from the recorded side, and the count and side after it are those of the reference machine |
| `SquatTraces.RunMatchesEvents` | Squat_counter.py:43-56 | over any run the events alternate strictly, the count grows by what the reference machine counts, and the recorded side is that of the last event |
| `SquatTraces.CountedIsEventsAfterFirst` | Squat_counter.py:43-56 | every event counts except the first one of a session with no side recorded |
| `SquatTraces.ConsecutiveEventsDiffer` | Squat_counter.py:43-56 | two neighbouring qualifying events of a run are on different sides, so consecutive repetitions alternate |
| `SquatTraces.RunCountBounds` | Squat_counter.py:43-56 | along a run the count never decreases and grows by at most 2 per frame |
| `SquatTraces.RunWithoutLandmarks` | Squat_counter.py:35 | any number of frames without landmarks leave count, side, time and feedback unchanged |
| `SquatTraces.NoLeftEvents` | Squat_counter.py:51-56 | without a left-qualifying frame no left event fires |
| `SquatTraces.RepeatedRightCountsOnce` | Squat_counter.py:43-48 | with no left-qualifying frame, a run adds at most one repetition, and none when right was already recorded |
| `SquatTraces.WorkedRuns` | Squat_counter.py:35-56 | from the initial state `Init` (count 0, no side, "Perbaiki Posisi"), right, right, right counts 0; right, left, right, left counts 3 and shows "Lompat" |

## Left out

- Pose detection and the detector's configuration (`PoseModule.py:7-60`): a foreign library. Landmarks are an input sequence, `None` when no pose is found.
- Pixel scaling `int(lm.x * w)` (`PoseModule.py:78`): float-to-int conversion of library output. The pixel coordinates are opaque integers in the input.
- `math.atan2` and `math.degrees` (`PoseModule.py:104-105`): transcendental floating point. The raw difference is an opaque function of the three points with values in [-360, 360].
- Floating point in general: angles and times are exact reals, so rounding, NaN and infinities are not modelled.
- All drawing, window display, camera capture, the unchecked `ret` of `cap.read()` and the exit key loop (`PoseModule.py:113-148`, `Squat_counter.py:1-10`, `Squat_counter.py:20-31`, `Squat_counter.py:61-79`): I/O and rendering.
- `time.time()` (`Squat_counter.py:18`, `48`, `56`, `59`): the clock is the frame's `now`; the three reads within one frame are taken to return the same time.
- SquatCounter.ProcessFrameProgress: the empty bar on an event frame holds under the single per-frame clock; in the program the time read at `Squat_counter.py:59` comes after the one at line 48 or 56, so the bar shows `int(200 * d)` for the small delay `d` between them, which is 0 only when `d` is under 5 ms.

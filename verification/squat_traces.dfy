/** Runs of the squat-jump counter over finite sequences of frames, and an
    event-level reference machine they agree with: the qualifying events of a run
    alternate strictly between the sides, and every event after the first one
    recorded counts a repetition. */
module SquatTraces {
  import opened Pose
  import opened SquatCounter

  /** The state after feeding the frames in order. */
  function Run(s: State, frames: seq<Frame>): State
    decreases |frames|
  {
    if |frames| == 0 then s else Run(Step(s, frames[0]), frames[1..])
  }

  /** The qualifying events of a run, in the order they fire. */
  function Events(s: State, frames: seq<Frame>): seq<Side>
    decreases |frames|
  {
    if |frames| == 0 then [] else FiredSides(s, frames[0]) + Events(Step(s, frames[0]), frames[1..])
  }

  // ---------------------------------------------------------------------------
  // Reference machine over events
  // ---------------------------------------------------------------------------

  /** The side recorded after the events, starting from `prev`. */
  function LastSide(prev: Option<Side>, events: seq<Side>): Option<Side> {
    if |events| == 0 then prev else Some(events[|events| - 1])
  }

  /** Each event differs from the side recorded just before it. */
  predicate Alternating(prev: Option<Side>, events: seq<Side>)
    decreases |events|
  {
    |events| == 0 || (prev != Some(events[0]) && Alternating(Some(events[0]), events[1..]))
  }

  /** The repetitions the events count: an event counts when some side was already recorded. */
  function Counted(prev: Option<Side>, events: seq<Side>): nat
    decreases |events|
  {
    if |events| == 0 then 0 else (if prev.Some? then 1 else 0) + Counted(Some(events[0]), events[1..])
  }

  lemma {:induction false} LastSideAppend(prev: Option<Side>, a: seq<Side>, b: seq<Side>)
    ensures LastSide(prev, a + b) == LastSide(LastSide(prev, a), b)
  {
  }

  lemma {:induction false} AlternatingAppend(prev: Option<Side>, a: seq<Side>, b: seq<Side>)
    ensures Alternating(prev, a + b) <==> Alternating(prev, a) && Alternating(LastSide(prev, a), b)
    decreases |a|
  {
    if |a| > 0 {
      assert (a + b)[0] == a[0];
      assert (a + b)[1..] == a[1..] + b;
      AlternatingAppend(Some(a[0]), a[1..], b);
      if |a| > 1 {
        assert a[1..][|a[1..]| - 1] == a[|a| - 1];
      }
    } else {
      assert a + b == b;
    }
  }

  lemma {:induction false} CountedAppend(prev: Option<Side>, a: seq<Side>, b: seq<Side>)
    ensures Counted(prev, a + b) == Counted(prev, a) + Counted(LastSide(prev, a), b)
    decreases |a|
  {
    if |a| > 0 {
      assert (a + b)[0] == a[0];
      assert (a + b)[1..] == a[1..] + b;
      CountedAppend(Some(a[0]), a[1..], b);
      if |a| > 1 {
        assert a[1..][|a[1..]| - 1] == a[|a| - 1];
      }
    } else {
      assert a + b == b;
    }
  }

  /** One step agrees with the reference machine on the events it fires. */
  lemma StepMatchesEvents(s: State, f: Frame)
    ensures Alternating(s.prevSide, FiredSides(s, f))
    ensures Step(s, f).count == s.count + Counted(s.prevSide, FiredSides(s, f))
    ensures Step(s, f).prevSide == LastSide(s.prevSide, FiredSides(s, f))
  {
    StepEffect(s, f);
    var e := FiredSides(s, f);
    if RightFires(s, f) && LeftFires(s, f) {
      assert e == [Right, Left] && e[1..] == [Left] && e[1..][1..] == [];
      assert Counted(Some(Right), [Left]) == 1;
      assert s.prevSide.Some? ==> s.prevSide.value == Left;
    } else if RightFires(s, f) {
      assert e == [Right] && e[1..] == [];
      assert s.prevSide.Some? ==> s.prevSide.value == Left;
    } else if LeftFires(s, f) {
      assert e == [Left] && e[1..] == [];
      assert s.prevSide.Some? ==> s.prevSide.value == Right;
    } else {
      assert e == [];
    }
  }

  /** A whole run agrees with the reference machine: its events alternate strictly
      starting from the recorded side, the count grows by the events the reference
      counts, and the recorded side is the side of the last event. */
  lemma {:induction false} RunMatchesEvents(s: State, frames: seq<Frame>)
    ensures Alternating(s.prevSide, Events(s, frames))
    ensures Run(s, frames).count == s.count + Counted(s.prevSide, Events(s, frames))
    ensures Run(s, frames).prevSide == LastSide(s.prevSide, Events(s, frames))
    decreases |frames|
  {
    if |frames| > 0 {
      var t := Step(s, frames[0]);
      var first := FiredSides(s, frames[0]);
      var rest := Events(t, frames[1..]);
      StepMatchesEvents(s, frames[0]);
      RunMatchesEvents(t, frames[1..]);
      AlternatingAppend(s.prevSide, first, rest);
      CountedAppend(s.prevSide, first, rest);
      LastSideAppend(s.prevSide, first, rest);
    }
  }

  /** Every event counts except the very first one of a session that had no side yet. */
  lemma {:induction false} CountedIsEventsAfterFirst(prev: Option<Side>, events: seq<Side>)
    ensures Counted(prev, events) == |events| - (if prev.None? && |events| > 0 then 1 else 0)
    decreases |events|
  {
    if |events| > 0 {
      CountedIsEventsAfterFirst(Some(events[0]), events[1..]);
    }
  }

  /** Along a run the count never decreases and grows by at most two per frame. */
  lemma {:induction false} RunCountBounds(s: State, frames: seq<Frame>)
    ensures s.count <= Run(s, frames).count <= s.count + 2 * |frames|
    decreases |frames|
  {
    if |frames| > 0 {
      RunCountBounds(Step(s, frames[0]), frames[1..]);
    }
  }

  /** Frames without landmarks leave the whole state as it was. */
  lemma {:induction false} RunWithoutLandmarks(s: State, frames: seq<Frame>)
    requires forall i :: 0 <= i < |frames| ==> !frames[i].present
    ensures Run(s, frames) == s
    decreases |frames|
  {
    if |frames| > 0 {
      RunWithoutLandmarks(Step(s, frames[0]), frames[1..]);
    }
  }

  /** Without a left-qualifying frame, no left event fires. */
  lemma {:induction false} NoLeftEvents(s: State, frames: seq<Frame>)
    requires forall i :: 0 <= i < |frames| ==> !Qualifies(frames[i].leftKnee, frames[i].leftHip)
    ensures forall i :: 0 <= i < |Events(s, frames)| ==> Events(s, frames)[i] == Right
    decreases |frames|
  {
    if |frames| > 0 {
      NoLeftEvents(Step(s, frames[0]), frames[1..]);
    }
  }

  /** Held right-side frames count at most once: with no left-qualifying frame in between,
      a run adds at most one repetition, and none once the right side is recorded. */
  lemma RepeatedRightCountsOnce(s: State, frames: seq<Frame>)
    requires forall i :: 0 <= i < |frames| ==> !Qualifies(frames[i].leftKnee, frames[i].leftHip)
    ensures Run(s, frames).count <= s.count + 1
    ensures s.prevSide == Some(Right) ==> Run(s, frames).count == s.count
  {
    var e := Events(s, frames);
    NoLeftEvents(s, frames);
    RunMatchesEvents(s, frames);
    CountedIsEventsAfterFirst(s.prevSide, e);
  }

  /** Two consecutive repetitions are counted on different sides: the events of a run
      that count are the ones after the first recorded side, and neighbouring events differ. */
  lemma ConsecutiveEventsDiffer(s: State, frames: seq<Frame>, i: int)
    requires 0 < i < |Events(s, frames)|
    ensures Events(s, frames)[i] != Events(s, frames)[i - 1]
  {
    RunMatchesEvents(s, frames);
    AlternatingAt(s.prevSide, Events(s, frames), i);
  }

  lemma {:induction false} AlternatingAt(prev: Option<Side>, events: seq<Side>, i: int)
    requires Alternating(prev, events)
    requires 0 < i < |events|
    ensures events[i] != events[i - 1]
    decreases i
  {
    if i > 1 {
      AlternatingAt(Some(events[0]), events[1..], i - 1);
    } else {
      assert events[1..][0] == events[1];
    }
  }

  // ---------------------------------------------------------------------------
  // Worked runs
  // ---------------------------------------------------------------------------

  /** A frame where only the right side qualifies, and one where only the left does. */
  function RightJump(now: real): Frame {
    Frame(true, 80.0, 170.0, 170.0, 170.0, now)
  }

  function LeftJump(now: real): Frame {
    Frame(true, 170.0, 170.0, 80.0, 170.0, now)
  }

  /** Three right jumps in a row count nothing; right, left, right, left counts three. */
  lemma WorkedRuns(start: real)
    ensures Run(Init(start), [RightJump(start + 1.0), RightJump(start + 2.0), RightJump(start + 3.0)]).count == 0
    ensures Run(Init(start), [RightJump(start + 1.0), LeftJump(start + 2.0),
                              RightJump(start + 3.0), LeftJump(start + 4.0)]).count == 3
    ensures Run(Init(start), [RightJump(start + 1.0), LeftJump(start + 2.0),
                              RightJump(start + 3.0), LeftJump(start + 4.0)]).feedback == JumpFeedback
  {
    var s0 := Init(start);
    var r1 := Step(s0, RightJump(start + 1.0));
    assert r1 == State(0, Some(Right), start + 1.0, InitialFeedback);
    var r2 := Step(r1, RightJump(start + 2.0));
    assert r2 == r1;
    var r3 := Step(r2, RightJump(start + 3.0));
    assert r3 == r1;
    RunPair(s0, RightJump(start + 1.0), [RightJump(start + 2.0), RightJump(start + 3.0)]);
    RunPair(r1, RightJump(start + 2.0), [RightJump(start + 3.0)]);
    RunPair(r2, RightJump(start + 3.0), []);

    var a1 := Step(s0, RightJump(start + 1.0));
    var a2 := Step(a1, LeftJump(start + 2.0));
    assert a2 == State(1, Some(Left), start + 2.0, JumpFeedback);
    var a3 := Step(a2, RightJump(start + 3.0));
    assert a3 == State(2, Some(Right), start + 3.0, JumpFeedback);
    var a4 := Step(a3, LeftJump(start + 4.0));
    assert a4 == State(3, Some(Left), start + 4.0, JumpFeedback);
    RunPair(s0, RightJump(start + 1.0), [LeftJump(start + 2.0), RightJump(start + 3.0), LeftJump(start + 4.0)]);
    RunPair(a1, LeftJump(start + 2.0), [RightJump(start + 3.0), LeftJump(start + 4.0)]);
    RunPair(a2, RightJump(start + 3.0), [LeftJump(start + 4.0)]);
    RunPair(a3, LeftJump(start + 4.0), []);
  }

  /** Running a frame followed by more frames is one step followed by the rest of the run. */
  lemma RunPair(s: State, f: Frame, rest: seq<Frame>)
    ensures Run(s, [f] + rest) == Run(Step(s, f), rest)
  {
    assert ([f] + rest)[1..] == rest;
  }
}

/** What the recognizer does, phase by phase and over whole runs of samples, stated
    directly on the coordinates rather than through the helpers `Step` uses. */
module RectangleGestureProperties {
  import opened Vectors
  import opened RectangleGesture

  // ---------------------------------------------------------------------------
  // Configuration and reset

  /** An unset (non-positive) configured threshold behaves exactly like one configured
      with the process-wide default. */
  lemma ThresholdFallback(sloppinessThreshold: real, defaultThreshold: real)
    requires sloppinessThreshold <= 0.0
    ensures SloppinessOrDefault(sloppinessThreshold, defaultThreshold) ==
            SloppinessOrDefault(defaultThreshold, defaultThreshold)
    ensures SloppinessNegativeOrDefault(sloppinessThreshold, defaultThreshold) == -defaultThreshold
  {
  }

  // ---------------------------------------------------------------------------
  // One sample, phase by phase

  /** From `None`: a move to the right that is not too steep starts an attempt, anything
      else (including no move at all) cancels and stays in `None`. */
  lemma FromNone(s: GestureState, p: Vector2, t: real)
    requires s.phase == None
    ensures var r := Step(s, p, true, t);
      if p.x - s.previousPosition.x > 0.0 && Abs(p.y - s.previousPosition.y) <= t then
        r.state == GestureState(FirstLineMovement, p, s.previousPosition, s.previousPosition) &&
        r.signals == [Started]
      else
        r.state == s.(previousPosition := p) && r.signals == [Canceled]
  {
  }

  /** A sample equal to the previous one cancels in `None`. */
  lemma NoMoveCancelsFromNone(s: GestureState, t: real)
    requires s.phase == None
    ensures Step(s, s.previousPosition, true, t).signals == [Canceled]
    ensures Step(s, s.previousPosition, true, t).state == s
  {
  }

  /** First leg (rightward, waiting to go down): advances exactly when the sample is more
      than `t` below the leg start and horizontally still, cancels exactly when it is more
      than `t` above the leg start. */
  lemma FirstLine(s: GestureState, p: Vector2, t: real)
    requires s.phase == FirstLineMovement
    ensures var r := Step(s, p, true, t);
      var legDy := p.y - s.lineStartPosition.y;
      && (r.state.phase == SecondLineMovement <==> legDy < -t && Abs(p.x - s.previousPosition.x) < t)
      && r.state.phase in {FirstLineMovement, SecondLineMovement}
      && r.state.startPosition == s.startPosition
      && r.signals == (if legDy > t then [Canceled] else [])
  {
  }

  /** Second leg (downward, waiting to go left): advances exactly when the sample is more
      than `t` left of the leg start and vertically still, cancels exactly when it is more
      than `t` right of the leg start. */
  lemma SecondLine(s: GestureState, p: Vector2, t: real)
    requires s.phase == SecondLineMovement
    ensures var r := Step(s, p, true, t);
      var legDx := p.x - s.lineStartPosition.x;
      && (r.state.phase == ThirdLineMovement <==> legDx < -t && Abs(p.y - s.previousPosition.y) < t)
      && r.state.phase in {SecondLineMovement, ThirdLineMovement}
      && r.state.startPosition == s.startPosition
      && r.signals == (if legDx > t then [Canceled] else [])
  {
  }

  /** Third leg (leftward, waiting to go up): an upward, horizontally still sample advances
      when it is back within `t` of the gesture start's x and cancels otherwise; a sample
      more than `t` below the leg start cancels. */
  lemma ThirdLine(s: GestureState, p: Vector2, t: real)
    requires s.phase == ThirdLineMovement
    ensures var r := Step(s, p, true, t);
      var legDy := p.y - s.lineStartPosition.y;
      var up := legDy > t && Abs(p.x - s.previousPosition.x) < t;
      var closes := Abs(p.x - s.startPosition.x) < t;
      && (r.state.phase == LastLineMovement <==> up && closes)
      && r.state.phase in {ThirdLineMovement, LastLineMovement}
      && r.state.startPosition == s.startPosition
      && r.signals == (if (up && !closes) || legDy < -t then [Canceled] else [])
  {
  }

  /** Last leg (upward): `Performed` is sent whenever the sample is within `t` of the
      gesture start on both axes and horizontally still, `Canceled` whenever it is more than
      `t` below the leg start; both can happen on one sample, and the phase never changes. */
  lemma LastLine(s: GestureState, p: Vector2, t: real)
    requires s.phase == LastLineMovement
    ensures var r := Step(s, p, true, t);
      var nearStart := Abs(p.x - s.startPosition.x) < t && Abs(p.y - s.startPosition.y) < t &&
                       Abs(p.x - s.previousPosition.x) < t;
      var down := p.y - s.lineStartPosition.y < -t;
      && r.state == s.(previousPosition := p)
      && r.signals == (if nearStart then [Performed] else []) + (if down then [Canceled] else [])
  {
  }

  /** A displacement of exactly the threshold along a leg is not enough: nothing happens. */
  lemma ExactThresholdDoesNotAdvance(s: GestureState, p: Vector2, t: real)
    requires t > 0.0
    requires || (s.phase == FirstLineMovement && p.y - s.lineStartPosition.y == -t)
             || (s.phase == SecondLineMovement && p.x - s.lineStartPosition.x == -t)
             || (s.phase == ThirdLineMovement && p.y - s.lineStartPosition.y == t)
    ensures Step(s, p, true, t) == Outcome(s.(previousPosition := p), [])
  {
  }

  /** Off-axis drift never decides cancellation in the first, second and last legs: two
      samples that agree on the leg's own axis cancel alike. */
  lemma CancelIgnoresOffAxis(s: GestureState, p: Vector2, q: Vector2, t: real)
    requires || (s.phase in {FirstLineMovement, LastLineMovement} && p.y == q.y)
             || (s.phase == SecondLineMovement && p.x == q.x)
    ensures (Canceled in Step(s, p, true, t).signals) == (Canceled in Step(s, q, true, t).signals)
  {
  }

  /** Once an attempt has started, a step of at least `t` across the leg's axis between two
      samples never advances and never sends `Performed`; it cancels only when the sample has
      gone more than `t` the wrong way along the leg's own axis. */
  lemma OffAxisStepOnlyBlocks(s: GestureState, p: Vector2, t: real)
    requires s.phase != None
    requires s.phase == SecondLineMovement ==> Abs(p.y - s.previousPosition.y) >= t
    requires s.phase != SecondLineMovement ==> Abs(p.x - s.previousPosition.x) >= t
    ensures var backtracks :=
        if s.phase == FirstLineMovement then p.y - s.lineStartPosition.y > t
        else if s.phase == SecondLineMovement then p.x - s.lineStartPosition.x > t
        else p.y - s.lineStartPosition.y < -t;
      Step(s, p, true, t) ==
        Outcome(s.(previousPosition := p), if backtracks then [Canceled] else [])
  {
  }

  /** A sample far off the leg's axis only blocks the advance: in the first or second leg, a
      jump of at least `t` across the leg, however large, neither advances nor cancels as
      long as the sample is not more than `t` back past the leg start. */
  lemma DiagonalNoiseDoesNotCancel(s: GestureState, p: Vector2, t: real)
    requires || (&& s.phase == FirstLineMovement
                 && p.y - s.lineStartPosition.y <= t
                 && Abs(p.x - s.previousPosition.x) >= t)
             || (&& s.phase == SecondLineMovement
                 && p.x - s.lineStartPosition.x <= t
                 && Abs(p.y - s.previousPosition.y) >= t)
    ensures Step(s, p, true, t) == Outcome(s.(previousPosition := p), [])
  {
  }

  // ---------------------------------------------------------------------------
  // Runs of samples

  /** Running two batches one after the other is running their concatenation, for any
      transition. */
  lemma {:induction false} FoldAppend(next: (GestureState, Vector2) -> Outcome, s: GestureState,
                                      a: seq<Vector2>, b: seq<Vector2>)
    ensures var first := Fold(next, s, a);
      Fold(next, s, a + b) == Trace(Fold(next, first.state, b).state, first.signals + Fold(next, first.state, b).signals)
    decreases |a|
  {
    if a == [] {
      assert a + b == b;
    } else {
      assert (a + b)[0] == a[0];
      assert (a + b)[1..] == a[1..] + b;
      FoldAppend(next, next(s, a[0]).state, a[1..], b);
    }
  }

  /** `FoldAppend` for the recognizer's own transition. */
  lemma RunAppend(s: GestureState, a: seq<Vector2>, b: seq<Vector2>, t: real)
    ensures var first := Run(s, a, t);
      Run(s, a + b, t) == Trace(Run(first.state, b, t).state, first.signals + Run(first.state, b, t).signals)
  {
    FoldAppend(Actuated(t), s, a, b);
  }

  /** Composes one step with the run that follows it. */
  lemma RunStep(s: GestureState, p: Vector2, rest: seq<Vector2>, t: real, first: Outcome, tail: Trace)
    requires Step(s, p, true, t) == first
    requires Run(first.state, rest, t) == tail
    ensures Run(s, [p] + rest, t) == Trace(tail.state, [first.signals] + tail.signals)
  {
  }

  /** The signals of the `k`-th sample of a run are those `Step` sends from the state the
      first `k` samples lead to. */
  lemma RunAt(s: GestureState, samples: seq<Vector2>, t: real, k: nat)
    requires k < |samples|
    ensures Run(s, samples, t).signals[k] == Step(Run(s, samples[..k], t).state, samples[k], true, t).signals
  {
    var prefix := Run(s, samples[..k], t);
    assert samples == samples[..k] + samples[k..];
    RunAppend(s, samples[..k], samples[k..], t);
    assert samples[k..][0] == samples[k];
    assert Run(s, samples, t).signals[k] == Run(prefix.state, samples[k..], t).signals[0];
  }

  /** `Performed` needs the four legs to have been entered one sample at a time: from a
      state of rank `n` it cannot be sent before the `(4 - n)`-th further sample. */
  lemma PerformedNeedsAllLegs(s: GestureState, samples: seq<Vector2>, t: real, k: nat)
    requires k < |samples|
    requires Performed in Run(s, samples, t).signals[k]
    ensures Rank(s.phase) + k >= 4
  {
    RunAt(s, samples, t, k);
  }

  /** So from a fresh recognizer a rectangle takes at least five samples. */
  lemma PerformedNeedsFiveSamples(samples: seq<Vector2>, t: real, k: nat)
    requires k < |samples|
    requires Performed in Run(Initial, samples, t).signals[k]
    ensures k >= 4
  {
    PerformedNeedsAllLegs(Initial, samples, t, k);
  }

  /** The first three sides of an exact rectangle, right by `w`, down by `h`, left by `w`,
      from a `None` state whose previous sample is the corner `o`: started, then two legs
      finished, with the gesture start at `o`. */
  lemma RectangleOpening(s: GestureState, w: real, h: real, t: real)
    requires s.phase == None && t > 0.0 && w > t && h > t
    ensures var o := s.previousPosition;
      var p1, p2, p3 := Vector2(o.x + w, o.y), Vector2(o.x + w, o.y - h), Vector2(o.x, o.y - h);
      Run(s, [p1, p2, p3], t) == Trace(GestureState(ThirdLineMovement, p3, p2, o), [[Started], [], []])
  {
    var o := s.previousPosition;
    var p1, p2, p3 := Vector2(o.x + w, o.y), Vector2(o.x + w, o.y - h), Vector2(o.x, o.y - h);
    var s1 := GestureState(FirstLineMovement, p1, o, o);
    var s2 := GestureState(SecondLineMovement, p2, p1, o);
    var s3 := GestureState(ThirdLineMovement, p3, p2, o);
    RunStep(s2, p3, [], t, Outcome(s3, []), Trace(s3, []));
    RunStep(s1, p2, [p3], t, Outcome(s2, []), Trace(s3, [[]]));
    RunStep(s, p1, [p2, p3], t, Outcome(s1, [Started]), Trace(s3, [[], []]));
  }

  /** The last side of an exact rectangle: back up to the start `o`, then one more sample
      there, from the state `RectangleOpening` leaves. */
  lemma RectangleClosing(o: Vector2, w: real, h: real, t: real)
    requires t > 0.0 && w > t && h > t
    ensures var p2, p3 := Vector2(o.x + w, o.y - h), Vector2(o.x, o.y - h);
      Run(GestureState(ThirdLineMovement, p3, p2, o), [o, o], t)
        == Trace(GestureState(LastLineMovement, o, p3, o), [[], [Performed]])
  {
    var p2, p3 := Vector2(o.x + w, o.y - h), Vector2(o.x, o.y - h);
    var s3 := GestureState(ThirdLineMovement, p3, p2, o);
    var s4 := GestureState(LastLineMovement, o, p3, o);
    RunStep(s4, o, [], t, Outcome(s4, [Performed]), Trace(s4, []));
    RunStep(s3, o, [o], t, Outcome(s4, []), Trace(s4, [[Performed]]));
  }

  /** Any exact rectangle, right by `w`, down by `h`, left by `w`, up by `h` and one more
      sample at the start point, traced from a `None` state whose previous sample is the
      corner, is started and then performed. */
  lemma RectangleIsPerformed(s: GestureState, w: real, h: real, t: real)
    requires s.phase == None && t > 0.0 && w > t && h > t
    ensures var o := s.previousPosition;
      var samples := [Vector2(o.x + w, o.y), Vector2(o.x + w, o.y - h), Vector2(o.x, o.y - h), o, o];
      && Run(s, samples, t).signals == [[Started], [], [], [], [Performed]]
      && Run(s, samples, t).state.phase == LastLineMovement
  {
    var o := s.previousPosition;
    var p1, p2, p3 := Vector2(o.x + w, o.y), Vector2(o.x + w, o.y - h), Vector2(o.x, o.y - h);
    RectangleOpening(s, w, h, t);
    RectangleClosing(o, w, h, t);
    RunAppend(s, [p1, p2, p3], [o, o], t);
    assert [p1, p2, p3] + [o, o] == [p1, p2, p3, o, o];
  }

  /** Starting the same rectangle with a sample at the corner itself: a fresh recognizer's
      previous position is already the corner, so that sample cancels, and coming back to
      the corner only enters the last leg; no `Performed` is sent in five samples. */
  lemma CornerFirstTrace(w: real, h: real, t: real)
    requires t > 0.0 && w > t && h > t
    ensures var z := Zero;
      var samples := [z, Vector2(w, 0.0), Vector2(w, -h), Vector2(0.0, -h), z];
      var r := Run(Initial, samples, t);
      r.signals == [[Canceled], [Started], [], [], []] && r.state.phase == LastLineMovement
  {
    var z, p1, p2, p3 := Zero, Vector2(w, 0.0), Vector2(w, -h), Vector2(0.0, -h);
    var s3 := GestureState(ThirdLineMovement, p3, p2, z);
    var s4 := GestureState(LastLineMovement, z, p3, z);
    RectangleOpening(Initial, w, h, t);
    RunStep(s3, z, [], t, Outcome(s4, []), Trace(s4, []));
    RunAppend(Initial, [p1, p2, p3], [z], t);
    assert [p1, p2, p3] + [z] == [p1, p2, p3, z];
    RunStep(Initial, z, [p1, p2, p3, z], t, Outcome(Initial, [Canceled]), Trace(s4, [[Started], [], [], []]));
    assert [z] + [p1, p2, p3, z] == [z, p1, p2, p3, z];
  }

  /** An upward third leg whose first sample jumps right by `w/2`, comes back to `t/2` and then
      to the start's x: only the last sample finishes the leg, which then starts at `(t/2, 2h)`. */
  lemma JitteryThirdLeg(w: real, h: real, t: real)
    requires t > 0.0 && w >= 3.0 * t && h > t
    ensures var p2, p3 := Vector2(w, -h), Vector2(0.0, -h);
      var a, b, c := Vector2(w / 2.0, 2.0 * h), Vector2(t / 2.0, 2.0 * h), Vector2(0.0, 2.0 * h);
      Run(GestureState(ThirdLineMovement, p3, p2, Zero), [a, b, c], t).state
        == GestureState(LastLineMovement, c, b, Zero)
  {
    var p2, p3 := Vector2(w, -h), Vector2(0.0, -h);
    var a, b, c := Vector2(w / 2.0, 2.0 * h), Vector2(t / 2.0, 2.0 * h), Vector2(0.0, 2.0 * h);
    var s3 := GestureState(ThirdLineMovement, p3, p2, Zero);
    var s4 := GestureState(ThirdLineMovement, a, p2, Zero);
    var s5 := GestureState(ThirdLineMovement, b, p2, Zero);
    var s6 := GestureState(LastLineMovement, c, b, Zero);
    RunStep(s5, c, [], t, Outcome(s6, []), Trace(s6, []));
    RunStep(s4, b, [c], t, Outcome(s5, []), Trace(s6, [[]]));
    RunStep(s3, a, [b, c], t, Outcome(s4, []), Trace(s6, [[], []]));
  }

  /** `Performed` does not end the gesture: the same sample once more sends `Performed`
      again and leaves the state as it was. */
  lemma PerformedRepeats(s: GestureState, p: Vector2, t: real)
    requires s.phase == LastLineMovement && Performed in Step(s, p, true, t).signals
    ensures var r := Step(s, p, true, t);
      var again := Step(r.state, p, true, t);
      Performed in again.signals && again.state == r.state
  {
  }

  /** `Performed` and `Canceled` on one sample is reachable from a fresh recognizer: after
      the opening three sides, a jittery upward leg makes the last leg start at `(t/2, 2h)`,
      so returning to the gesture start is both "near the start" and "more than `t` below the
      leg start". */
  lemma PerformedAndCanceledTogether(w: real, h: real, t: real)
    requires t > 0.0 && w >= 3.0 * t && h > t
    ensures var samples := [Vector2(w, 0.0), Vector2(w, -h), Vector2(0.0, -h),
                            Vector2(w / 2.0, 2.0 * h), Vector2(t / 2.0, 2.0 * h), Vector2(0.0, 2.0 * h),
                            Zero];
      Run(Initial, samples, t).signals[6] == [Performed, Canceled]
  {
    var z, p1, p2, p3 := Zero, Vector2(w, 0.0), Vector2(w, -h), Vector2(0.0, -h);
    var a, b, c := Vector2(w / 2.0, 2.0 * h), Vector2(t / 2.0, 2.0 * h), Vector2(0.0, 2.0 * h);
    var samples := [p1, p2, p3, a, b, c, z];
    RectangleOpening(Initial, w, h, t);
    JitteryThirdLeg(w, h, t);
    RunAppend(Initial, [p1, p2, p3], [a, b, c], t);
    assert samples[..6] == [p1, p2, p3] + [a, b, c];
    assert Step(GestureState(LastLineMovement, c, b, z), z, true, t).signals == [Performed, Canceled];
    RunAt(Initial, samples, t, 6);
  }

  /** The rectangle from the origin with threshold 1: started on the first sample,
      performed on the fifth. */
  lemma UnitRectangleTrace()
    ensures Run(Initial, [Vector2(10.0, 0.0), Vector2(10.0, -10.0), Vector2(0.0, -10.0),
                          Vector2(0.0, 0.0), Vector2(0.0, 0.0)], 1.0).signals
            == [[Started], [], [], [], [Performed]]
  {
    RectangleIsPerformed(Initial, 10.0, 10.0, 1.0);
  }
}

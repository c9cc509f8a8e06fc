/** The pure transition function of the "right, down, left, up" rectangle gesture
    recognizer: one pointer sample in, the new recognizer state and the signals sent to
    the host out. The class in module Interactions is proved to perform exactly `Step`. */
module RectangleGesture {
  import opened Vectors

  /** Which leg of the rectangle the recognizer is waiting to see finished. */
  datatype Phase =
    | None
    | FirstLineMovement
    | SecondLineMovement
    | ThirdLineMovement
    | LastLineMovement

  /** Position of a phase in the fixed order None < First < Second < Third < Last. */
  function Rank(p: Phase): (n: nat)
    ensures n <= 4
    ensures n == 0 <==> p == None
    ensures n == 4 <==> p == LastLineMovement
  {
    match p
    case None => 0
    case FirstLineMovement => 1
    case SecondLineMovement => 2
    case ThirdLineMovement => 3
    case LastLineMovement => 4
  }

  /** The notifications the recognizer sends to the host interaction context. */
  datatype Signal = Started | Canceled | Performed

  /** Everything the recognizer remembers between two samples. */
  datatype GestureState = GestureState(
    phase: Phase,
    previousPosition: Vector2,    // the last sample seen
    lineStartPosition: Vector2,   // where the current leg began
    startPosition: Vector2        // where the whole rectangle began
  )

  /** The state of a freshly created or reset recognizer. */
  const Initial: GestureState := GestureState(None, Zero, Zero, Zero)

  /** The result of processing one sample. */
  datatype Outcome = Outcome(state: GestureState, signals: seq<Signal>)

  /** The threshold actually used: the configured one when it is positive, the
      process-wide default otherwise. */
  function SloppinessOrDefault(sloppinessThreshold: real, defaultThreshold: real): (t: real)
    ensures sloppinessThreshold > 0.0 ==> t == sloppinessThreshold
    ensures sloppinessThreshold <= 0.0 ==> t == defaultThreshold
    ensures defaultThreshold > 0.0 ==> t > 0.0
  {
    if sloppinessThreshold > 0.0 then sloppinessThreshold else defaultThreshold
  }

  /** The negated effective threshold, used for "moved far enough the negative way". */
  function SloppinessNegativeOrDefault(sloppinessThreshold: real, defaultThreshold: real): (n: real)
    ensures n + SloppinessOrDefault(sloppinessThreshold, defaultThreshold) == 0.0
    ensures defaultThreshold > 0.0 ==> n < 0.0
  {
    SloppinessOrDefault(sloppinessThreshold, defaultThreshold) * (-1.0)
  }

  /** A rightward first move begins a gesture attempt: both the leg and the gesture
      start where the previous sample was. */
  function StartRecognition(s: GestureState): (r: GestureState)
    ensures r.phase == FirstLineMovement
    ensures r.previousPosition == s.previousPosition
    ensures r.lineStartPosition == r.startPosition == s.previousPosition
  {
    GestureState(FirstLineMovement, s.previousPosition, s.previousPosition, s.previousPosition)
  }

  /** Finishing a leg: move to `next`, and the new leg starts at the previous sample;
      the gesture start is kept. */
  function BeginLine(s: GestureState, next: Phase): (r: GestureState)
    ensures r.phase == next
    ensures r.lineStartPosition == s.previousPosition
    ensures r.previousPosition == s.previousPosition && r.startPosition == s.startPosition
  {
    s.(phase := next, lineStartPosition := s.previousPosition)
  }

  /** One call of `Process` with sample `position`, whether the control is actuated, and
      effective threshold `t`. The `if`s of each phase are independent, so in the last
      leg both `Performed` and `Canceled` can be sent, in that order. */
  function Step(s: GestureState, position: Vector2, actuated: bool, t: real): (r: Outcome)
    // an inactive control changes nothing and signals nothing
    ensures !actuated ==> r.state == s && r.signals == []
    // an actuated sample is always remembered as the previous one
    ensures actuated ==> r.state.previousPosition == position
    // the phase stays or moves exactly one step forward
    ensures Rank(r.state.phase) == Rank(s.phase) || Rank(r.state.phase) == Rank(s.phase) + 1
    // a new leg starts at the previous sample; otherwise both starts are kept
    ensures r.state.phase != s.phase ==> r.state.lineStartPosition == s.previousPosition
    ensures r.state.phase == s.phase ==> r.state.lineStartPosition == s.lineStartPosition
    ensures r.state.startPosition ==
              if s.phase == None && r.state.phase == FirstLineMovement then s.previousPosition
              else s.startPosition
    // signals
    ensures Started in r.signals <==> s.phase == None && r.state.phase == FirstLineMovement
    ensures Canceled in r.signals ==> r.state.phase == s.phase
    ensures Performed in r.signals ==> s.phase == r.state.phase == LastLineMovement
    ensures |r.signals| <= 2
  {
    if !actuated then Outcome(s, [])
    else
      var absDiffX := AbsDiffX(position, s.previousPosition);
      var absDiffY := AbsDiffY(position, s.previousPosition);
      var startPositionDiffX := DiffX(position, s.lineStartPosition);
      var startPositionDiffY := DiffY(position, s.lineStartPosition);
      var negT := t * (-1.0);
      match s.phase
      case None =>
        if DiffX(position, s.previousPosition) > 0.0 && absDiffY <= t then
          Outcome(StartRecognition(s).(previousPosition := position), [Started])
        else
          Outcome(s.(previousPosition := position), [Canceled])
      case FirstLineMovement =>
        var s' := if startPositionDiffY < negT && absDiffX < t then BeginLine(s, SecondLineMovement) else s;
        Outcome(s'.(previousPosition := position),
                if startPositionDiffY > t then [Canceled] else [])
      case SecondLineMovement =>
        var s' := if startPositionDiffX < negT && absDiffY < t then BeginLine(s, ThirdLineMovement) else s;
        Outcome(s'.(previousPosition := position),
                if startPositionDiffX > t then [Canceled] else [])
      case ThirdLineMovement =>
        var up := startPositionDiffY > t && absDiffX < t;
        var closes := AbsDiffX(position, s.startPosition) < t;
        var s' := if up && closes then BeginLine(s, LastLineMovement) else s;
        Outcome(s'.(previousPosition := position),
                (if up && !closes then [Canceled] else []) +
                (if startPositionDiffY < negT then [Canceled] else []))
      case LastLineMovement =>
        var nearStart := AbsDiffY(position, s.startPosition) < t &&
                         AbsDiffX(position, s.startPosition) < t &&
                         absDiffX < t;
        Outcome(s.(previousPosition := position),
                (if nearStart then [Performed] else []) +
                (if startPositionDiffY < negT then [Canceled] else []))
  }

  /** The states and per-sample signals after a run of actuated samples. */
  datatype Trace = Trace(state: GestureState, signals: seq<seq<Signal>>)

  /** Feeds `samples` one by one, in order, to the transition `next`. */
  function Fold(next: (GestureState, Vector2) -> Outcome, s: GestureState, samples: seq<Vector2>): (r: Trace)
    ensures |r.signals| == |samples|
    decreases |samples|
  {
    if samples == [] then Trace(s, [])
    else
      var first := next(s, samples[0]);
      var rest := Fold(next, first.state, samples[1..]);
      Trace(rest.state, [first.signals] + rest.signals)
  }

  /** A transition that never moves the phase back and moves it at most one step forward
      keeps doing so over a whole run. */
  lemma {:induction false} FoldRank(next: (GestureState, Vector2) -> Outcome, s: GestureState, samples: seq<Vector2>)
    requires forall g: GestureState, p: Vector2 ::
      Rank(g.phase) <= Rank(next(g, p).state.phase) <= Rank(g.phase) + 1
    ensures Rank(s.phase) <= Rank(Fold(next, s, samples).state.phase) <= Rank(s.phase) + |samples|
    decreases |samples|
  {
    if samples != [] {
      FoldRank(next, next(s, samples[0]).state, samples[1..]);
    }
  }

  /** `Step` on an actuated sample with effective threshold `t`. */
  function Actuated(t: real): (next: (GestureState, Vector2) -> Outcome)
    ensures forall g: GestureState, p: Vector2 :: next(g, p) == Step(g, p, true, t)
  {
    (g: GestureState, p: Vector2) => Step(g, p, true, t)
  }

  /** Feeds actuated `samples` one by one, in order, to the recognizer: the phase never
      goes back and advances at most once per sample, so it never returns to `None`. */
  function Run(s: GestureState, samples: seq<Vector2>, t: real): (r: Trace)
    ensures |r.signals| == |samples|
    ensures Rank(s.phase) <= Rank(r.state.phase) <= Rank(s.phase) + |samples|
  {
    FoldRank(Actuated(t), s, samples);
    Fold(Actuated(t), s, samples)
  }
}

/** The recognizer as the host sees it: an object whose fields `Process` and `Reset`
    update in place. Every method is proved to do exactly what the pure model in module
    RectangleGesture says. */
module Interactions {
  import opened Vectors
  import opened RectangleGesture

  /** Performs the action when the bound pointer traces a right-down-left-up rectangle. */
  class RectangleGestureInteraction {
    /** Tolerance, in pointer pixels, for deviations from straight axis-aligned legs;
        a non-positive value means "use the process-wide default". */
    var sloppinessThreshold: real
    var previousPosition: Vector2
    var lineStartPosition: Vector2
    var startPosition: Vector2
    var currentPhase: Phase

    /** The recognizer's state as a value. */
    function State(): GestureState
      reads this
    {
      GestureState(currentPhase, previousPosition, lineStartPosition, startPosition)
    }

    /** A new interaction: all positions zero, no phase. */
    constructor (sloppinessThreshold: real)
      ensures this.sloppinessThreshold == sloppinessThreshold
      ensures State() == Initial
    {
      this.sloppinessThreshold := sloppinessThreshold;
      previousPosition := Zero;
      lineStartPosition := Zero;
      startPosition := Zero;
      currentPhase := None;
    }

    /** Begins a gesture attempt at the previous sample. */
    method StartRecognition()
      modifies this
      ensures State() == RectangleGesture.StartRecognition(old(State()))
      ensures sloppinessThreshold == old(sloppinessThreshold)
    {
      currentPhase := FirstLineMovement;
      lineStartPosition := previousPosition;
      startPosition := previousPosition;
    }

    /** Handles one sample of the bound control and returns, in order, the signals sent
        to the host; `defaultThreshold` is the process-wide default sloppiness. */
    method Process(position: Vector2, actuated: bool, defaultThreshold: real) returns (signals: seq<Signal>)
      modifies this
      ensures var r := Step(old(State()), position, actuated,
                            SloppinessOrDefault(old(sloppinessThreshold), defaultThreshold));
        State() == r.state && signals == r.signals
      ensures sloppinessThreshold == old(sloppinessThreshold)
      ensures !actuated ==> State() == old(State()) && signals == []
      ensures actuated ==> previousPosition == position
    {
      signals := [];
      if actuated {
        var t := SloppinessOrDefault(sloppinessThreshold, defaultThreshold);
        var negT := SloppinessNegativeOrDefault(sloppinessThreshold, defaultThreshold);

        var absDiffX := AbsDiffX(position, previousPosition);
        var absDiffY := AbsDiffY(position, previousPosition);

        var startPositionDiffX := DiffX(position, lineStartPosition);
        var startPositionDiffY := DiffY(position, lineStartPosition);

        match currentPhase {
          case None =>
            var diffX := DiffX(position, previousPosition);
            // a move to the right that is not too steep
            if diffX > 0.0 && absDiffY <= t {
              StartRecognition();
              signals := signals + [Started];
            } else {
              signals := signals + [Canceled];
            }

          case FirstLineMovement =>
            // moved down far enough while staying horizontally still
            if startPositionDiffY < negT && absDiffX < t {
              currentPhase := SecondLineMovement;
              lineStartPosition := previousPosition;
            }
            // moving up instead
            if startPositionDiffY > t {
              signals := signals + [Canceled];
            }

          case SecondLineMovement =>
            // moved left far enough while staying vertically still
            if startPositionDiffX < negT && absDiffY < t {
              currentPhase := ThirdLineMovement;
              lineStartPosition := previousPosition;
            }
            // moving right instead
            if startPositionDiffX > t {
              signals := signals + [Canceled];
            }

          case ThirdLineMovement =>
            // moved up far enough while staying horizontally still
            if startPositionDiffY > t && absDiffX < t {
              // and back on the vertical line of the gesture start
              if AbsDiffX(position, startPosition) < t {
                currentPhase := LastLineMovement;
                lineStartPosition := previousPosition;
              } else {
                signals := signals + [Canceled];
              }
            }
            // moving down instead
            if startPositionDiffY < negT {
              signals := signals + [Canceled];
            }

          case LastLineMovement =>
            // back near the gesture start
            if AbsDiffY(position, startPosition) < t &&
               AbsDiffX(position, startPosition) < t &&
               absDiffX < t {
              signals := signals + [Performed];
            }
            // moving down instead
            if startPositionDiffY < negT {
              signals := signals + [Canceled];
            }
        }

        previousPosition := position;
      }
    }

    /** Returns to the initial state, whatever the current one; so resetting twice is
        resetting once. The configured threshold is kept. */
    method Reset()
      modifies this
      ensures State() == Initial
      ensures sloppinessThreshold == old(sloppinessThreshold)
    {
      currentPhase := None;
      lineStartPosition := Zero;
      previousPosition := Zero;
      startPosition := Zero;
    }
  }
}

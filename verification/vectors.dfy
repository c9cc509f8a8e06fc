/** Pointer positions and the coordinate differences the rectangle recognizer compares
    against its sloppiness threshold. Coordinates are reals: the IEEE float rounding of
    the C# code is not modelled. */
module Vectors {

  /** An immutable 2-D pointer position. */
  datatype Vector2 = Vector2(x: real, y: real)

  /** The zero vector, the value every remembered position starts from and is reset to. */
  const Zero: Vector2 := Vector2(0.0, 0.0)

  /** Absolute value of a real (the model of `Mathf.Abs`). */
  function Abs(v: real): (r: real)
    ensures r >= 0.0
    ensures r == v || r == -v
  {
    if v < 0.0 then -v else v
  }

  /** Signed horizontal displacement from `b` to `a`. */
  function DiffX(a: Vector2, b: Vector2): (r: real)
    ensures b.x + r == a.x
  {
    a.x - b.x
  }

  /** Signed vertical displacement from `b` to `a`. */
  function DiffY(a: Vector2, b: Vector2): (r: real)
    ensures b.y + r == a.y
  {
    a.y - b.y
  }

  /** Horizontal distance between `a` and `b`. */
  function AbsDiffX(a: Vector2, b: Vector2): (r: real)
    ensures r >= 0.0
    ensures b.x + r == a.x || a.x + r == b.x
  {
    Abs(DiffX(a, b))
  }

  /** Vertical distance between `a` and `b`. */
  function AbsDiffY(a: Vector2, b: Vector2): (r: real)
    ensures r >= 0.0
    ensures b.y + r == a.y || a.y + r == b.y
  {
    Abs(DiffY(a, b))
  }
}

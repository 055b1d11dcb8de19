/** Geometry of the image layer and the overlays: rectangles, the rotation the
    image is drawn with, centring, and the choice between actual and scaled size. */
module Geometry {

  /** An SDL rectangle: a position and a size in device pixels. */
  datatype Rect = Rect(x: int, y: int, w: nat, h: nat)

  /** The four orientations an image can be shown in. */
  datatype RotAngle = Up | Right | Down | Left

  /** The next orientation in declaration order: one quarter turn clockwise. */
  function Clockwise(r: RotAngle): RotAngle
  {
    match r
    case Up => Right
    case Right => Down
    case Down => Left
    case Left => Up
  }

  /** The angle, in degrees clockwise, that `render_image` hands to `copy_ex`.
      Only Up draws the image unrotated, and every angle is a quarter turn. */
  function RotationDegrees(r: RotAngle): (d: int)
    ensures 0 <= d < 360 && d % 90 == 0
    ensures d == 0 <==> r == Up
  {
    match r
    case Up => 0
    case Right => 90
    case Down => 180
    case Left => 270
  }

  /** The angle agrees with quarter turns: turning the image clockwise once adds
      90 degrees (modulo a full turn), so the four orientations get four
      distinct angles. */
  lemma RotationFollowsQuarterTurns(r: RotAngle)
    ensures RotationDegrees(Clockwise(r)) == (RotationDegrees(r) + 90) % 360
    ensures forall q :: RotationDegrees(q) == RotationDegrees(r) ==> q == r
  {
  }

  /** `default_actual_size`: the image starts out scaled (rather than at its
      actual size) exactly when it would not fit inside the destination.
      The source compares the `x` and `y` fields of the two rectangles, which its
      caller fills with the dimensions. */
  predicate Fits(src: Rect, dest: Rect)
  {
    src.x <= dest.x && src.y <= dest.y
  }

  function DefaultActualSize(src: Rect, dest: Rect): (scaled: bool)
    ensures scaled <==> !Fits(src, dest)
    ensures scaled ==> forall bigger: Rect :: bigger.x >= src.x && bigger.y >= src.y ==> !Fits(bigger, dest)
  {
    src.x > dest.x || src.y > dest.y
  }

  /** The offset that centres a span of length `inner` inside one of length
      `outer`: `(outer as f32 / 2.0 - inner as f32 / 2.0) as i32`, where the
      cast truncates toward zero. The two margins differ by at most one pixel. */
  function Center(outer: nat, inner: nat): (c: int)
    ensures outer >= inner ==> 0 <= c && c + c <= outer - inner <= c + c + 1
    ensures outer < inner ==> c <= 0 && c + c - 1 <= outer - inner <= c + c
  {
    var d := outer - inner;
    if d >= 0 then d / 2 else -((-d) / 2)
  }
}

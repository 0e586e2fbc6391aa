/** Axis-aligned rectangles: every target, the bonus box and the cursor block.
    Positions are centres; y grows upwards (the projection is bottom-to-top and the
    mouse y is flipped before use), so the top edge is y + h/2. */
module Shapes {

  /** The window is 800 x 600. */
  const ScreenWidth: real := 800.0
  const ScreenHeight: real := 600.0

  /** The colours the game logic assigns (their RGB values are rendering detail). */
  datatype Color = White | Yellow | Gold | BrickRed | Orange | DarkBlue | Cyan | Purple | Magenta

  /** Centre (x, y), size (w, h) and colour. */
  datatype Rect = Rect(x: real, y: real, w: real, h: real, color: Color)
  {
    function Left(): real { x - w / 2.0 }
    function Right(): real { x + w / 2.0 }
    function Bottom(): real { y - h / 2.0 }
    function Top(): real { y + h / 2.0 }

    /** Relative translation (`moveX` / `moveY`). */
    function MoveX(dx: real): Rect { this.(x := x + dx) }
    function MoveY(dy: real): Rect { this.(y := y + dy) }
  }

  /** The overlap test of the rectangle primitive, taken as a closed box test:
      the two boxes meet on both axes, touching edges included. */
  predicate Overlapping(a: Rect, b: Rect)
  {
    a.Left() <= b.Right() && b.Left() <= a.Right() &&
    a.Bottom() <= b.Top() && b.Bottom() <= a.Top()
  }
}

/**
 * Collision boxes on whole pixels. Two boxes collide when both have a
 * positive size and their interiors overlap; the left and top edges belong
 * to a box, the right and bottom edges do not.
 */
module Collision {
  import opened Player

  datatype Rect = Rect(left: int, top: int, width: int, height: int) {
    function Right(): int { left + width }
    function Bottom(): int { top + height }
  }

  predicate Overlaps(a: Rect, b: Rect) {
    && a.width > 0 && a.height > 0 && b.width > 0 && b.height > 0
    && a.left < b.Right() && b.left < a.Right()
    && a.top < b.Bottom() && b.top < a.Bottom()
  }

  lemma OverlapsSymmetric(a: Rect, b: Rect)
    ensures Overlaps(a, b) <==> Overlaps(b, a)
  {
  }

  predicate Contains(r: Rect, px: int, py: int) {
    r.left <= px < r.Right() && r.top <= py < r.Bottom()
  }

  /** A shared pixel: the point-wise meaning of an overlap. */
  lemma OverlapsMeansSharedPixel(a: Rect, b: Rect)
    ensures Overlaps(a, b) <==> exists px, py :: Contains(a, px, py) && Contains(b, px, py)
  {
    if Overlaps(a, b) {
      var px := if a.left >= b.left then a.left else b.left;
      var py := if a.top >= b.top then a.top else b.top;
      assert Contains(a, px, py) && Contains(b, px, py);
    }
  }

  /** The ship's forgiving hit box: 80% of its radius of 15 on each side of its centre. */
  const ShipHalfBox := 12
  const ShipSize := 30

  /** The box tested against pipes and gates. */
  function ShipBox(y: int): (r: Rect)
    ensures r.width == r.height == 2 * ShipHalfBox
    ensures r.left + ShipHalfBox == StartX && r.top + ShipHalfBox == y
  {
    Rect(StartX - ShipHalfBox, y - ShipHalfBox, 2 * ShipHalfBox, 2 * ShipHalfBox)
  }

  /** The box tested against enemies and power-ups: the ship's full size, anchored at its centre. */
  function ShipSquare(y: int): (r: Rect)
    ensures r.left == StartX && r.top == y && r.width == r.height == ShipSize
  {
    Rect(StartX, y, ShipSize, ShipSize)
  }

  /** An enemy's or a power-up's box: 80% of its size on each side of its centre. */
  function CentredBox(x: int, y: int, half: int): (r: Rect)
    ensures r.left + half == x && r.top + half == y && r.width == r.height == 2 * half
  {
    Rect(x - half, y - half, 2 * half, 2 * half)
  }

  const EnemyHalfBox := 16
  const PowerUpHalfBox := 16

  function GateBox(x: int, y: int, width: int, height: int): Rect {
    Rect(x, y, width, height)
  }

  /** The upper pipe runs from the top of the screen to the gap. */
  function TopPipe(x: int, width: int, gapSize: int, gapY: int): Rect {
    Rect(x, 0, width, gapY - gapSize)
  }

  /** The lower pipe starts below the gap, a full screen tall. */
  function BottomPipe(x: int, width: int, gapSize: int, gapY: int): Rect {
    Rect(x, gapY + gapSize, width, 600)
  }

  /** The ship at height `y` collides with the pipe pair at `x`. */
  function CheckCollision(y: int, x: int, width: int, gapSize: int, gapY: int): (hit: bool)
    ensures hit ==> width > 0 && StartX - ShipHalfBox < x + width && x < StartX + ShipHalfBox
    // for a ship on screen and a pipe whose upper part is at least a pixel
    // tall, a collision happens exactly when the ship is level with the pipe
    // and its box pokes out of the gap, above or below
    ensures 0 <= y <= 585 && width > 0 && gapY - gapSize >= 1 && gapSize >= 0 ==>
              (hit <==>
                && StartX - ShipHalfBox < x + width && x < StartX + ShipHalfBox
                && (y - ShipHalfBox < gapY - gapSize || y + ShipHalfBox > gapY + gapSize))
  {
    Overlaps(ShipBox(y), TopPipe(x, width, gapSize, gapY))
    || Overlaps(ShipBox(y), BottomPipe(x, width, gapSize, gapY))
  }

  /** A power-up whose box has scrolled past the left edge cannot touch the ship. */
  lemma OffScreenPowerUpUntouchable(px: int, py: int, y: int, size: int)
    requires px + size < 0 && size >= PowerUpHalfBox
    ensures !Overlaps(ShipSquare(y), CentredBox(px, py, PowerUpHalfBox))
  {
  }
}

/** Viewport points and the selection rectangle (content/content.js, lines
    93, 143-150 and 165). */
module Geometry {

  /** A mouse position in viewport pixels (`clientX`, `clientY`). */
  datatype Point = Point(x: int, y: int)

  /** An axis-aligned rectangle; the pixels it covers are the columns
      `x .. x+w-1` and the rows `y .. y+h-1`. */
  datatype Rect = Rect(x: int, y: int, w: int, h: int) {
    predicate Covers(i: int, j: int) {
      x <= i < x + w && y <= j < y + h
    }

    /** The closed box reaches point `p` (its edges included). */
    predicate Reaches(p: Point) {
      x <= p.x <= x + w && y <= p.y <= y + h
    }
  }

  function Min(a: int, b: int): int {
    if a <= b then a else b
  }

  function Abs(a: int): nat {
    if a < 0 then -a else a
  }

  /** The rectangle between the anchor of a drag and the current mouse position.
      Its sides are non-negative, and each side runs exactly from one of the
      two points to the other: the rectangle is the smallest one reaching
      both. */
  function SelectionBetween(anchor: Point, p: Point): (r: Rect)
    ensures r.w >= 0 && r.h >= 0
    ensures (r.x == anchor.x && r.x + r.w == p.x) || (r.x == p.x && r.x + r.w == anchor.x)
    ensures (r.y == anchor.y && r.y + r.h == p.y) || (r.y == p.y && r.y + r.h == anchor.y)
  {
    Rect(Min(anchor.x, p.x), Min(anchor.y, p.y), Abs(anchor.x - p.x), Abs(anchor.y - p.y))
  }

  /** Any box reaching both points contains the selection: the selection is
      the tightest box around the anchor and the mouse position. */
  lemma SelectionIsTightest(anchor: Point, p: Point, b: Rect)
    requires b.Reaches(anchor) && b.Reaches(p)
    ensures var r := SelectionBetween(anchor, p);
            r.Reaches(anchor) && r.Reaches(p)
            && b.x <= r.x && r.x + r.w <= b.x + b.w && b.y <= r.y && r.y + r.h <= b.y + b.h
  {
  }

  /** The minimum size a selection needs to be kept: more than 10 pixels
      both wide and high. */
  predicate Commits(r: Rect) {
    r.w > 10 && r.h > 10
  }
}

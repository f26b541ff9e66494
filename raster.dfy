/** The annotation canvas: a width by height grid of cells holding the dimming
    layer, with strokes and text kept as a log of drawing commands laid over
    it (content/content.js, lines 103-120, 153-158 and 336-338). */
module Raster {
  import opened Wrappers
  import opened Geometry

  /** What the dimming layer holds at one pixel: nothing (the page shows
      through) or the semi-transparent tint. */
  datatype Cell = Clear | Tinted(colour: string)

  /** One drawing command issued on the canvas. A stroke is the whole current
      path stroked with the colour and width of the moment (round caps and
      joins); a text line is one `fillText` at a position that may be
      fractional. */
  datatype Ink =
    | Stroke(path: seq<Point>, colour: string, lineWidth: int)
    | TextLine(text: string, x: real, y: real, fontSize: int, fontFamily: string, colour: string)

  /** The dimming layer as `redrawCanvas` leaves it: the tint everywhere
      except inside the selection, which is clear. */
  function DimCell(tint: string, hole: Option<Rect>, i: int, j: int): Cell {
    if hole.Some? && hole.value.Covers(i, j) then Clear else Tinted(tint)
  }

  /** `fillRect`/`clearRect`: every cell of `r` that lies on the canvas
      becomes `c`, every other cell keeps its content. */
  method FillRect(a: array2<Cell>, r: Rect, c: Cell)
    modifies a
    ensures forall i, j :: 0 <= i < a.Length0 && 0 <= j < a.Length1 ==>
              a[i, j] == if r.Covers(i, j) then c else old(a[i, j])
  {
    var x0 := if r.x < 0 then 0 else r.x;
    var x1 := if r.x + r.w < a.Length0 then r.x + r.w else a.Length0;
    var y0 := if r.y < 0 then 0 else r.y;
    var y1 := if r.y + r.h < a.Length1 then r.y + r.h else a.Length1;
    var i := x0;
    while i < x1
      invariant x0 <= i
      invariant forall p, q :: 0 <= p < a.Length0 && 0 <= q < a.Length1 ==>
                  a[p, q] == if r.Covers(p, q) && p < i then c else old(a[p, q])
    {
      var j := y0;
      while j < y1
        invariant y0 <= j
        invariant forall p, q :: 0 <= p < a.Length0 && 0 <= q < a.Length1 ==>
                    a[p, q] == if r.Covers(p, q) && (p < i || (p == i && q < j)) then c else old(a[p, q])
      {
        a[i, j] := c;
        j := j + 1;
      }
      i := i + 1;
    }
  }
}

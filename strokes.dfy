/** Captured ink: the point records a gesture collects and the strokes built from them. */
module Strokes {

  /** One captured pointer position together with the tool settings live at capture time. */
  datatype Point = Point(x: int, y: int, color: string, size: int, brushType: string)

  /** A stroke is the ordered list of points of one gesture. */
  type Stroke = seq<Point>

  /** A position on the drawing surface; real so that midpoints are exact. */
  datatype Pos = Pos(x: real, y: real)

  /** Builds the record for a pointer event at (x, y) with the current tool settings. */
  function CreatePoint(x: int, y: int, color: string, size: int, brushType: string): (p: Point)
    ensures At(p) == Pos(x as real, y as real)
    ensures p.color == color && p.size == size && p.brushType == brushType
  {
    Point(x, y, color, size, brushType)
  }

  /** The position of a point on the surface. */
  function At(p: Point): Pos
  {
    Pos(p.x as real, p.y as real)
  }

  /** The positions of a list of points, in order. */
  function Coords(pts: seq<Point>): seq<Pos>
  {
    seq(|pts|, i requires 0 <= i < |pts| => At(pts[i]))
  }

  /** Coords maps each point on its own, so it distributes over concatenation. */
  lemma CoordsAppend(a: seq<Point>, b: seq<Point>)
    ensures Coords(a + b) == Coords(a) + Coords(b)
  {
  }

  /** The midpoint of two points. */
  function Mid(p: Point, q: Point): (m: Pos)
    ensures m.x - At(p).x == At(q).x - m.x
    ensures m.y - At(p).y == At(q).y - m.y
  {
    Pos((p.x + q.x) as real / 2.0, (p.y + q.y) as real / 2.0)
  }
}

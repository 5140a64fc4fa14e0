/**
 * The 2D drawing context, seen as an ordered log of the commands the renderers issue,
 * together with a small interpreter for the part of the context state that the
 * commands change and that decides how a stroked path looks.
 */
module Canvas {
  import opened Strokes

  /** The drawing surface is fixed at 900 by 600. */
  const Width: int := 900
  const Height: int := 600

  datatype Cmd =
    | ClearRect(x: int, y: int, w: int, h: int)
    | SetFillStyle(fill: string)
    | FillRect(x: int, y: int, w: int, h: int)
    | SetStrokeStyle(style: string)
    | SetLineWidth(width: real)
    | SetLineCap(cap: string)
    | SetLineJoin(join: string)
    | SetAlpha(alpha: real)
    | BeginPath
    | MoveTo(to: Pos)
    | LineTo(to: Pos)
    | QuadTo(ctrl: Pos, to: Pos)
    | Stroke

  /** Commands that only build the current path: they change no context state and paint nothing. */
  predicate IsPathCmd(c: Cmd)
  {
    c.BeginPath? || c.MoveTo? || c.LineTo? || c.QuadTo?
  }

  predicate PathOnly(log: seq<Cmd>)
  {
    forall i :: 0 <= i < |log| ==> IsPathCmd(log[i])
  }

  /** The vertices of the paths in a log: the end point of every MoveTo, LineTo and QuadTo, in order. */
  function Vertices(log: seq<Cmd>): seq<Pos>
  {
    if log == [] then []
    else
      var rest := Vertices(log[1..]);
      match log[0]
      case MoveTo(p) => [p] + rest
      case LineTo(p) => [p] + rest
      case QuadTo(_, p) => [p] + rest
      case _ => rest
  }

  /** The control points of the quadratic curves in a log, in order. */
  function Controls(log: seq<Cmd>): seq<Pos>
  {
    if log == [] then []
    else
      var rest := Controls(log[1..]);
      match log[0]
      case QuadTo(c, _) => [c] + rest
      case _ => rest
  }

  /** The context state that shapes a stroke: stroke colour, line width, global alpha. */
  datatype Pen = Pen(strokeStyle: string, lineWidth: real, alpha: real)

  function Apply(pen: Pen, c: Cmd): Pen
  {
    match c
    case SetStrokeStyle(s) => pen.(strokeStyle := s)
    case SetLineWidth(w) => pen.(lineWidth := w)
    case SetAlpha(a) => pen.(alpha := a)
    case _ => pen
  }

  /** The pen after executing a log. */
  function Run(pen: Pen, log: seq<Cmd>): Pen
    decreases log
  {
    if log == [] then pen else Run(Apply(pen, log[0]), log[1..])
  }

  /** The pen in effect at each Stroke command of a log, in order. */
  function Painted(pen: Pen, log: seq<Cmd>): seq<Pen>
    decreases log
  {
    if log == [] then []
    else (if log[0].Stroke? then [pen] else []) + Painted(Apply(pen, log[0]), log[1..])
  }

  lemma {:induction false} VerticesAppend(a: seq<Cmd>, b: seq<Cmd>)
    ensures Vertices(a + b) == Vertices(a) + Vertices(b)
    ensures Controls(a + b) == Controls(a) + Controls(b)
  {
    if a != [] {
      assert (a + b)[1..] == a[1..] + b;
      VerticesAppend(a[1..], b);
    } else {
      assert a + b == b;
    }
  }

  lemma {:induction false} RunAppend(pen: Pen, a: seq<Cmd>, b: seq<Cmd>)
    ensures Run(pen, a + b) == Run(Run(pen, a), b)
    ensures Painted(pen, a + b) == Painted(pen, a) + Painted(Run(pen, a), b)
    decreases a
  {
    if a != [] {
      assert (a + b)[1..] == a[1..] + b;
      RunAppend(Apply(pen, a[0]), a[1..], b);
    } else {
      assert a + b == b;
    }
  }

  /** Executing a log one command at a time. */
  lemma RunCons(pen: Pen, c: Cmd, rest: seq<Cmd>)
    ensures Run(pen, [c] + rest) == Run(Apply(pen, c), rest)
    ensures Painted(pen, [c] + rest) == (if c.Stroke? then [pen] else []) + Painted(Apply(pen, c), rest)
  {
  }

  /** Commands that add nothing to a path's vertices or control points. */
  predicate NoGeometry(log: seq<Cmd>)
  {
    forall i :: 0 <= i < |log| ==> !log[i].MoveTo? && !log[i].LineTo? && !log[i].QuadTo?
  }

  lemma {:induction false} NoGeometryVertices(log: seq<Cmd>)
    requires NoGeometry(log)
    ensures Vertices(log) == [] && Controls(log) == []
    decreases |log|
  {
    if log != [] {
      assert !log[0].MoveTo? && !log[0].LineTo? && !log[0].QuadTo?;
      NoGeometryVertices(log[1..]);
    }
  }

  /** A path-building log leaves the pen alone and paints nothing. */
  lemma {:induction false} PathOnlyNeutral(pen: Pen, log: seq<Cmd>)
    requires PathOnly(log)
    ensures Run(pen, log) == pen
    ensures Painted(pen, log) == []
    decreases log
  {
    if log != [] {
      assert IsPathCmd(log[0]);
      PathOnlyNeutral(pen, log[1..]);
    }
  }
}

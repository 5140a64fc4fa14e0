/**
 * The renderers: drawStroke, smoothStroke, drawBackground, redrawAll and
 * optimizeHandwriting, as producers of canvas command logs. Each renderer has a
 * specification function giving the log it issues and a method with the source's
 * loops proved to issue exactly that log.
 */
module Render {
  import opened Strokes
  import opened Canvas

  /** Background fill colour and rule-line colour. */
  const Paper: string := "#fff"
  const RuleColor: string := "#e0e0e0"
  /** Distance between two rule lines. */
  const Spacing: int := 40

  // ---------------------------------------------------------------------------
  // Raw polyline (drawStroke)
  // ---------------------------------------------------------------------------

  /** Opacity of a brush: marker and pencil are translucent, every other brush is opaque. */
  function BrushAlpha(brushType: string): (a: real)
    ensures a == 0.3 <==> brushType == "marker"
    ensures a == 0.6 <==> brushType == "pencil"
    ensures a == 1.0 <==> brushType != "marker" && brushType != "pencil"
  {
    if brushType == "marker" then 0.3
    else if brushType == "pencil" then 0.6
    else 1.0
  }

  /** One LineTo per point, in order. */
  function LineTos(pts: seq<Point>): seq<Cmd>
  {
    seq(|pts|, i requires 0 <= i < |pts| => LineTo(At(pts[i])))
  }

  /** The stroke style taken from a stroke's first point: colour, width, round caps and joins. */
  function StyleOf(first: Point, width: real): seq<Cmd>
  {
    [SetStrokeStyle(first.color), SetLineWidth(width), SetLineCap("round"), SetLineJoin("round")]
  }

  /** The path drawStroke builds: move to the first point, then a line to each later one. */
  function StrokePath(stroke: Stroke): seq<Cmd>
    requires |stroke| >= 1
  {
    [BeginPath, MoveTo(At(stroke[0]))] + LineTos(stroke[1..])
  }

  /** Set the opacity, stroke the path, and put the opacity back to 1. */
  function AlphaStroke(alpha: real): seq<Cmd>
  {
    [SetAlpha(alpha), Stroke, SetAlpha(1.0)]
  }

  /** The log drawStroke issues for one stroke. */
  function StrokeCmds(stroke: Stroke): seq<Cmd>
  {
    if |stroke| < 2 then []
    else
      StrokePath(stroke)
      + (StyleOf(stroke[0], stroke[0].size as real) + AlphaStroke(BrushAlpha(stroke[0].brushType)))
  }

  method DrawStroke(stroke: Stroke) returns (cmds: seq<Cmd>)
    ensures cmds == StrokeCmds(stroke)
  {
    if |stroke| < 2 {
      return [];
    }
    cmds := [BeginPath, MoveTo(At(stroke[0]))];
    var i := 1;
    while i < |stroke|
      invariant 1 <= i <= |stroke|
      invariant cmds == [BeginPath, MoveTo(At(stroke[0]))] + LineTos(stroke[1..i])
    {
      assert LineTos(stroke[1..i + 1]) == LineTos(stroke[1..i]) + [LineTo(At(stroke[i]))];
      cmds := cmds + [LineTo(At(stroke[i]))];
      i := i + 1;
    }
    assert stroke[1..i] == stroke[1..];
    var alpha: real;
    if stroke[0].brushType == "marker" {
      alpha := 0.3;
    } else if stroke[0].brushType == "pencil" {
      alpha := 0.6;
    } else {
      alpha := 1.0;
    }
    cmds := cmds + (StyleOf(stroke[0], stroke[0].size as real) + [SetAlpha(alpha), Stroke, SetAlpha(1.0)]);
  }

  lemma {:induction false} LineTosGeometry(pts: seq<Point>)
    ensures PathOnly(LineTos(pts))
    ensures Vertices(LineTos(pts)) == Coords(pts)
    ensures Controls(LineTos(pts)) == []
    decreases |pts|
  {
    if pts != [] {
      assert LineTos(pts) == [LineTo(At(pts[0]))] + LineTos(pts[1..]);
      assert Coords(pts) == [At(pts[0])] + Coords(pts[1..]);
      LineTosGeometry(pts[1..]);
    }
  }

  /** The style commands paint nothing, add no geometry and set colour and width. */
  lemma StylePaint(pen: Pen, first: Point, width: real)
    ensures NoGeometry(StyleOf(first, width))
    ensures Painted(pen, StyleOf(first, width)) == []
    ensures Run(pen, StyleOf(first, width)) == Pen(first.color, width, pen.alpha)
  {
    var a, b := SetStrokeStyle(first.color), SetLineWidth(width);
    var c, d := SetLineCap("round"), SetLineJoin("round");
    assert StyleOf(first, width) == [a] + ([b] + ([c] + ([d] + [])));
    RunCons(pen, a, [b] + ([c] + ([d] + [])));
    var p1 := Apply(pen, a);
    RunCons(p1, b, [c] + ([d] + []));
    var p2 := Apply(p1, b);
    RunCons(p2, c, [d] + []);
    RunCons(p2, d, []);
  }

  /** Setting the opacity, stroking, and resetting the opacity to 1. */
  lemma AlphaStrokePaint(pen: Pen, alpha: real)
    ensures NoGeometry(AlphaStroke(alpha))
    ensures Painted(pen, AlphaStroke(alpha)) == [pen.(alpha := alpha)]
    ensures Run(pen, AlphaStroke(alpha)) == pen.(alpha := 1.0)
  {
    assert AlphaStroke(alpha) == [SetAlpha(alpha)] + ([Stroke] + ([SetAlpha(1.0)] + []));
    RunCons(pen, SetAlpha(alpha), [Stroke] + ([SetAlpha(1.0)] + []));
    RunCons(pen.(alpha := alpha), Stroke, [SetAlpha(1.0)] + []);
    RunCons(pen.(alpha := alpha), SetAlpha(1.0), []);
  }

  lemma StrokeOnlyPaint(pen: Pen)
    ensures Painted(pen, [Stroke]) == [pen]
    ensures Run(pen, [Stroke]) == pen
  {
  }

  /** The path part of drawStroke: a MoveTo to the first point, then the LineTos. */
  lemma StrokePathGeometry(stroke: Stroke)
    requires |stroke| >= 2
    ensures PathOnly(StrokePath(stroke))
    ensures Vertices(StrokePath(stroke)) == Coords(stroke)
    ensures Controls(StrokePath(stroke)) == []
  {
    var head := [BeginPath, MoveTo(At(stroke[0]))];
    var path := StrokePath(stroke);
    LineTosGeometry(stroke[1..]);
    forall i | 0 <= i < |path| ensures IsPathCmd(path[i]) {
      if i >= 2 { assert path[i] == LineTos(stroke[1..])[i - 2]; }
    }
    VerticesAppend(head, LineTos(stroke[1..]));
    assert head == [BeginPath] + [MoveTo(At(stroke[0]))];
    VerticesAppend([BeginPath], [MoveTo(At(stroke[0]))]);
    assert Coords(stroke) == [At(stroke[0])] + Coords(stroke[1..]);
  }

  /**
   * drawStroke draws nothing for fewer than two points; otherwise it moves to the
   * first point and draws a straight segment to every later point, in order, so the
   * path's vertices are exactly the stroke's coordinates.
   */
  lemma DrawStrokeGeometry(stroke: Stroke)
    ensures |stroke| < 2 ==> StrokeCmds(stroke) == []
    ensures |stroke| >= 2 ==>
      StrokeCmds(stroke)[0] == BeginPath && StrokeCmds(stroke)[1] == MoveTo(At(stroke[0]))
      && (forall i :: 1 <= i < |stroke| ==> StrokeCmds(stroke)[i + 1] == LineTo(At(stroke[i])))
    ensures |stroke| >= 2 ==> Vertices(StrokeCmds(stroke)) == Coords(stroke)
    ensures Controls(StrokeCmds(stroke)) == []
  {
    if |stroke| >= 2 {
      var path := StrokePath(stroke);
      var style := StyleOf(stroke[0], stroke[0].size as real);
      var alpha := AlphaStroke(BrushAlpha(stroke[0].brushType));
      assert LineTos(stroke[1..])[0] == LineTo(At(stroke[1]));
      StrokePathGeometry(stroke);
      StylePaint(Pen("", 0.0, 1.0), stroke[0], stroke[0].size as real);
      AlphaStrokePaint(Pen("", 0.0, 1.0), BrushAlpha(stroke[0].brushType));
      NoGeometryVertices(style);
      NoGeometryVertices(alpha);
      VerticesAppend(style, alpha);
      VerticesAppend(path, style + alpha);
    }
  }

  /**
   * The one Stroke command drawStroke issues paints with the first point's colour and
   * size and the brush's opacity; afterwards the opacity is back at 1, so it never
   * leaks into what is drawn next.
   */
  lemma DrawStrokePaint(pen: Pen, stroke: Stroke)
    requires |stroke| >= 2
    ensures Painted(pen, StrokeCmds(stroke))
      == [Pen(stroke[0].color, stroke[0].size as real, BrushAlpha(stroke[0].brushType))]
    ensures Run(pen, StrokeCmds(stroke)) == Pen(stroke[0].color, stroke[0].size as real, 1.0)
  {
    var path := StrokePath(stroke);
    var style := StyleOf(stroke[0], stroke[0].size as real);
    var alpha := AlphaStroke(BrushAlpha(stroke[0].brushType));
    StrokePathGeometry(stroke);
    PathOnlyNeutral(pen, path);
    RunAppend(pen, path, style + alpha);
    RunAppend(pen, style, alpha);
    StylePaint(pen, stroke[0], stroke[0].size as real);
    AlphaStrokePaint(Run(pen, style), BrushAlpha(stroke[0].brushType));
  }

  // ---------------------------------------------------------------------------
  // Smoothed polyline (smoothStroke)
  // ---------------------------------------------------------------------------

  /** Quadratic curves through a run of points: the curve for c[k] ends at the midpoint of c[k] and c[k+1]. */
  function Curves(c: seq<Point>): (r: seq<Cmd>)
    ensures |c| >= 1 ==> |r| == |c| - 1
  {
    if |c| < 2 then []
    else [QuadTo(At(c[0]), Mid(c[0], c[1]))] + Curves(c[1..])
  }

  /** The midpoints of consecutive points, in order. */
  function Midpoints(c: seq<Point>): (r: seq<Pos>)
    ensures |c| >= 1 ==> |r| == |c| - 1
  {
    if |c| < 2 then []
    else [Mid(c[0], c[1])] + Midpoints(c[1..])
  }

  /** The path smoothStroke builds: move to the first point, curve through the midpoints, line to the last point. */
  function SmoothPath(stroke: Stroke): seq<Cmd>
    requires |stroke| >= 2
  {
    [BeginPath, MoveTo(At(stroke[0]))] + Curves(stroke[1..|stroke| - 1]) + [LineTo(At(stroke[|stroke| - 1]))]
  }

  /** The log smoothStroke issues for one stroke. */
  function SmoothCmds(stroke: Stroke): seq<Cmd>
  {
    if |stroke| < 3 then StrokeCmds(stroke)
    else SmoothPath(stroke) + (StyleOf(stroke[0], stroke[0].size as real * 0.9) + [Stroke])
  }

  method SmoothStroke(stroke: Stroke) returns (cmds: seq<Cmd>)
    ensures cmds == SmoothCmds(stroke)
  {
    if |stroke| < 3 {
      cmds := DrawStroke(stroke);
      return;
    }
    var head := [BeginPath, MoveTo(At(stroke[0]))];
    cmds := head;
    var i := 1;
    while i < |stroke| - 2
      invariant 1 <= i <= |stroke| - 2
      invariant cmds + Curves(stroke[i..|stroke| - 1]) == head + Curves(stroke[1..|stroke| - 1])
    {
      var xc := (stroke[i].x + stroke[i + 1].x) as real / 2.0;
      var yc := (stroke[i].y + stroke[i + 1].y) as real / 2.0;
      assert stroke[i..|stroke| - 1][1..] == stroke[i + 1..|stroke| - 1];
      cmds := cmds + [QuadTo(At(stroke[i]), Pos(xc, yc))];
      i := i + 1;
    }
    var last := stroke[|stroke| - 1];
    cmds := cmds + [LineTo(At(last))];
    cmds := cmds + (StyleOf(stroke[0], stroke[0].size as real * 0.9) + [Stroke]);
  }

  lemma CurvesGeometry(c: seq<Point>)
    requires |c| >= 1
    ensures PathOnly(Curves(c))
    ensures Vertices(Curves(c)) == Midpoints(c)
    ensures Controls(Curves(c)) == Coords(c[..|c| - 1])
  {
    CurvesVertices(c);
    CurvesControls(c);
  }

  lemma {:induction false} CurvesVertices(c: seq<Point>)
    requires |c| >= 1
    ensures PathOnly(Curves(c))
    ensures Vertices(Curves(c)) == Midpoints(c)
    decreases |c|
  {
    if |c| >= 2 {
      var q := QuadTo(At(c[0]), Mid(c[0], c[1]));
      var rest := Curves(c[1..]);
      CurvesVertices(c[1..]);
      assert ([q] + rest)[1..] == rest;
      forall i | 0 <= i < |[q] + rest| ensures IsPathCmd(([q] + rest)[i]) {
        if i >= 1 { assert ([q] + rest)[i] == rest[i - 1]; }
      }
    }
  }

  lemma {:induction false} CurvesControls(c: seq<Point>)
    requires |c| >= 1
    ensures Controls(Curves(c)) == Coords(c[..|c| - 1])
    decreases |c|
  {
    if |c| >= 2 {
      var rest := Curves(c[1..]);
      CurvesControls(c[1..]);
      assert ([QuadTo(At(c[0]), Mid(c[0], c[1]))] + rest)[1..] == rest;
      assert c[1..][..|c| - 2] == c[1..|c| - 1];
      assert Coords(c[..|c| - 1]) == [At(c[0])] + Coords(c[1..|c| - 1]);
    } else {
      assert c[..|c| - 1] == [];
    }
  }

  lemma SmoothPathGeometry(stroke: Stroke)
    requires |stroke| >= 3
    ensures PathOnly(SmoothPath(stroke))
    ensures Vertices(SmoothPath(stroke))
      == [At(stroke[0])] + Midpoints(stroke[1..|stroke| - 1]) + [At(stroke[|stroke| - 1])]
    ensures Controls(SmoothPath(stroke)) == Coords(stroke[1..|stroke| - 2])
  {
    var c := stroke[1..|stroke| - 1];
    var head := [BeginPath, MoveTo(At(stroke[0]))];
    var last := [LineTo(At(stroke[|stroke| - 1]))];
    var path := SmoothPath(stroke);
    CurvesGeometry(c);
    assert head == [BeginPath] + [MoveTo(At(stroke[0]))];
    VerticesAppend([BeginPath], [MoveTo(At(stroke[0]))]);
    VerticesAppend(head, Curves(c));
    VerticesAppend(head + Curves(c), last);
    assert c[..|c| - 1] == stroke[1..|stroke| - 2];
    forall i | 0 <= i < |path| ensures IsPathCmd(path[i]) {
      if 2 <= i < |path| - 1 { assert path[i] == Curves(c)[i - 2]; }
    }
  }

  /** The k-th curve segment bends towards point k and ends halfway to point k + 1. */
  lemma {:induction false} CurvesAt(c: seq<Point>, k: int)
    requires 0 <= k < |c| - 1
    ensures Curves(c)[k] == QuadTo(At(c[k]), Mid(c[k], c[k + 1]))
    decreases k
  {
    if k > 0 {
      CurvesAt(c[1..], k - 1);
    }
  }

  lemma SmoothStrokeGeometry(stroke: Stroke)
    ensures |stroke| < 3 ==> SmoothCmds(stroke) == StrokeCmds(stroke)
    ensures |stroke| >= 3 ==>
      Vertices(SmoothCmds(stroke))
        == [At(stroke[0])] + Midpoints(stroke[1..|stroke| - 1]) + [At(stroke[|stroke| - 1])]
    ensures |stroke| >= 3 ==> Controls(SmoothCmds(stroke)) == Coords(stroke[1..|stroke| - 2])
    ensures |stroke| >= 3 ==>
      |SmoothCmds(stroke)| > |stroke|
      && SmoothCmds(stroke)[0] == BeginPath
      && SmoothCmds(stroke)[1] == MoveTo(At(stroke[0]))
      && (forall i :: 1 <= i <= |stroke| - 3 ==>
            SmoothCmds(stroke)[i + 1] == QuadTo(At(stroke[i]), Mid(stroke[i], stroke[i + 1])))
      && SmoothCmds(stroke)[|stroke| - 1] == LineTo(At(stroke[|stroke| - 1]))
  {
    if |stroke| >= 3 {
      var style := StyleOf(stroke[0], stroke[0].size as real * 0.9);
      var c := stroke[1..|stroke| - 1];
      var cmds := SmoothCmds(stroke);
      assert cmds == [BeginPath, MoveTo(At(stroke[0]))] + Curves(c) + [LineTo(At(stroke[|stroke| - 1]))] + (style + [Stroke]);
      forall i | 1 <= i <= |stroke| - 3
        ensures cmds[i + 1] == QuadTo(At(stroke[i]), Mid(stroke[i], stroke[i + 1]))
      {
        CurvesAt(c, i - 1);
        assert c[i - 1] == stroke[i] && c[i] == stroke[i + 1];
      }
      SmoothPathGeometry(stroke);
      StylePaint(Pen("", 0.0, 1.0), stroke[0], stroke[0].size as real * 0.9);
      assert NoGeometry(style + [Stroke]);
      NoGeometryVertices(style + [Stroke]);
      VerticesAppend(SmoothPath(stroke), style + [Stroke]);
    }
  }

  /** With exactly three points only the first and the last become vertices and no curve is drawn. */
  lemma SmoothThreePoints(stroke: Stroke)
    requires |stroke| == 3
    ensures Vertices(SmoothCmds(stroke)) == [At(stroke[0]), At(stroke[2])]
    ensures Controls(SmoothCmds(stroke)) == []
  {
    SmoothStrokeGeometry(stroke);
  }

  /**
   * A smoothed stroke paints once, with the first point's colour and 90% of its size;
   * smoothStroke never sets the opacity, so it paints with whatever opacity is in effect.
   */
  lemma SmoothStrokePaint(pen: Pen, stroke: Stroke)
    requires |stroke| >= 3
    ensures Painted(pen, SmoothCmds(stroke))
      == [Pen(stroke[0].color, stroke[0].size as real * 0.9, pen.alpha)]
    ensures Run(pen, SmoothCmds(stroke)) == Pen(stroke[0].color, stroke[0].size as real * 0.9, pen.alpha)
  {
    var path := SmoothPath(stroke);
    var style := StyleOf(stroke[0], stroke[0].size as real * 0.9);
    SmoothPathGeometry(stroke);
    PathOnlyNeutral(pen, path);
    RunAppend(pen, path, style + [Stroke]);
    RunAppend(pen, style, [Stroke]);
    StylePaint(pen, stroke[0], stroke[0].size as real * 0.9);
    StrokeOnlyPaint(Run(pen, style));
  }

  // ---------------------------------------------------------------------------
  // Backgrounds (drawBackground)
  // ---------------------------------------------------------------------------

  /** start, start + 40, ... while below limit: the positions the background loops visit. */
  function Ticks(start: int, limit: int): seq<int>
    decreases limit - start
  {
    if start < limit then [start] + Ticks(start + Spacing, limit) else []
  }

  /** A straight rule line across the surface. */
  datatype Rule = Rule(from: Pos, to: Pos)

  function Horizontal(y: int): Rule
  {
    Rule(Pos(0.0, y as real), Pos(Width as real, y as real))
  }

  function Vertical(x: int): Rule
  {
    Rule(Pos(x as real, 0.0), Pos(x as real, Height as real))
  }

  function RuleAt(vertical: bool, t: int): Rule
  {
    if vertical then Vertical(t) else Horizontal(t)
  }

  function RulesAt(vertical: bool, ts: seq<int>): seq<Rule>
  {
    if ts == [] then [] else [RuleAt(vertical, ts[0])] + RulesAt(vertical, ts[1..])
  }

  /** The rule lines of a background style, in drawing order. */
  function BackgroundRules(style: string): seq<Rule>
  {
    (if style == "lined" then RulesAt(false, Ticks(Spacing, Height)) else [])
    + (if style == "grid" then RulesAt(true, Ticks(Spacing, Width)) + RulesAt(false, Ticks(Spacing, Height)) else [])
  }

  function RuleCmds(r: Rule): seq<Cmd>
  {
    [BeginPath, MoveTo(r.from), LineTo(r.to), Stroke]
  }

  function RulesCmds(rs: seq<Rule>): seq<Cmd>
  {
    if rs == [] then [] else RuleCmds(rs[0]) + RulesCmds(rs[1..])
  }

  /** The commands drawBackground issues before any rule line. */
  function PaperCmds(): seq<Cmd>
  {
    [SetFillStyle(Paper), FillRect(0, 0, Width, Height), SetStrokeStyle(RuleColor)]
  }

  /** The log drawBackground issues. */
  function BackgroundCmds(style: string): seq<Cmd>
  {
    PaperCmds() + RulesCmds(BackgroundRules(style))
  }

  lemma {:induction false} RulesCmdsAppend(a: seq<Rule>, b: seq<Rule>)
    ensures RulesCmds(a + b) == RulesCmds(a) + RulesCmds(b)
    decreases |a|
  {
    if a == [] {
      assert a + b == b;
    } else {
      assert (a + b)[1..] == a[1..] + b;
      RulesCmdsAppend(a[1..], b);
    }
  }

  /** One iteration of a background loop draws the rule at the current position. */
  lemma TicksStep(vertical: bool, t: int, limit: int)
    requires t < limit
    ensures RulesCmds(RulesAt(vertical, Ticks(t, limit)))
      == RuleCmds(RuleAt(vertical, t)) + RulesCmds(RulesAt(vertical, Ticks(t + Spacing, limit)))
  {
  }

  /** One background loop: for (t = 40; t < limit; t += 40) draw the rule at t. */
  method DrawRules(vertical: bool, limit: int) returns (cmds: seq<Cmd>)
    ensures cmds == RulesCmds(RulesAt(vertical, Ticks(Spacing, limit)))
  {
    cmds := [];
    var t := Spacing;
    while t < limit
      invariant cmds + RulesCmds(RulesAt(vertical, Ticks(t, limit)))
        == RulesCmds(RulesAt(vertical, Ticks(Spacing, limit)))
      decreases limit - t
    {
      TicksStep(vertical, t, limit);
      var from := if vertical then Pos(t as real, 0.0) else Pos(0.0, t as real);
      var to := if vertical then Pos(t as real, Height as real) else Pos(Width as real, t as real);
      cmds := cmds + [BeginPath, MoveTo(from), LineTo(to), Stroke];
      t := t + Spacing;
    }
  }

  method DrawBackground(style: string) returns (cmds: seq<Cmd>)
    ensures cmds == BackgroundCmds(style)
  {
    assert "lined" != "grid" by { assert "lined"[0] != "grid"[0]; }
    ghost var hs := RulesAt(false, Ticks(Spacing, Height));
    ghost var vs := RulesAt(true, Ticks(Spacing, Width));
    cmds := [SetFillStyle(Paper), FillRect(0, 0, Width, Height), SetStrokeStyle(RuleColor)];
    if style == "lined" {
      var lines := DrawRules(false, Height);
      cmds := cmds + lines;
      assert BackgroundRules(style) == hs + [] == hs;
    }
    if style == "grid" {
      var columns := DrawRules(true, Width);
      var rows := DrawRules(false, Height);
      RulesCmdsAppend(vs, hs);
      cmds := cmds + (columns + rows);
      assert BackgroundRules(style) == [] + (vs + hs) == vs + hs;
    }
    if style != "lined" && style != "grid" {
      assert BackgroundRules(style) == [];
    }
  }

  lemma {:induction false} TicksShape(start: int, limit: int)
    ensures |Ticks(start, limit)| == if start < limit then (limit - start + Spacing - 1) / Spacing else 0
    ensures forall k :: 0 <= k < |Ticks(start, limit)| ==> Ticks(start, limit)[k] == start + Spacing * k
    decreases limit - start
  {
    if start < limit {
      TicksShape(start + Spacing, limit);
      var rest := Ticks(start + Spacing, limit);
      assert Ticks(start, limit) == [start] + rest;
      forall k | 1 <= k < |Ticks(start, limit)|
        ensures Ticks(start, limit)[k] == start + Spacing * k
      {
        assert Ticks(start, limit)[k] == rest[k - 1];
      }
    }
  }

  lemma {:induction false} RulesAtShape(vertical: bool, ts: seq<int>)
    ensures |RulesAt(vertical, ts)| == |ts|
    ensures forall k :: 0 <= k < |ts| ==> RulesAt(vertical, ts)[k] == RuleAt(vertical, ts[k])
    decreases |ts|
  {
    if ts != [] {
      RulesAtShape(vertical, ts[1..]);
    }
  }

  /** The horizontal rules are at y = 40, 80, ..., 560: fourteen of them. */
  lemma HorizontalRules()
    ensures |RulesAt(false, Ticks(Spacing, Height))| == 14
    ensures forall k :: 0 <= k < 14 ==> RulesAt(false, Ticks(Spacing, Height))[k] == Horizontal(40 * (k + 1))
  {
    TicksShape(Spacing, Height);
    RulesAtShape(false, Ticks(Spacing, Height));
  }

  /** The vertical rules are at x = 40, 80, ..., 880: twenty-two of them. */
  lemma VerticalRules()
    ensures |RulesAt(true, Ticks(Spacing, Width))| == 22
    ensures forall k :: 0 <= k < 22 ==> RulesAt(true, Ticks(Spacing, Width))[k] == Vertical(40 * (k + 1))
  {
    TicksShape(Spacing, Width);
    RulesAtShape(true, Ticks(Spacing, Width));
  }

  /**
   * "lined" draws the 14 horizontal rules y = 40, 80, ..., 560 and no vertical one;
   * "grid" draws the 22 vertical rules x = 40, ..., 880 and then the same 14
   * horizontal rules; any other style draws no rule at all.
   */
  lemma BackgroundLines(style: string)
    ensures style == "lined" ==>
      |BackgroundRules(style)| == 14
      && forall k :: 0 <= k < 14 ==> BackgroundRules(style)[k] == Horizontal(40 * (k + 1))
    ensures style == "grid" ==>
      |BackgroundRules(style)| == 36
      && (forall k :: 0 <= k < 22 ==> BackgroundRules(style)[k] == Vertical(40 * (k + 1)))
      && (forall k :: 22 <= k < 36 ==> BackgroundRules(style)[k] == Horizontal(40 * (k - 21)))
    ensures style != "lined" && style != "grid" ==> BackgroundRules(style) == []
  {
    assert "lined" != "grid" by { assert "lined"[0] != "grid"[0]; }
    var vs := RulesAt(true, Ticks(Spacing, Width));
    var hs := RulesAt(false, Ticks(Spacing, Height));
    if style == "lined" {
      assert BackgroundRules(style) == hs + [];
      HorizontalRules();
    } else if style == "grid" {
      assert BackgroundRules(style) == [] + (vs + hs);
      HorizontalRules();
      VerticalRules();
      forall k | 22 <= k < 36 ensures BackgroundRules(style)[k] == Horizontal(40 * (k - 21)) {
        assert (vs + hs)[k] == hs[k - 22];
      }
    }
  }

  /** The log of a list of rules is the four-command group of each rule, in order. */
  lemma {:induction false} RulesCmdsShape(rs: seq<Rule>)
    ensures |RulesCmds(rs)| == 4 * |rs|
    ensures forall k :: 0 <= k < |rs| ==> RulesCmds(rs)[4 * k .. 4 * k + 4] == RuleCmds(rs[k])
    decreases |rs|
  {
    if rs != [] {
      RulesCmdsShape(rs[1..]);
      var rest := RulesCmds(rs[1..]);
      assert RulesCmds(rs) == RuleCmds(rs[0]) + rest;
      forall k | 1 <= k < |rs| ensures RulesCmds(rs)[4 * k .. 4 * k + 4] == RuleCmds(rs[k]) {
        assert RulesCmds(rs)[4 * k .. 4 * k + 4] == rest[4 * (k - 1) .. 4 * (k - 1) + 4];
        assert rs[1..][k - 1] == rs[k];
      }
    }
  }

  lemma RulePaint(pen: Pen, r: Rule)
    ensures Painted(pen, RuleCmds(r)) == [pen]
    ensures Run(pen, RuleCmds(r)) == pen
  {
    var path := [BeginPath, MoveTo(r.from), LineTo(r.to)];
    assert RuleCmds(r) == path + [Stroke];
    assert PathOnly(path);
    PathOnlyNeutral(pen, path);
    RunAppend(pen, path, [Stroke]);
    StrokeOnlyPaint(pen);
  }

  lemma {:induction false} RulesPaint(pen: Pen, rs: seq<Rule>)
    ensures Run(pen, RulesCmds(rs)) == pen
    ensures Painted(pen, RulesCmds(rs)) == seq(|rs|, _ => pen)
    decreases |rs|
  {
    if rs != [] {
      RulesPaint(pen, rs[1..]);
      RunAppend(pen, RuleCmds(rs[0]), RulesCmds(rs[1..]));
      RulePaint(pen, rs[0]);
      assert seq(|rs|, _ => pen) == [pen] + seq(|rs| - 1, _ => pen);
    }
  }

  /**
   * drawBackground always fills the whole surface white first; every rule line is then
   * stroked in the light grey rule colour and with the opacity already in effect, and
   * the opacity is left as it was.
   */
  lemma BackgroundPaint(pen: Pen, style: string)
    ensures BackgroundCmds(style)[..2] == [SetFillStyle(Paper), FillRect(0, 0, Width, Height)]
    ensures |Painted(pen, BackgroundCmds(style))| == |BackgroundRules(style)|
    ensures forall k :: 0 <= k < |BackgroundRules(style)| ==>
      Painted(pen, BackgroundCmds(style))[k].strokeStyle == RuleColor
      && Painted(pen, BackgroundCmds(style))[k].alpha == pen.alpha
    ensures Run(pen, BackgroundCmds(style)).alpha == pen.alpha
  {
    RunAppend(pen, PaperCmds(), RulesCmds(BackgroundRules(style)));
    RulesPaint(pen.(strokeStyle := RuleColor), BackgroundRules(style));
  }

  // ---------------------------------------------------------------------------
  // Full redraws (redrawAll, optimizeHandwriting, redrawTemp)
  // ---------------------------------------------------------------------------

  /** drawStroke applied to each stroke, in list order. */
  function StrokesCmds(strokes: seq<Stroke>): seq<Cmd>
  {
    if strokes == [] then []
    else StrokesCmds(strokes[..|strokes| - 1]) + StrokeCmds(strokes[|strokes| - 1])
  }

  /** smoothStroke applied to each stroke, in list order. */
  function SmoothsCmds(strokes: seq<Stroke>): seq<Cmd>
  {
    if strokes == [] then []
    else SmoothsCmds(strokes[..|strokes| - 1]) + SmoothCmds(strokes[|strokes| - 1])
  }

  function ClearCmd(): Cmd
  {
    ClearRect(0, 0, Width, Height)
  }

  /** The log redrawAll issues: clear, background, every stroke. */
  function RedrawAllCmds(strokes: seq<Stroke>, style: string): seq<Cmd>
  {
    [ClearCmd()] + BackgroundCmds(style) + StrokesCmds(strokes)
  }

  /** The log optimizeHandwriting issues: clear, background, every stroke smoothed. */
  function OptimizeCmds(strokes: seq<Stroke>, style: string): seq<Cmd>
  {
    [ClearCmd()] + BackgroundCmds(style) + SmoothsCmds(strokes)
  }

  /** The log redrawTemp issues: a full redraw, then the stroke in progress. */
  function RedrawTempCmds(strokes: seq<Stroke>, current: Stroke, style: string): seq<Cmd>
  {
    RedrawAllCmds(strokes, style) + StrokeCmds(current)
  }

  lemma StrokesSnoc(strokes: seq<Stroke>, i: int)
    requires 0 <= i < |strokes|
    ensures StrokesCmds(strokes[..i + 1]) == StrokesCmds(strokes[..i]) + StrokeCmds(strokes[i])
  {
    assert strokes[..i + 1][..i] == strokes[..i];
  }

  lemma SmoothsSnoc(strokes: seq<Stroke>, i: int)
    requires 0 <= i < |strokes|
    ensures SmoothsCmds(strokes[..i + 1]) == SmoothsCmds(strokes[..i]) + SmoothCmds(strokes[i])
  {
    assert strokes[..i + 1][..i] == strokes[..i];
  }

  method RedrawAll(strokes: seq<Stroke>, style: string) returns (cmds: seq<Cmd>)
    ensures cmds == RedrawAllCmds(strokes, style)
  {
    var background := DrawBackground(style);
    var drawn: seq<Cmd> := [];
    var i := 0;
    while i < |strokes|
      invariant 0 <= i <= |strokes|
      invariant drawn == StrokesCmds(strokes[..i])
    {
      StrokesSnoc(strokes, i);
      var one := DrawStroke(strokes[i]);
      drawn := drawn + one;
      i := i + 1;
    }
    assert strokes[..i] == strokes;
    cmds := [ClearRect(0, 0, Width, Height)] + background + drawn;
  }

  method OptimizeHandwriting(strokes: seq<Stroke>, style: string) returns (cmds: seq<Cmd>)
    ensures cmds == OptimizeCmds(strokes, style)
  {
    var background := DrawBackground(style);
    var smoothed: seq<Cmd> := [];
    var i := 0;
    while i < |strokes|
      invariant 0 <= i <= |strokes|
      invariant smoothed == SmoothsCmds(strokes[..i])
    {
      SmoothsSnoc(strokes, i);
      var one := SmoothStroke(strokes[i]);
      smoothed := smoothed + one;
      i := i + 1;
    }
    assert strokes[..i] == strokes;
    cmds := [ClearRect(0, 0, Width, Height)] + background + smoothed;
  }

  method RedrawTemp(strokes: seq<Stroke>, current: Stroke, style: string) returns (cmds: seq<Cmd>)
    ensures cmds == RedrawTempCmds(strokes, current, style)
  {
    var all := RedrawAll(strokes, style);
    var live := DrawStroke(current);
    cmds := all + live;
  }

  /** The coordinates of every stroke that drawStroke draws, in list order. */
  function Inked(strokes: seq<Stroke>): seq<Pos>
  {
    if strokes == [] then []
    else
      var last := strokes[|strokes| - 1];
      Inked(strokes[..|strokes| - 1]) + (if |last| >= 2 then Coords(last) else [])
  }

  /** The pen of every stroke that drawStroke draws, in list order. */
  function InkPens(strokes: seq<Stroke>): seq<Pen>
  {
    if strokes == [] then []
    else
      var s := strokes[|strokes| - 1];
      InkPens(strokes[..|strokes| - 1])
      + (if |s| >= 2 then [Pen(s[0].color, s[0].size as real, BrushAlpha(s[0].brushType))] else [])
  }

  /** The pen of every stroke that smoothStroke draws, in list order, when the opacity in effect is 1. */
  function SmoothPens(strokes: seq<Stroke>): seq<Pen>
  {
    if strokes == [] then []
    else
      SmoothPens(strokes[..|strokes| - 1]) + SmoothPen(strokes[|strokes| - 1])
  }

  function SmoothPen(s: Stroke): seq<Pen>
  {
    if |s| >= 3 then [Pen(s[0].color, s[0].size as real * 0.9, 1.0)]
    else if |s| == 2 then [Pen(s[0].color, s[0].size as real, BrushAlpha(s[0].brushType))]
    else []
  }

  /** One stroke of optimizeHandwriting, starting at opacity 1. */
  lemma SmoothPaintOne(pen: Pen, s: Stroke)
    requires pen.alpha == 1.0
    ensures Painted(pen, SmoothCmds(s)) == SmoothPen(s)
    ensures Run(pen, SmoothCmds(s)).alpha == 1.0
  {
    if |s| >= 3 {
      SmoothStrokePaint(pen, s);
    } else if |s| == 2 {
      DrawStrokePaint(pen, s);
    }
  }

  /**
   * Redrawing the strokes traces, in list order, exactly the coordinates of every
   * stroke of two or more points; shorter strokes contribute nothing.
   */
  lemma {:induction false} StrokesGeometry(strokes: seq<Stroke>)
    ensures Vertices(StrokesCmds(strokes)) == Inked(strokes)
    ensures Controls(StrokesCmds(strokes)) == []
    decreases |strokes|
  {
    if strokes != [] {
      var init := strokes[..|strokes| - 1];
      StrokesGeometry(init);
      DrawStrokeGeometry(strokes[|strokes| - 1]);
      VerticesAppend(StrokesCmds(init), StrokeCmds(strokes[|strokes| - 1]));
    }
  }

  /**
   * Redrawing the strokes paints each stroke of two or more points once, with its own
   * recorded colour, size and brush opacity, whatever the pen was before; if the
   * opacity was 1 before, it is 1 afterwards.
   */
  lemma {:induction false} StrokesPaint(pen: Pen, strokes: seq<Stroke>)
    ensures Painted(pen, StrokesCmds(strokes)) == InkPens(strokes)
    ensures pen.alpha == 1.0 ==> Run(pen, StrokesCmds(strokes)).alpha == 1.0
    decreases |strokes|
  {
    if strokes != [] {
      var init := strokes[..|strokes| - 1];
      var s := strokes[|strokes| - 1];
      StrokesPaint(pen, init);
      RunAppend(pen, StrokesCmds(init), StrokeCmds(s));
      if |s| >= 2 {
        DrawStrokePaint(Run(pen, StrokesCmds(init)), s);
      }
    }
  }

  lemma {:induction false} SmoothsPaint(pen: Pen, strokes: seq<Stroke>)
    requires pen.alpha == 1.0
    ensures Painted(pen, SmoothsCmds(strokes)) == SmoothPens(strokes)
    ensures Run(pen, SmoothsCmds(strokes)).alpha == 1.0
    decreases |strokes|
  {
    if strokes != [] {
      var init := strokes[..|strokes| - 1];
      var s := strokes[|strokes| - 1];
      SmoothsPaint(pen, init);
      RunAppend(pen, SmoothsCmds(init), SmoothCmds(s));
      SmoothPaintOne(Run(pen, SmoothsCmds(init)), s);
    }
  }

  /**
   * A full redraw starting at opacity 1 clears the surface, paints every rule line of
   * the background in the rule colour at opacity 1, then paints every drawable stroke
   * with its own recorded settings, and ends at opacity 1 again.
   */
  lemma RedrawAllPaint(pen: Pen, strokes: seq<Stroke>, style: string)
    requires pen.alpha == 1.0
    ensures RedrawAllCmds(strokes, style)[0] == ClearRect(0, 0, Width, Height)
    ensures Painted(pen, RedrawAllCmds(strokes, style))
      == Painted(pen, BackgroundCmds(style)) + InkPens(strokes)
    ensures |Painted(pen, RedrawAllCmds(strokes, style))| == |BackgroundRules(style)| + |InkPens(strokes)|
    ensures forall k :: 0 <= k < |BackgroundRules(style)| ==>
      Painted(pen, RedrawAllCmds(strokes, style))[k].strokeStyle == RuleColor
      && Painted(pen, RedrawAllCmds(strokes, style))[k].alpha == 1.0
    ensures Run(pen, RedrawAllCmds(strokes, style)).alpha == 1.0
  {
    var bg := BackgroundCmds(style);
    assert RedrawAllCmds(strokes, style) == [ClearCmd()] + (bg + StrokesCmds(strokes));
    RunAppend(pen, [ClearCmd()], bg + StrokesCmds(strokes));
    RunAppend(pen, bg, StrokesCmds(strokes));
    BackgroundPaint(pen, style);
    StrokesPaint(Run(pen, bg), strokes);
  }

  /**
   * optimizeHandwriting starting at opacity 1 paints the background like redrawAll and
   * then each stroke: smoothed strokes at opacity 1 and 90% width, two-point strokes
   * through drawStroke with their brush opacity; it ends at opacity 1 again.
   */
  lemma OptimizePaint(pen: Pen, strokes: seq<Stroke>, style: string)
    requires pen.alpha == 1.0
    ensures OptimizeCmds(strokes, style)[0] == ClearRect(0, 0, Width, Height)
    ensures Painted(pen, OptimizeCmds(strokes, style))
      == Painted(pen, BackgroundCmds(style)) + SmoothPens(strokes)
    ensures Run(pen, OptimizeCmds(strokes, style)).alpha == 1.0
  {
    var bg := BackgroundCmds(style);
    assert OptimizeCmds(strokes, style) == [ClearCmd()] + (bg + SmoothsCmds(strokes));
    RunAppend(pen, [ClearCmd()], bg + SmoothsCmds(strokes));
    RunAppend(pen, bg, SmoothsCmds(strokes));
    BackgroundPaint(pen, style);
    SmoothsPaint(Run(pen, bg), strokes);
  }
}

/**
 * The drawing session: the module-level state of the page (the gesture flag, the
 * committed strokes, the stroke in progress, the undo and redo stacks and the tool
 * settings), the pointer handlers and the undo manager.
 *
 * The state is a class whose fields the handlers update in place. Its abstract value
 * is the datatype State, and each handler is specified by a transition function on
 * State; the lemmas about the transition functions carry the session's properties.
 */
module Session {
  import opened Strokes
  import opened Canvas
  import Render

  /** A list of committed strokes, which is also what an undo snapshot holds. */
  type Drawing = seq<Stroke>

  datatype State = State(
    drawing: bool,
    strokes: Drawing,
    currentStroke: Stroke,
    history: seq<Drawing>,
    redoStack: seq<Drawing>,
    brushType: string,
    color: string,
    size: int)

  /** The state when the page loads. */
  function Initial(): State
  {
    State(false, [], [], [], [], "pen", "#111", 3)
  }

  /** The point a pointer event at (x, y) records under the current tool settings. */
  function NewPoint(s: State, x: int, y: int): Point
  {
    CreatePoint(x, y, s.color, s.size, s.brushType)
  }

  // ---------------------------------------------------------------------------
  // Transition functions
  // ---------------------------------------------------------------------------

  /** saveState: push a copy of the strokes onto the history and drop the redo stack. */
  function SaveStateStep(s: State): (r: State)
    ensures r.drawing == s.drawing && r.currentStroke == s.currentStroke
  {
    s.(history := s.history + [s.strokes], redoStack := [])
  }

  /** undo: if there is history, move the current strokes to the redo stack and restore the top snapshot. */
  function UndoStep(s: State): (r: State)
    ensures |r.history| + |r.redoStack| == |s.history| + |s.redoStack|
    ensures r.drawing == s.drawing && r.currentStroke == s.currentStroke
  {
    if |s.history| == 0 then s
    else
      s.(redoStack := s.redoStack + [s.strokes],
         strokes := s.history[|s.history| - 1],
         history := s.history[..|s.history| - 1])
  }

  /** redo: the mirror image of undo. */
  function RedoStep(s: State): (r: State)
    ensures |r.history| + |r.redoStack| == |s.history| + |s.redoStack|
    ensures r.drawing == s.drawing && r.currentStroke == s.currentStroke
  {
    if |s.redoStack| == 0 then s
    else
      s.(history := s.history + [s.strokes],
         strokes := s.redoStack[|s.redoStack| - 1],
         redoStack := s.redoStack[..|s.redoStack| - 1])
  }

  /** pointerdown: start a gesture, save the state, begin a stroke at the event's position. */
  function PointerDownStep(s: State, x: int, y: int): (r: State)
    ensures r.drawing && |r.currentStroke| == 1 && r.strokes == s.strokes
    ensures |r.history| == |s.history| + 1 && r.redoStack == []
  {
    var t := SaveStateStep(s.(drawing := true, currentStroke := []));
    t.(currentStroke := t.currentStroke + [NewPoint(t, x, y)])
  }

  /** pointermove: during a gesture, extend the stroke in progress. */
  function PointerMoveStep(s: State, x: int, y: int): (r: State)
    ensures r.drawing == s.drawing && r.strokes == s.strokes
    ensures r.history == s.history && r.redoStack == s.redoStack
    ensures |r.currentStroke| == |s.currentStroke| + (if s.drawing then 1 else 0)
    ensures r.currentStroke[..|s.currentStroke|] == s.currentStroke
  {
    if !s.drawing then s
    else s.(currentStroke := s.currentStroke + [NewPoint(s, x, y)])
  }

  /** pointerup: commit the stroke in progress if it has points, and end the gesture. */
  function PointerUpStep(s: State): (r: State)
    ensures !r.drawing && r.currentStroke == s.currentStroke
    ensures r.history == s.history && r.redoStack == s.redoStack
    ensures |r.strokes| == |s.strokes| + (if |s.currentStroke| > 0 then 1 else 0)
    ensures r.strokes[..|s.strokes|] == s.strokes
  {
    (if |s.currentStroke| > 0 then s.(strokes := s.strokes + [s.currentStroke]) else s).(drawing := false)
  }

  /** The events the page reacts to. */
  datatype Event =
    | Down(x: int, y: int)
    | Move(x: int, y: int)
    | Up
    | PressUndo
    | PressRedo
    | PickBrush(brushType: string)
    | PickColor(color: string)
    | PickSize(size: int)

  function Step(s: State, e: Event): State
  {
    match e
    case Down(x, y) => PointerDownStep(s, x, y)
    case Move(x, y) => PointerMoveStep(s, x, y)
    case Up => PointerUpStep(s)
    case PressUndo => UndoStep(s)
    case PressRedo => RedoStep(s)
    case PickBrush(b) => s.(brushType := b)
    case PickColor(c) => s.(color := c)
    case PickSize(n) => s.(size := n)
  }

  /** The state after a sequence of events, delivered one at a time. */
  function Replay(s: State, events: seq<Event>): State
    decreases |events|
  {
    if events == [] then s else Replay(Step(s, events[0]), events[1..])
  }

  // ---------------------------------------------------------------------------
  // Properties of the undo manager
  // ---------------------------------------------------------------------------

  /** saveState records the strokes as they are, keeps them, and clears the redo stack. */
  lemma SaveStateSnapshot(s: State)
    ensures SaveStateStep(s).strokes == s.strokes
    ensures SaveStateStep(s).history == s.history + [s.strokes]
    ensures SaveStateStep(s).redoStack == []
    ensures UndoStep(SaveStateStep(s)) == s.(redoStack := [s.strokes])
  {
  }

  /** undo on an empty history and redo on an empty redo stack change nothing. */
  lemma EmptyStacksAreNoops(s: State)
    ensures s.history == [] ==> UndoStep(s) == s
    ensures s.redoStack == [] ==> RedoStep(s) == s
  {
  }

  /** undo moves exactly one snapshot from the history to the redo stack. */
  lemma UndoMovesOneSnapshot(s: State)
    requires s.history != []
    ensures UndoStep(s).strokes == s.history[|s.history| - 1]
    ensures UndoStep(s).history + [s.history[|s.history| - 1]] == s.history
    ensures UndoStep(s).redoStack == s.redoStack + [s.strokes]
  {
  }

  /** redo moves exactly one snapshot from the redo stack to the history. */
  lemma RedoMovesOneSnapshot(s: State)
    requires s.redoStack != []
    ensures RedoStep(s).strokes == s.redoStack[|s.redoStack| - 1]
    ensures RedoStep(s).redoStack + [s.redoStack[|s.redoStack| - 1]] == s.redoStack
    ensures RedoStep(s).history == s.history + [s.strokes]
  {
  }

  /** undo followed by redo restores the strokes and both stacks exactly. */
  lemma UndoThenRedo(s: State)
    requires s.history != []
    ensures RedoStep(UndoStep(s)) == s
  {
  }

  /** redo followed by undo restores the strokes and both stacks exactly. */
  lemma RedoThenUndo(s: State)
    requires s.redoStack != []
    ensures UndoStep(RedoStep(s)) == s
  {
  }

  function Undos(s: State, k: nat): State
    decreases k
  {
    if k == 0 then s else Undos(UndoStep(s), k - 1)
  }

  function Redos(s: State, k: nat): State
    decreases k
  {
    if k == 0 then s else RedoStep(Redos(s, k - 1))
  }

  /**
   * Stack discipline: k undos followed by k redos, with nothing in between, come back
   * to exactly the state before, as long as the history held k snapshots.
   */
  lemma {:induction false} UndosThenRedos(s: State, k: nat)
    requires k <= |s.history|
    ensures Redos(Undos(s, k), k) == s
    decreases k
  {
    if k > 0 {
      var u := UndoStep(s);
      assert |u.history| == |s.history| - 1;
      UndosThenRedos(u, k - 1);
      UndoThenRedo(s);
    }
  }

  /** Every transition other than pointerdown keeps the total number of snapshots. */
  lemma StepStackSizes(s: State, e: Event)
    ensures !e.Down? ==> |Step(s, e).history| + |Step(s, e).redoStack| == |s.history| + |s.redoStack|
    ensures e.Down? ==> |Step(s, e).history| == |s.history| + 1 && Step(s, e).redoStack == []
  {
  }

  // ---------------------------------------------------------------------------
  // Properties of the pointer handlers
  // ---------------------------------------------------------------------------

  /**
   * pointerdown starts a gesture whose stroke is exactly the one point at the event's
   * position with the current tool settings; it snapshots the strokes from before the
   * gesture onto the history and empties the redo stack, so redo does nothing until
   * the next undo.
   */
  lemma PointerDownStartsGesture(s: State, x: int, y: int)
    ensures PointerDownStep(s, x, y).drawing
    ensures PointerDownStep(s, x, y).currentStroke == [Point(x, y, s.color, s.size, s.brushType)]
    ensures PointerDownStep(s, x, y).strokes == s.strokes
    ensures PointerDownStep(s, x, y).history == s.history + [s.strokes]
    ensures PointerDownStep(s, x, y).redoStack == []
    ensures RedoStep(PointerDownStep(s, x, y)) == PointerDownStep(s, x, y)
  {
  }

  /**
   * pointermove outside a gesture changes nothing; during one it appends exactly one
   * point to the stroke in progress and touches nothing else.
   */
  lemma PointerMoveExtends(s: State, x: int, y: int)
    ensures !s.drawing ==> PointerMoveStep(s, x, y) == s
    ensures s.drawing ==>
      PointerMoveStep(s, x, y) == s.(currentStroke := s.currentStroke + [Point(x, y, s.color, s.size, s.brushType)])
  {
  }

  /**
   * pointerup commits the stroke in progress exactly when it has points and ends the
   * gesture; it does not look at the gesture flag nor clear the stroke, so a second
   * pointerup commits the same stroke again.
   */
  lemma PointerUpCommits(s: State)
    ensures !PointerUpStep(s).drawing
    ensures PointerUpStep(s).strokes
      == if |s.currentStroke| > 0 then s.strokes + [s.currentStroke] else s.strokes
    ensures PointerUpStep(s).currentStroke == s.currentStroke
    ensures |s.currentStroke| > 0 ==>
      PointerUpStep(PointerUpStep(s)).strokes == s.strokes + [s.currentStroke, s.currentStroke]
  {
  }

  /** The points a sequence of moves records under the tool settings of s. */
  function MovePoints(s: State, moves: seq<(int, int)>): (r: seq<Point>)
    ensures |r| == |moves|
  {
    seq(|moves|, i requires 0 <= i < |moves| => NewPoint(s, moves[i].0, moves[i].1))
  }

  /** The state after a sequence of pointermove events. */
  function Moves(s: State, moves: seq<(int, int)>): State
    decreases |moves|
  {
    if moves == [] then s else Moves(PointerMoveStep(s, moves[0].0, moves[0].1), moves[1..])
  }

  /** During a gesture, moves append their points in order and change nothing else. */
  lemma {:induction false} MovesAppend(s: State, moves: seq<(int, int)>)
    requires s.drawing
    ensures Moves(s, moves) == s.(currentStroke := s.currentStroke + MovePoints(s, moves))
    decreases |moves|
  {
    if moves != [] {
      var t := PointerMoveStep(s, moves[0].0, moves[0].1);
      MovesAppend(t, moves[1..]);
      assert MovePoints(s, moves) == [NewPoint(s, moves[0].0, moves[0].1)] + MovePoints(t, moves[1..]);
    } else {
      assert s.currentStroke + [] == s.currentStroke;
    }
  }

  /** One whole gesture: pointerdown at (x, y), the given moves, pointerup. */
  function Gesture(s: State, x: int, y: int, moves: seq<(int, int)>): State
  {
    PointerUpStep(Moves(PointerDownStep(s, x, y), moves))
  }

  /**
   * A gesture commits one stroke holding the pointerdown point and every move point,
   * in order, with the tool settings of its start; redo after it does nothing; undo
   * after it takes the stroke away again, and redo then brings it back exactly.
   */
  lemma GestureCommitsOneStroke(s: State, x: int, y: int, moves: seq<(int, int)>)
    ensures Gesture(s, x, y, moves).strokes
      == s.strokes + [[NewPoint(s, x, y)] + MovePoints(s, moves)]
    ensures Gesture(s, x, y, moves).history == s.history + [s.strokes]
    ensures Gesture(s, x, y, moves).redoStack == []
    ensures !Gesture(s, x, y, moves).drawing
    ensures RedoStep(Gesture(s, x, y, moves)) == Gesture(s, x, y, moves)
    ensures UndoStep(Gesture(s, x, y, moves)).strokes == s.strokes
    ensures UndoStep(Gesture(s, x, y, moves)).history == s.history
    ensures RedoStep(UndoStep(Gesture(s, x, y, moves))) == Gesture(s, x, y, moves)
  {
    var d := PointerDownStep(s, x, y);
    assert d.currentStroke == [NewPoint(s, x, y)];
    MovesAppend(d, moves);
    assert MovePoints(d, moves) == MovePoints(s, moves);
    var m := Moves(d, moves);
    assert m.currentStroke == [NewPoint(s, x, y)] + MovePoints(s, moves);
    assert |m.currentStroke| > 0;
    var g := Gesture(s, x, y, moves);
    assert (s.history + [s.strokes])[..|s.history|] == s.history;
    UndoThenRedo(g);
  }

  /**
   * The worked example: pointerdown at (10,10), moves to (20,10) and (20,20), pointerup
   * leave one new stroke of three points; undo removes it and redo restores it.
   */
  lemma ThreePointGesture(s: State)
    ensures Gesture(s, 10, 10, [(20, 10), (20, 20)]).strokes
      == s.strokes + [[NewPoint(s, 10, 10), NewPoint(s, 20, 10), NewPoint(s, 20, 20)]]
    ensures UndoStep(Gesture(s, 10, 10, [(20, 10), (20, 20)])).strokes == s.strokes
    ensures RedoStep(UndoStep(Gesture(s, 10, 10, [(20, 10), (20, 20)])))
      == Gesture(s, 10, 10, [(20, 10), (20, 20)])
  {
    GestureCommitsOneStroke(s, 10, 10, [(20, 10), (20, 20)]);
    assert MovePoints(s, [(20, 10), (20, 20)]) == [NewPoint(s, 20, 10), NewPoint(s, 20, 20)];
    assert [NewPoint(s, 10, 10)] + [NewPoint(s, 20, 10), NewPoint(s, 20, 20)]
      == [NewPoint(s, 10, 10), NewPoint(s, 20, 10), NewPoint(s, 20, 20)];
  }

  /** After an undo, a new gesture discards what could have been redone. */
  lemma NewGestureDiscardsRedo(s: State, x: int, y: int, moves: seq<(int, int)>)
    requires s.history != []
    ensures RedoStep(Gesture(UndoStep(s), x, y, moves)) == Gesture(UndoStep(s), x, y, moves)
  {
    GestureCommitsOneStroke(UndoStep(s), x, y, moves);
  }

  // ---------------------------------------------------------------------------
  // The session invariant
  // ---------------------------------------------------------------------------

  predicate NoEmptyStrokes(d: Drawing)
  {
    forall i :: 0 <= i < |d| ==> |d[i]| > 0
  }

  /**
   * During a gesture the stroke in progress has its starting point, and no committed
   * stroke and no stroke in any snapshot is empty.
   */
  predicate Consistent(s: State)
  {
    && (s.drawing ==> |s.currentStroke| > 0)
    && NoEmptyStrokes(s.strokes)
    && (forall j :: 0 <= j < |s.history| ==> NoEmptyStrokes(s.history[j]))
    && (forall j :: 0 <= j < |s.redoStack| ==> NoEmptyStrokes(s.redoStack[j]))
  }

  lemma StepConsistent(s: State, e: Event)
    requires Consistent(s)
    ensures Consistent(Step(s, e))
  {
    match e
    case Up =>
      if |s.currentStroke| > 0 {
        var d := s.strokes + [s.currentStroke];
        assert forall i :: 0 <= i < |d| ==> |d[i]| > 0 by {
          forall i | 0 <= i < |d| ensures |d[i]| > 0 {
            if i < |s.strokes| { assert d[i] == s.strokes[i]; }
          }
        }
      }
    case PressUndo =>
      if |s.history| > 0 {
        var r := UndoStep(s);
        assert forall j :: 0 <= j < |r.history| ==> r.history[j] == s.history[j];
        assert forall j :: 0 <= j < |r.redoStack| ==> r.redoStack[j] == (s.redoStack + [s.strokes])[j];
      }
    case PressRedo =>
      if |s.redoStack| > 0 {
        var r := RedoStep(s);
        assert forall j :: 0 <= j < |r.redoStack| ==> r.redoStack[j] == s.redoStack[j];
        assert forall j :: 0 <= j < |r.history| ==> r.history[j] == (s.history + [s.strokes])[j];
      }
    case Down(x, y) =>
      var r := PointerDownStep(s, x, y);
      assert forall j :: 0 <= j < |r.history| ==> r.history[j] == (s.history + [s.strokes])[j];
    case _ =>
  }

  /** Any sequence of events keeps the session consistent. */
  lemma {:induction false} ReplayConsistent(s: State, events: seq<Event>)
    requires Consistent(s)
    ensures Consistent(Replay(s, events))
    decreases |events|
  {
    if events != [] {
      StepConsistent(s, events[0]);
      ReplayConsistent(Step(s, events[0]), events[1..]);
    }
  }

  // ---------------------------------------------------------------------------
  // The session object
  // ---------------------------------------------------------------------------

  /** The default state of the canvas context: opaque black hairline. */
  function DefaultPen(): Pen
  {
    Pen("#000000", 1.0, 1.0)
  }

  class DrawingSession {
    var drawing: bool
    var strokes: Drawing
    var currentStroke: Stroke
    var history: seq<Drawing>
    var redoStack: seq<Drawing>
    var brushType: string
    var color: string
    var size: int
    /** The part of the canvas context state the renderers change, after every command issued so far. */
    ghost var pen: Pen

    ghost function Model(): State
      reads this
    {
      State(drawing, strokes, currentStroke, history, redoStack, brushType, color, size)
    }

    /** The session is consistent, and between events the global opacity is 1. */
    ghost predicate Valid()
      reads this
    {
      Consistent(Model()) && pen.alpha == 1.0
    }

    /** Page load: empty session, default tools, and the plain background drawn once. */
    constructor ()
      ensures Model() == Initial()
      ensures pen == Run(DefaultPen(), Render.BackgroundCmds("plain"))
      ensures Valid()
    {
      drawing := false;
      strokes := [];
      currentStroke := [];
      history := [];
      redoStack := [];
      brushType := "pen";
      color := "#111";
      size := 3;
      Render.BackgroundPaint(DefaultPen(), "plain");
      pen := Run(DefaultPen(), Render.BackgroundCmds("plain"));
    }

    method SetBrushType(b: string)
      requires Valid()
      modifies this
      ensures Model() == Step(old(Model()), PickBrush(b)) && pen == old(pen)
      ensures Valid()
    {
      StepConsistent(Model(), PickBrush(b));
      brushType := b;
    }

    method SetColor(c: string)
      requires Valid()
      modifies this
      ensures Model() == Step(old(Model()), PickColor(c)) && pen == old(pen)
      ensures Valid()
    {
      StepConsistent(Model(), PickColor(c));
      color := c;
    }

    method SetSize(n: int)
      requires Valid()
      modifies this
      ensures Model() == Step(old(Model()), PickSize(n)) && pen == old(pen)
      ensures Valid()
    {
      StepConsistent(Model(), PickSize(n));
      size := n;
    }

    method SaveState()
      modifies this
      ensures Model() == SaveStateStep(old(Model())) && pen == old(pen)
    {
      history := history + [strokes];
      redoStack := [];
    }

    method PointerDown(x: int, y: int)
      requires Valid()
      modifies this
      ensures Model() == PointerDownStep(old(Model()), x, y) && pen == old(pen)
      ensures Valid()
    {
      StepConsistent(Model(), Down(x, y));
      drawing := true;
      currentStroke := [];
      SaveState();
      currentStroke := currentStroke + [CreatePoint(x, y, color, size, brushType)];
    }

    /** During a gesture, record the point and redraw everything plus the stroke in progress. */
    method PointerMove(x: int, y: int, style: string) returns (cmds: seq<Cmd>)
      requires Valid()
      modifies this
      ensures Model() == PointerMoveStep(old(Model()), x, y)
      ensures cmds == if old(drawing) then Render.RedrawTempCmds(strokes, currentStroke, style) else []
      ensures pen == Run(old(pen), cmds)
      ensures Valid()
    {
      StepConsistent(Model(), Move(x, y));
      if !drawing {
        return [];
      }
      currentStroke := currentStroke + [CreatePoint(x, y, color, size, brushType)];
      cmds := Render.RedrawTemp(strokes, currentStroke, style);
      RedrawTempAlpha(pen, strokes, currentStroke, style);
      pen := Run(pen, cmds);
    }

    method PointerUp()
      requires Valid()
      modifies this
      ensures Model() == PointerUpStep(old(Model())) && pen == old(pen)
      ensures Valid()
    {
      StepConsistent(Model(), Up);
      if |currentStroke| > 0 {
        strokes := strokes + [currentStroke];
      }
      drawing := false;
    }

    method Undo(style: string) returns (cmds: seq<Cmd>)
      requires Valid()
      modifies this
      ensures Model() == UndoStep(old(Model()))
      ensures cmds == if old(history) == [] then [] else Render.RedrawAllCmds(strokes, style)
      ensures pen == Run(old(pen), cmds)
      ensures Valid()
    {
      StepConsistent(Model(), PressUndo);
      if |history| == 0 {
        return [];
      }
      redoStack := redoStack + [strokes];
      strokes := history[|history| - 1];
      history := history[..|history| - 1];
      cmds := Render.RedrawAll(strokes, style);
      Render.RedrawAllPaint(pen, strokes, style);
      pen := Run(pen, cmds);
    }

    method Redo(style: string) returns (cmds: seq<Cmd>)
      requires Valid()
      modifies this
      ensures Model() == RedoStep(old(Model()))
      ensures cmds == if old(redoStack) == [] then [] else Render.RedrawAllCmds(strokes, style)
      ensures pen == Run(old(pen), cmds)
      ensures Valid()
    {
      StepConsistent(Model(), PressRedo);
      if |redoStack| == 0 {
        return [];
      }
      history := history + [strokes];
      strokes := redoStack[|redoStack| - 1];
      redoStack := redoStack[..|redoStack| - 1];
      cmds := Render.RedrawAll(strokes, style);
      Render.RedrawAllPaint(pen, strokes, style);
      pen := Run(pen, cmds);
    }

    /** A change of background style redraws everything over the new background. */
    method ChangeStyle(style: string) returns (cmds: seq<Cmd>)
      requires Valid()
      modifies this`pen
      ensures cmds == Render.RedrawAllCmds(strokes, style)
      ensures pen == Run(old(pen), cmds)
      ensures Valid()
    {
      cmds := Render.RedrawAll(strokes, style);
      Render.RedrawAllPaint(pen, strokes, style);
      pen := Run(pen, cmds);
    }

    method OptimizeHandwriting(style: string) returns (cmds: seq<Cmd>)
      requires Valid()
      modifies this`pen
      ensures cmds == Render.OptimizeCmds(strokes, style)
      ensures pen == Run(old(pen), cmds)
      ensures Valid()
    {
      cmds := Render.OptimizeHandwriting(strokes, style);
      Render.OptimizePaint(pen, strokes, style);
      pen := Run(pen, cmds);
    }
  }

  /** redrawTemp, like redrawAll, ends at opacity 1 when it starts there. */
  lemma RedrawTempAlpha(pen: Pen, strokes: seq<Stroke>, current: Stroke, style: string)
    requires pen.alpha == 1.0
    ensures Run(pen, Render.RedrawTempCmds(strokes, current, style)).alpha == 1.0
  {
    Render.RedrawAllPaint(pen, strokes, style);
    RunAppend(pen, Render.RedrawAllCmds(strokes, style), Render.StrokeCmds(current));
    if |current| >= 2 {
      Render.DrawStrokePaint(Run(pen, Render.RedrawAllCmds(strokes, style)), current);
    }
  }
}

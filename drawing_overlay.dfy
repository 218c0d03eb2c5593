/** The annotation layer drawn over video playback: a pointer press starts a
    stroke, moves extend it, release commits it if it has more than one point,
    and the committed strokes can be undone one at a time or cleared. Canvas
    rendering and the pointer-to-canvas geometry are not modelled; a pointer
    position arrives already normalised. */
module DrawingOverlay {
  import opened Common

  datatype Tool = Pen | Line | Circle

  datatype Point = Point(x: real, y: real)

  datatype Stroke = Stroke(tool: Tool, color: string, width: real, points: seq<Point>)

  /** `prev.slice(0, -1)`: every element but the last; nothing for an empty list. */
  function DropLast<T>(s: seq<T>): (r: seq<T>)
    ensures |s| > 0 ==> |r| == |s| - 1
    ensures |s| == 0 ==> r == []
    ensures r <= s
  {
    if |s| == 0 then [] else s[..|s| - 1]
  }

  /** Undo takes back exactly the stroke just committed. */
  lemma UndoAfterCommit<T>(s: seq<T>, x: T)
    ensures DropLast(s + [x]) == s
  {
    assert (s + [x])[..|s|] == s;
  }

  /** How the committed list may change: a stroke appended at the end, or
      strokes taken off the end; a committed stroke is never edited in place. */
  predicate NoStrokeEdited(before: seq<Stroke>, after: seq<Stroke>) {
    after <= before || (before <= after && |after| == |before| + 1)
  }

  class Overlay {
    var strokes: seq<Stroke>
    var currentStroke: Option<Stroke>
    var tool: Tool
    var color: string
    var width: real
    var isDrawing: bool

    /** Committed strokes have at least two points; a stroke is in progress
        exactly while drawing, and it has at least its starting point. */
    ghost predicate Valid()
      reads this
    {
      (forall i :: 0 <= i < |strokes| ==> |strokes[i].points| > 1) &&
      (isDrawing <==> currentStroke.Some?) &&
      (currentStroke.Some? ==> |currentStroke.value.points| >= 1)
    }

    /** No strokes, the pen, red and width 4. */
    constructor ()
      ensures Valid()
      ensures strokes == [] && currentStroke == None && !isDrawing
      ensures tool == Pen && color == "#ef4444" && width == 4.0
    {
      strokes := [];
      currentStroke := None;
      tool := Pen;
      color := "#ef4444";
      width := 4.0;
      isDrawing := false;
    }

    /** handleStart: when the overlay is active, begin a stroke with the
        selected tool, colour and width at the pointer position. */
    method HandleStart(active: bool, pos: Point)
      requires Valid()
      modifies this
      ensures Valid()
      ensures !active ==> currentStroke == old(currentStroke) && isDrawing == old(isDrawing)
      ensures active ==> isDrawing && currentStroke == Some(Stroke(tool, color, width, [pos]))
      ensures strokes == old(strokes) && tool == old(tool) && color == old(color) && width == old(width)
    {
      if !active {
        return;
      }
      isDrawing := true;
      currentStroke := Some(Stroke(tool, color, width, [pos]));
    }

    /** handleMove: while drawing, extend the current stroke by one point. */
    method HandleMove(pos: Point)
      requires Valid()
      modifies this
      ensures Valid()
      ensures old(isDrawing) && old(currentStroke).Some? ==>
                currentStroke == Some(old(currentStroke).value.(points := old(currentStroke).value.points + [pos]))
      ensures !(old(isDrawing) && old(currentStroke).Some?) ==> currentStroke == old(currentStroke)
      ensures isDrawing == old(isDrawing)
      ensures strokes == old(strokes) && tool == old(tool) && color == old(color) && width == old(width)
    {
      if !isDrawing || currentStroke.None? {
        return;
      }
      var cs := currentStroke.value;
      currentStroke := Some(cs.(points := cs.points + [pos]));
    }

    /** handleEnd: stop drawing and commit the stroke if it has more than one point. */
    method HandleEnd()
      requires Valid()
      modifies this
      ensures Valid()
      ensures old(isDrawing) && old(currentStroke).Some? ==>
                !isDrawing && currentStroke == None &&
                strokes == old(strokes) + (if |old(currentStroke).value.points| > 1 then [old(currentStroke).value] else [])
      ensures !(old(isDrawing) && old(currentStroke).Some?) ==>
                strokes == old(strokes) && currentStroke == old(currentStroke) && isDrawing == old(isDrawing)
      ensures NoStrokeEdited(old(strokes), strokes)
      ensures tool == old(tool) && color == old(color) && width == old(width)
    {
      if !isDrawing || currentStroke.None? {
        return;
      }
      var cs := currentStroke.value;
      isDrawing := false;
      if |cs.points| > 1 {
        strokes := strokes + [cs];
      }
      currentStroke := None;
    }

    /** handleUndo: drop the last committed stroke, if any. */
    method HandleUndo()
      requires Valid()
      modifies this
      ensures Valid()
      ensures strokes == DropLast(old(strokes))
      ensures NoStrokeEdited(old(strokes), strokes)
      ensures currentStroke == old(currentStroke) && isDrawing == old(isDrawing)
      ensures tool == old(tool) && color == old(color) && width == old(width)
    {
      strokes := DropLast(strokes);
    }

    /** handleClear: drop every committed stroke. */
    method HandleClear()
      requires Valid()
      modifies this
      ensures Valid()
      ensures strokes == []
      ensures currentStroke == old(currentStroke) && isDrawing == old(isDrawing)
      ensures tool == old(tool) && color == old(color) && width == old(width)
    {
      strokes := [];
    }

    /** Choosing a tool affects strokes started from now on only. */
    method SetTool(t: Tool)
      requires Valid()
      modifies this
      ensures Valid()
      ensures tool == t
      ensures strokes == old(strokes) && currentStroke == old(currentStroke) && isDrawing == old(isDrawing)
      ensures color == old(color) && width == old(width)
    {
      tool := t;
    }

    method SetColor(c: string)
      requires Valid()
      modifies this
      ensures Valid()
      ensures color == c
      ensures strokes == old(strokes) && currentStroke == old(currentStroke) && isDrawing == old(isDrawing)
      ensures tool == old(tool) && width == old(width)
    {
      color := c;
    }

    method SetWidth(w: real)
      requires Valid()
      modifies this
      ensures Valid()
      ensures width == w
      ensures strokes == old(strokes) && currentStroke == old(currentStroke) && isDrawing == old(isDrawing)
      ensures tool == old(tool) && color == old(color)
    {
      width := w;
    }
  }

  /** A press, one move and a release commit one two-point stroke, and an undo
      takes it back. */
  method StrokeThenUndo(a: Point, b: Point)
  {
    var overlay := new Overlay();
    overlay.HandleStart(true, a);
    overlay.HandleMove(b);
    overlay.HandleEnd();
    assert [a] + [b] == [a, b];
    assert overlay.strokes == [Stroke(Pen, "#ef4444", 4.0, [a, b])];
    overlay.HandleUndo();
    assert overlay.strokes == [];
  }

  /** A press and release with no move in between (a tap) commits nothing. */
  method TapCommitsNothing(a: Point)
  {
    var overlay := new Overlay();
    overlay.HandleStart(true, a);
    overlay.HandleEnd();
    assert overlay.strokes == [] && !overlay.isDrawing;
  }
}

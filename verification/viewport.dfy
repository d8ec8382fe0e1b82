/** The cursor and scroll primitives shared by every scrollable panel.

    A view is its backing lines plus a cursor (cx, cy) and a scroll origin
    (ox, oy). Rows passed to the surface are relative to the visible window,
    so view row `y` is backing line `oy + y`. Whether the surface accepts a
    new cursor or origin is decided by the rendering library from the window
    size, which this model does not see: it is the abstract Window. */
module Viewport {

  import opened Wrappers
  import Text
  import Names
  import GoInt

  datatype View = View(name: Names.Name, lines: seq<string>, cx: int, cy: int, ox: int, oy: int)

  /** The surface's acceptance rules for SetCursor(x, y) and SetOrigin(x, y)
      on one view. A rejected call leaves the view as it was. */
  datatype Window = Window(cursorOk: (int, int) -> bool, originOk: (int, int) -> bool)

  /** The view after a primitive (None for an absent view) and whether the
      primitive returned an error. */
  datatype Outcome = Outcome(view: Option<View>, failed: bool)

  /** The backing line shown at view row `y`, if there is one. */
  function Line(v: View, y: int): Option<string>
  {
    var k := v.oy + y;
    if 0 <= k < |v.lines| then Some(v.lines[k]) else None
  }

  /** The row ReadLine reads: the given one, or the cursor row. */
  function Row(v: View, y: Option<int>): int
  {
    if y.Some? then y.value else v.cy
  }

  /** Row `y` has no line, or only spaces. */
  predicate BlankRow(v: View, y: int)
  {
    Line(v, y).None? || Text.AllSpaces(Line(v, y).value)
  }

  /** ReadLine: the line at row `y` (the cursor row when `y` is absent) with
      its surrounding spaces removed, and "" when the row has no line. */
  function ReadLine(v: View, y: Option<int>): (r: string)
    ensures |r| == 0 <==> BlankRow(v, Row(v, y))
    ensures Line(v, Row(v, y)).Some? ==> Text.TrimOf(Line(v, Row(v, y)).value, r)
  {
    match Line(v, Row(v, y))
    case None => ""
    case Some(s) => Text.TrimIsTrimOf(s); Text.TrimEmptyIffBlank(s); Text.Trim(s)
  }

  /** `b` is `a` with its cursor row and origin row moved by the given amounts. */
  predicate Shifted(a: View, b: View, dcy: int, doy: int)
  {
    b == a.(cy := a.cy + dcy, oy := a.oy + doy)
  }

  /** The cursor addresses a backing line and no coordinate is negative. */
  predicate Placed(v: View)
  {
    0 <= v.cx && 0 <= v.cy && 0 <= v.ox && 0 <= v.oy && v.oy + v.cy < |v.lines|
  }

  /** The surface never accepts a negative cursor or origin. */
  ghost predicate Sane(w: Window)
  {
    && (forall x, y :: w.cursorOk(x, y) ==> 0 <= x && 0 <= y)
    && (forall x, y :: w.originOk(x, y) ==> 0 <= x && 0 <= y)
  }

  /** CursorDown: move one line down unless the next row is blank; move the
      cursor if the surface lets it, otherwise scroll the origin. */
  function CursorDown(v: Option<View>, w: Window): (r: Outcome)
    ensures v.None? ==> r == Outcome(None, false)
    ensures v.Some? ==> r.view.Some?
    ensures r.failed ==> r.view == v
    ensures v.Some? ==>
      var a, b := v.value, r.view.value;
      && (b == a || Shifted(a, b, 1, 0) || Shifted(a, b, 0, 1))
      && (BlankRow(a, a.cy + 1) ==> r == Outcome(v, false))
      && (b != a ==> Line(b, b.cy) == Line(a, a.cy + 1))
      && (Shifted(a, b, 1, 0) <==> !BlankRow(a, a.cy + 1) && w.cursorOk(a.cx, a.cy + 1))
      && (Shifted(a, b, 0, 1) <==> !BlankRow(a, a.cy + 1) && !w.cursorOk(a.cx, a.cy + 1) && w.originOk(a.ox, a.oy + 1))
      && (r.failed <==> !BlankRow(a, a.cy + 1) && !w.cursorOk(a.cx, a.cy + 1) && !w.originOk(a.ox, a.oy + 1))
  {
    match v
    case None => Outcome(None, false)
    case Some(a) =>
      if |ReadLine(a, Some(a.cy + 1))| == 0 then Outcome(v, false)
      else if w.cursorOk(a.cx, a.cy + 1) then Outcome(Some(a.(cy := a.cy + 1)), false)
      else if w.originOk(a.ox, a.oy + 1) then Outcome(Some(a.(oy := a.oy + 1)), false)
      else Outcome(v, true)
  }

  /** The header guard of the list panels: cursor on row 1 with the origin
      above row 2. */
  predicate AtListTop(a: View)
  {
    a.name != Names.DetailPanel && a.cy - 1 == 0 && a.oy - 1 < 1
  }

  /** CursorUp: move one line up; list panels refuse to enter their header
      row; move the cursor if the surface lets it, otherwise scroll the
      origin back when it is not at the top. */
  function CursorUp(v: Option<View>, w: Window): (r: Outcome)
    ensures v.None? ==> r == Outcome(None, false)
    ensures v.Some? ==> r.view.Some?
    ensures r.failed ==> r.view == v
    ensures v.Some? ==>
      var a, b := v.value, r.view.value;
      && (b == a || Shifted(a, b, -1, 0) || Shifted(a, b, 0, -1))
      && (a.name != Names.DetailPanel && a.cy == 1 && a.oy < 2 ==> r == Outcome(v, false))
      && (Shifted(a, b, -1, 0) <==> !AtListTop(a) && w.cursorOk(a.cx, a.cy - 1))
      && (Shifted(a, b, 0, -1) <==> !AtListTop(a) && !w.cursorOk(a.cx, a.cy - 1) && a.oy > 0 && w.originOk(a.ox, a.oy - 1))
      && (r.failed <==> !AtListTop(a) && !w.cursorOk(a.cx, a.cy - 1) && a.oy > 0 && !w.originOk(a.ox, a.oy - 1))
  {
    match v
    case None => Outcome(None, false)
    case Some(a) =>
      if AtListTop(a) then Outcome(v, false)
      else if w.cursorOk(a.cx, a.cy - 1) then Outcome(Some(a.(cy := a.cy - 1)), false)
      else if a.oy > 0 then
        if w.originOk(a.ox, a.oy - 1) then Outcome(Some(a.(oy := a.oy - 1)), false)
        else Outcome(v, true)
      else Outcome(v, false)
  }

  /** The page stride: half the terminal height, truncated as Go divides. */
  function Stride(maxY: int): int
  {
    GoInt.GoDiv(maxY, 2)
  }

  /** PageDown: like CursorDown with a stride of half the terminal height,
      but without looking at the content first. */
  function PageDown(v: Option<View>, w: Window, maxY: int): (r: Outcome)
    ensures v.None? ==> r == Outcome(None, false)
    ensures v.Some? ==> r.view.Some?
    ensures r.failed ==> r.view == v
    ensures v.Some? ==>
      var a, b, s := v.value, r.view.value, Stride(maxY);
      && (b == a || Shifted(a, b, s, 0) || Shifted(a, b, 0, s))
      && (w.cursorOk(a.cx, a.cy + s) ==> Shifted(a, b, s, 0))
      && (!w.cursorOk(a.cx, a.cy + s) && w.originOk(a.ox, a.oy + s) ==> Shifted(a, b, 0, s))
      && (r.failed <==> !w.cursorOk(a.cx, a.cy + s) && !w.originOk(a.ox, a.oy + s))
  {
    match v
    case None => Outcome(None, false)
    case Some(a) =>
      var s := Stride(maxY);
      if w.cursorOk(a.cx, a.cy + s) then Outcome(Some(a.(cy := a.cy + s)), false)
      else if w.originOk(a.ox, a.oy + s) then Outcome(Some(a.(oy := a.oy + s)), false)
      else Outcome(v, true)
  }

  /** PageUp: like CursorUp with a stride of half the terminal height and
      no header guard. */
  function PageUp(v: Option<View>, w: Window, maxY: int): (r: Outcome)
    ensures v.None? ==> r == Outcome(None, false)
    ensures v.Some? ==> r.view.Some?
    ensures r.failed ==> r.view == v
    ensures v.Some? ==>
      var a, b, s := v.value, r.view.value, Stride(maxY);
      && (b == a || Shifted(a, b, -s, 0) || Shifted(a, b, 0, -s))
      && (w.cursorOk(a.cx, a.cy - s) ==> Shifted(a, b, -s, 0))
      && (!w.cursorOk(a.cx, a.cy - s) && a.oy > 0 && w.originOk(a.ox, a.oy - s) ==> Shifted(a, b, 0, -s))
      && (!w.cursorOk(a.cx, a.cy - s) && a.oy <= 0 ==> r == Outcome(v, false))
      && (r.failed <==> !w.cursorOk(a.cx, a.cy - s) && a.oy > 0 && !w.originOk(a.ox, a.oy - s))
  {
    match v
    case None => Outcome(None, false)
    case Some(a) =>
      var s := Stride(maxY);
      if w.cursorOk(a.cx, a.cy - s) then Outcome(Some(a.(cy := a.cy - s)), false)
      else if a.oy > 0 then
        if w.originOk(a.ox, a.oy - s) then Outcome(Some(a.(oy := a.oy - s)), false)
        else Outcome(v, true)
      else Outcome(v, false)
  }

  /** CursorDown keeps the cursor on a backing line. */
  lemma {:induction false} CursorDownKeepsPlaced(v: View, w: Window)
    requires Placed(v)
    ensures Placed(CursorDown(Some(v), w).view.value)
  {
    var r := CursorDown(Some(v), w);
    var b := r.view.value;
    if b != v {
      assert !BlankRow(v, v.cy + 1);
      assert v.oy + v.cy + 1 < |v.lines|;
    }
  }

  /** CursorUp keeps the cursor on a backing line, provided the surface
      never accepts a negative cursor. */
  lemma CursorUpKeepsPlaced(v: View, w: Window)
    requires Placed(v) && Sane(w)
    ensures Placed(CursorUp(Some(v), w).view.value)
  {
    var b := CursorUp(Some(v), w).view.value;
    if Shifted(v, b, -1, 0) {
      assert w.cursorOk(v.cx, v.cy - 1);
    }
  }

  /** A CursorUp undoes a CursorDown that moved the cursor, unless that move
      left a list panel on its header-guarded row 1. */
  lemma {:induction false} CursorUpUndoesCursorDown(v: View, w: Window)
    requires Shifted(v, CursorDown(Some(v), w).view.value, 1, 0)
    requires w.cursorOk(v.cx, v.cy)
    requires !AtListTop(v.(cy := v.cy + 1))
    ensures CursorUp(CursorDown(Some(v), w).view, w) == Outcome(Some(v), false)
  {
    var b := v.(cy := v.cy + 1);
    assert CursorDown(Some(v), w).view == Some(b);
    assert b.(cy := b.cy - 1) == v;
  }

  /** On a list panel at the very top, a step down onto row 1 cannot be taken
      back: row 0 is the header. */
  lemma ListHeaderIsOneWay(v: View, w: Window)
    requires v.name != Names.DetailPanel && v.cy == 0 && v.oy == 0
    requires Shifted(v, CursorDown(Some(v), w).view.value, 1, 0)
    ensures CursorUp(CursorDown(Some(v), w).view, w) == CursorDown(Some(v), w)
  {
  }

  /** A PageUp undoes a PageDown that moved the cursor, provided the surface
      accepts the original cursor. */
  lemma PageUpUndoesPageDown(v: View, w: Window, maxY: int)
    requires Shifted(v, PageDown(Some(v), w, maxY).view.value, Stride(maxY), 0)
    requires w.cursorOk(v.cx, v.cy)
    ensures PageUp(PageDown(Some(v), w, maxY).view, w, maxY) == Outcome(Some(v), false)
  {
    var s := Stride(maxY);
    var b := v.(cy := v.cy + s);
    assert b.cy - s == v.cy;
    assert b.(cy := b.cy - s) == v;
  }

  /** Unlike CursorDown, PageDown does not consult the content: on a one-line
      view it can put the cursor past the last line. */
  lemma PageDownCanLeaveContent()
    ensures var v := View(Names.DetailPanel, ["a"], 0, 0, 0, 0);
      var w := Window((x: int, y: int) => 0 <= x && 0 <= y, (x: int, y: int) => 0 <= x && 0 <= y);
      Placed(v) && Sane(w) && !Placed(PageDown(Some(v), w, 10).view.value)
  {
  }

  /** The walk-through: on lines "a", "b", "" the first step down moves the
      cursor to row 1, the second is refused because row 2 is blank. */
  lemma DownTwiceStopsAtBlankLine(w: Window)
    requires w.cursorOk(0, 1)
    ensures var v := View(Names.ImageListPanel, ["a", "b", ""], 0, 0, 0, 0);
      && CursorDown(Some(v), w) == Outcome(Some(v.(cy := 1)), false)
      && CursorDown(Some(v.(cy := 1)), w) == Outcome(Some(v.(cy := 1)), false)
  {
    var v := View(Names.ImageListPanel, ["a", "b", ""], 0, 0, 0, 0);
    var v' := v.(cy := 1);
    assert Line(v, 1) == Some("b");
    assert "b"[0] != ' ';
    assert !BlankRow(v, 1);
    assert |ReadLine(v, Some(1))| != 0;
    assert Line(v', 2) == Some("");
    assert BlankRow(v', 2);
    assert |ReadLine(v', Some(2))| == 0;
  }
}

/** The rectangles the dashboard asks the terminal surface for, computed
    with Go's truncating division. */
module Geometry {

  import opened GoInt

  /** A view rectangle by its corners, as gocui's SetView takes it:
      (x0, y0) top-left and (x1, y1) bottom-right, frame included. */
  datatype Rect = Rect(x0: int, y0: int, x1: int, y1: int)

  /** Left column, top third. */
  function ImageListRect(maxX: int, maxY: int): (r: Rect)
    ensures r.x0 == 0 && r.y0 == 0
    // the right edge is maxX / 2 - 1 and the bottom edge maxY / 3 - 1, truncated toward zero
    ensures 0 <= maxX ==> 2 * (r.x1 + 1) <= maxX < 2 * (r.x1 + 1) + 2
    ensures maxX < 0 ==> 2 * (r.x1 + 1) - 2 < maxX <= 2 * (r.x1 + 1)
    ensures 0 <= maxY ==> 3 * (r.y1 + 1) <= maxY < 3 * (r.y1 + 1) + 3
    ensures maxY < 0 ==> 3 * (r.y1 + 1) - 3 < maxY <= 3 * (r.y1 + 1)
  {
    Rect(0, 0, GoDiv(maxX, 2) - 1, GoDiv(maxY, 3) - 1)
  }

  /** Left column, middle third. */
  function ContainerListRect(maxX: int, maxY: int): (r: Rect)
    ensures r.x0 == 0
    // the right edge is maxX / 2 - 1 and the top edge maxY / 3, truncated toward zero
    ensures 0 <= maxX ==> 2 * (r.x1 + 1) <= maxX < 2 * (r.x1 + 1) + 2
    ensures maxX < 0 ==> 2 * (r.x1 + 1) - 2 < maxX <= 2 * (r.x1 + 1)
    ensures 0 <= maxY ==> 3 * r.y0 <= maxY < 3 * r.y0 + 3
    ensures maxY < 0 ==> 3 * r.y0 - 3 < maxY <= 3 * r.y0
    // the bottom edge is one row above twice the top edge
    ensures r.y1 == 2 * r.y0 - 1
  {
    Rect(0, GoDiv(maxY, 3), GoDiv(maxX, 2) - 1, GoDiv(maxY, 3) * 2 - 1)
  }

  /** Left column, bottom third, down to the navigation bar. */
  function VolumeListRect(maxX: int, maxY: int): (r: Rect)
    ensures r.x0 == 0 && r.y1 == maxY - 3
    // the right edge is maxX / 2 - 1 and the top edge twice maxY / 3, truncated toward zero
    ensures 0 <= maxX ==> 2 * (r.x1 + 1) <= maxX < 2 * (r.x1 + 1) + 2
    ensures maxX < 0 ==> 2 * (r.x1 + 1) - 2 < maxX <= 2 * (r.x1 + 1)
    ensures r.y0 % 2 == 0
    ensures 0 <= maxY ==> 3 * r.y0 <= 2 * maxY < 3 * r.y0 + 6
    ensures maxY < 0 ==> 3 * r.y0 - 6 < 2 * maxY <= 3 * r.y0
  {
    Rect(0, GoDiv(maxY, 3) * 2, GoDiv(maxX, 2) - 1, maxY - 3)
  }

  /** Right column, full height down to the navigation bar. */
  function DetailRect(maxX: int, maxY: int): (r: Rect)
    ensures r.y0 == 0 && r.x1 == maxX - 1 && r.y1 == maxY - 3
    // the left edge is maxX / 2 + 1, truncated toward zero
    ensures 0 <= maxX ==> 2 * (r.x0 - 1) <= maxX < 2 * (r.x0 - 1) + 2
    ensures maxX < 0 ==> 2 * (r.x0 - 1) - 2 < maxX <= 2 * (r.x0 - 1)
  {
    Rect(GoDiv(maxX, 2) + 1, 0, maxX - 1, maxY - 3)
  }

  /** The navigation bar along the bottom edge: every column but the last
      and the bottom three rows, the last one included. */
  function NavigateRect(maxX: int, maxY: int): (r: Rect)
    ensures r.x0 == 0 && r.x1 + 1 == maxX
    ensures r.y1 == maxY && r.y1 - r.y0 == 3
  {
    Rect(0, maxY - 3, maxX - 1, maxY)
  }

  /** The error overlay: a fifth of the width as margin on both sides, four rows tall. */
  function ErrorRect(maxX: int, maxY: int): (r: Rect)
    ensures r.x0 + r.x1 == maxX
    ensures r.y1 - r.y0 == 4
    ensures 0 <= maxX ==> 0 <= r.x0 <= r.x1 <= maxX
    ensures 0 < maxX ==> r.x0 < r.x1
    // the left edge is maxX / 5 and the top edge maxY / 3, truncated toward zero
    ensures 0 <= maxX ==> 5 * r.x0 <= maxX < 5 * r.x0 + 5
    ensures maxX < 0 ==> 5 * r.x0 - 5 < maxX <= 5 * r.x0
    ensures 0 <= maxY ==> 3 * r.y0 <= maxY < 3 * r.y0 + 3
    ensures maxY < 0 ==> 3 * r.y0 - 3 < maxY <= 3 * r.y0
  {
    var x := GoDiv(maxX, 5);
    var y := GoDiv(maxY, 3);
    Rect(x, y, maxX - x, y + 4)
  }

  /** The confirmation overlay: the error overlay's margins, two rows tall. */
  function ConfirmRect(maxX: int, maxY: int): (r: Rect)
    ensures r.x0 + r.x1 == maxX
    ensures r.y1 - r.y0 == 2
    ensures 0 <= maxX ==> 0 <= r.x0 <= r.x1 <= maxX
    ensures 0 < maxX ==> r.x0 < r.x1
    // the left edge is maxX / 5 and the top edge maxY / 3, truncated toward zero
    ensures 0 <= maxX ==> 5 * r.x0 <= maxX < 5 * r.x0 + 5
    ensures maxX < 0 ==> 5 * r.x0 - 5 < maxX <= 5 * r.x0
    ensures 0 <= maxY ==> 3 * r.y0 <= maxY < 3 * r.y0 + 3
    ensures maxY < 0 ==> 3 * r.y0 - 3 < maxY <= 3 * r.y0
  {
    var x := GoDiv(maxX, 5);
    var y := GoDiv(maxY, 3);
    Rect(x, y, maxX - x, y + 2)
  }

  /** The status overlay: a third of the width as margin on both sides, two rows tall. */
  function StateRect(maxX: int, maxY: int): (r: Rect)
    ensures r.x0 + r.x1 == maxX
    ensures r.y1 - r.y0 == 2
    ensures 0 <= maxX ==> 0 <= r.x0 <= r.x1 <= maxX
    ensures 0 < maxX ==> r.x0 < r.x1
    // the left edge is maxX / 3 and the top edge maxY / 3, truncated toward zero
    ensures 0 <= maxX ==> 3 * r.x0 <= maxX < 3 * r.x0 + 3
    ensures maxX < 0 ==> 3 * r.x0 - 3 < maxX <= 3 * r.x0
    ensures 0 <= maxY ==> 3 * r.y0 <= maxY < 3 * r.y0 + 3
    ensures maxY < 0 ==> 3 * r.y0 - 3 < maxY <= 3 * r.y0
  {
    var x := GoDiv(maxX, 3);
    var y := GoDiv(maxY, 3);
    Rect(x, y, maxX - x, y + 2)
  }

  /** The three overlays share their top row; the error overlay is two rows
      taller than the other two, and the status overlay sits horizontally
      inside the error and confirmation overlays. */
  lemma OverlaysNest(maxX: int, maxY: int)
    requires 0 <= maxX
    ensures ErrorRect(maxX, maxY).y0 == ConfirmRect(maxX, maxY).y0 == StateRect(maxX, maxY).y0
    ensures ErrorRect(maxX, maxY).y1 == ConfirmRect(maxX, maxY).y1 + 2
    ensures ConfirmRect(maxX, maxY).x0 <= StateRect(maxX, maxY).x0
    ensures StateRect(maxX, maxY).x1 <= ConfirmRect(maxX, maxY).x1
  {
    var a, b := maxX / 5, maxX / 3;
    assert 5 * a <= maxX < 5 * a + 5;
    assert 3 * b <= maxX < 3 * b + 3;
    assert a <= b;
  }
}

/** Placement of widgets on the dashboard grid (GridPlacement.kt). Coordinates are unbounded here. */
module GridPlacement {
  import opened Common

  datatype Widget = Widget(id: string, objectId: Option<string>, kind: string, title: string,
                           x: int, y: int, w: int, h: int, config: map<string, string>)

  predicate RectsOverlap(a: Widget, b: Widget) {
    a.x < b.x + b.w && a.x + a.w > b.x && a.y < b.y + b.h && a.y + a.h > b.y
  }

  function Candidate(x: int, y: int, w: int, h: int): Widget {
    Widget("", None, "text_value", "", x, y, w, h, map[])
  }

  predicate SlotFree(widgets: seq<Widget>, x: int, y: int, w: int, h: int) {
    forall i :: 0 <= i < |widgets| ==> !RectsOverlap(Candidate(x, y, w, h), widgets[i])
  }

  predicate WouldOverlapAny(x: int, y: int, w: int, h: int, others: seq<Widget>, excludeId: Option<string>) {
    exists i :: 0 <= i < |others| && Some(others[i].id) != excludeId && RectsOverlap(Candidate(x, y, w, h), others[i])
  }

  function AtLeastZero(n: int): int {
    if n < 0 then 0 else n
  }

  /** The greatest bottom edge, 0 without widgets. */
  function MaxBottom(widgets: seq<Widget>): (bottom: int)
    ensures |widgets| == 0 ==> bottom == 0
    ensures |widgets| > 0 ==> exists i :: 0 <= i < |widgets| && widgets[i].y + widgets[i].h == bottom
    ensures forall i :: 0 <= i < |widgets| ==> widgets[i].y + widgets[i].h <= bottom
  {
    if |widgets| == 0 then 0
    else if |widgets| == 1 then
      assert widgets[0].y + widgets[0].h == widgets[0].y + widgets[0].h;
      widgets[0].y + widgets[0].h
    else
      var last := widgets[|widgets| - 1];
      var before := MaxBottom(widgets[..|widgets| - 1]);
      if last.y + last.h > before then last.y + last.h else before
  }

  /** The scan order: row by row, column by column. */
  predicate Before(x: int, y: int, x': int, y': int) {
    y < y' || (y == y' && x < x')
  }

  predicate Scanned(x: int, y: int, maxX: int, maxY: int) {
    0 <= x <= maxX && 0 <= y <= maxY
  }

  // ---- What it finds ----

  ghost predicate InRect(a: Widget, x: int, y: int) {
    a.x <= x < a.x + a.w && a.y <= y < a.y + a.h
  }

  /** Overlap is having a cell in common. */
  lemma OverlapIsSharedCell(a: Widget, b: Widget)
    requires a.w > 0 && a.h > 0 && b.w > 0 && b.h > 0
    ensures RectsOverlap(a, b) <==> exists x, y :: InRect(a, x, y) && InRect(b, x, y)
    ensures RectsOverlap(a, b) == RectsOverlap(b, a)
  {
    var x, y := if a.x > b.x then a.x else b.x, if a.y > b.y then a.y else b.y;
    if RectsOverlap(a, b) {
      assert InRect(a, x, y) && InRect(b, x, y);
    }
  }

  ghost predicate FirstFree(columns: int, widgets: seq<Widget>, w: int, h: int, x: int, y: int) {
    && SlotFree(widgets, x, y, w, h)
    && 0 <= y && 0 <= x <= AtLeastZero(columns - w)
    && forall x', y' :: 0 <= y' && 0 <= x' <= AtLeastZero(columns - w) && SlotFree(widgets, x', y', w, h) ==> !Before(x', y', x, y)
  }

  /** Unless the widgets or the new one reach above row 0, what the scan returns is the first free cell
      of the whole unbounded grid, no lower than the last bottom edge: the fallback is unreachable. */
  lemma ScanFindsFirstFree(columns: int, widgets: seq<Widget>, w: int, h: int, x: int, y: int)
    requires MaxBottom(widgets) >= 0 && h >= 0
    requires ScanResult(widgets, w, h, AtLeastZero(columns - w), MaxBottom(widgets) + h, x, y)
    ensures FirstFree(columns, widgets, w, h, x, y)
    ensures y <= MaxBottom(widgets)
  {
    var maxX, maxY := AtLeastZero(columns - w), MaxBottom(widgets) + h;
    assert Scanned(0, MaxBottom(widgets), maxX, maxY);
    assert !Before(0, MaxBottom(widgets), x, y);
    forall x', y' | 0 <= y' && 0 <= x' <= maxX && SlotFree(widgets, x', y', w, h)
      ensures !Before(x', y', x, y)
    {
      if y' <= maxY {
        assert Scanned(x', y', maxX, maxY);
      }
    }
  }

  // ---- The search ----

  // The first free cell scanned, or (0, maxY) when there is none.
  ghost predicate ScanResult(widgets: seq<Widget>, w: int, h: int, maxX: int, maxY: int, x: int, y: int) {
    if SlotFree(widgets, x, y, w, h) && Scanned(x, y, maxX, maxY)
    then forall x', y' :: Scanned(x', y', maxX, maxY) && SlotFree(widgets, x', y', w, h) ==> !Before(x', y', x, y)
    else (x, y) == (0, maxY) && forall x', y' :: Scanned(x', y', maxX, maxY) ==> !SlotFree(widgets, x', y', w, h)
  }

  method FindFreeSlot(columns: int, widgets: seq<Widget>, w: int, h: int) returns (slotX: int, slotY: int)
    ensures ScanResult(widgets, w, h, AtLeastZero(columns - w), MaxBottom(widgets) + h, slotX, slotY)
    ensures MaxBottom(widgets) >= 0 && h >= 0 ==> FirstFree(columns, widgets, w, h, slotX, slotY) && slotY <= MaxBottom(widgets)
  {
    slotX, slotY := ScanRows(widgets, w, h, AtLeastZero(columns - w), MaxBottom(widgets) + h);
    if MaxBottom(widgets) >= 0 && h >= 0 {
      ScanFindsFirstFree(columns, widgets, w, h, slotX, slotY);
    }
  }

  // The nested loops of findFreeSlot.
  method ScanRows(widgets: seq<Widget>, w: int, h: int, maxX: int, maxY: int) returns (slotX: int, slotY: int)
    requires maxX >= 0
    ensures ScanResult(widgets, w, h, maxX, maxY, slotX, slotY)
  {
    var row := 0;
    while row <= maxY
      invariant row >= 0
      invariant forall x, y :: Scanned(x, y, maxX, maxY) && y < row ==> !SlotFree(widgets, x, y, w, h)
    {
      for column := 0 to maxX + 1
        invariant forall x, y :: Scanned(x, y, maxX, maxY) && Before(x, y, column, row) ==> !SlotFree(widgets, x, y, w, h)
      {
        if SlotFree(widgets, column, row, w, h) {
          return column, row;
        }
      }
      row := row + 1;
    }
    return 0, maxY;
  }
}

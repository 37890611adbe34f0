/** The dashboard editor (DashboardEditorViewModel.kt): layout edits with a bounded undo and redo
    history. */
module DashboardEditor {
  import opened Common
  import opened GridPlacement

  const MAX_WIDGET_ROWS := 8

  const MIN_GRID_COLUMNS := 6

  const MAX_GRID_COLUMNS := 24

  const MIN_ROW_HEIGHT_DP := 40

  const MAX_ROW_HEIGHT_DP := 140

  const MAX_HISTORY_SIZE := 50

  const DEFAULT_W := 2

  const DEFAULT_H := 1

  datatype SizeClass = COMPACT | MEDIUM | EXPANDED

  datatype DashboardLayout = DashboardLayout(sizeClass: SizeClass, columns: int, rowHeight: int, widgets: seq<Widget>)

  datatype Dashboard = Dashboard(id: string, name: string, revision: int, layouts: seq<DashboardLayout>, isStart: bool)

  type Transform = DashboardLayout -> DashboardLayout

  function LayoutFor(d: Dashboard, sizeClass: SizeClass): DashboardLayout {
    if exists i :: 0 <= i < |d.layouts| && d.layouts[i].sizeClass == sizeClass then FirstOf(d.layouts, sizeClass)
    else if |d.layouts| > 0 then d.layouts[0]
    else DashboardLayout(sizeClass, 12, 72, [])
  }

  function FirstOf(layouts: seq<DashboardLayout>, sizeClass: SizeClass): (layout: DashboardLayout)
    requires exists i :: 0 <= i < |layouts| && layouts[i].sizeClass == sizeClass
    ensures layout in layouts && layout.sizeClass == sizeClass
  {
    if layouts[0].sizeClass == sizeClass then layouts[0] else FirstOf(layouts[1..], sizeClass)
  }

  // ---- The layout transforms ----

  function Added(layout: DashboardLayout, widget: Widget): DashboardLayout {
    layout.(widgets := layout.widgets + [widget])
  }

  function Without(widgets: seq<Widget>, widgetId: string): seq<Widget> {
    if |widgets| == 0 then [] else
      var last := widgets[|widgets| - 1];
      Without(widgets[..|widgets| - 1], widgetId) + if last.id == widgetId then [] else [last]
  }

  function Removed(layout: DashboardLayout, widgetId: string): DashboardLayout {
    layout.(widgets := Without(layout.widgets, widgetId))
  }

  predicate Has(widgets: seq<Widget>, widgetId: string) {
    exists i :: 0 <= i < |widgets| && widgets[i].id == widgetId
  }

  function First(widgets: seq<Widget>, widgetId: string): (widget: Widget)
    requires Has(widgets, widgetId)
    ensures widget in widgets && widget.id == widgetId
  {
    if widgets[0].id == widgetId then widgets[0] else
      assert exists i :: 0 <= i < |widgets[1..]| && widgets[1..][i].id == widgetId by {
        var i :| 0 <= i < |widgets| && widgets[i].id == widgetId;
        assert widgets[1..][i - 1].id == widgetId;
      }
      First(widgets[1..], widgetId)
  }

  // Every widget with the id replaced.
  function Replaced(widgets: seq<Widget>, widgetId: string, f: Widget -> Widget): seq<Widget> {
    seq(|widgets|, i requires 0 <= i < |widgets| => if widgets[i].id == widgetId then f(widgets[i]) else widgets[i])
  }

  function Moved(layout: DashboardLayout, widgetId: string, newX: int, newY: int): DashboardLayout {
    if !Has(layout.widgets, widgetId) then layout else
      var target := First(layout.widgets, widgetId);
      var x := CoerceIn(newX, 0, AtLeastZero(layout.columns - target.w));
      var y := AtLeastZero(newY);
      var proposed := target.(x := x, y := y);
      if x == target.x && y == target.y then layout
      else if exists i :: 0 <= i < |layout.widgets| && layout.widgets[i].id != widgetId && RectsOverlap(proposed, layout.widgets[i])
      then layout
      else layout.(widgets := Replaced(layout.widgets, widgetId, _ => proposed))
  }

  // The edit dialog's size; a layout without columns would make the coercion throw.
  function Resized(layout: DashboardLayout, widgetId: string, title: string, w: int, h: int, config: map<string, string>): DashboardLayout
    requires layout.columns >= 1
  {
    layout.(widgets := Replaced(layout.widgets, widgetId, (widget: Widget) =>
      widget.(title := title, w := CoerceIn(w, 1, layout.columns),
              h := CoerceIn(h, 1, MAX_WIDGET_ROWS), config := config)))
  }

  function Regridded(layout: DashboardLayout, columns: int, rowHeight: int): DashboardLayout {
    layout.(columns := CoerceIn(columns, MIN_GRID_COLUMNS, MAX_GRID_COLUMNS),
            rowHeight := CoerceIn(rowHeight, MIN_ROW_HEIGHT_DP, MAX_ROW_HEIGHT_DP))
  }

  function Updated(d: Dashboard, sizeClass: SizeClass, transform: Transform): Dashboard {
    d.(layouts := seq(|d.layouts|, i requires 0 <= i < |d.layouts| =>
      if d.layouts[i].sizeClass == sizeClass then transform(d.layouts[i]) else d.layouts[i]))
  }

  function WithWidenedColumns(d: Dashboard): Dashboard {
    d.(layouts := seq(|d.layouts|, i requires 0 <= i < |d.layouts| =>
      if d.layouts[i].columns >= MIN_GRID_COLUMNS then d.layouts[i] else d.layouts[i].(columns := MIN_GRID_COLUMNS)))
  }

  // ---- The history ----

  datatype Editor = Editor(dashboard: Option<Dashboard>, undoStack: seq<Dashboard>, redoStack: seq<Dashboard>, canUndo: bool, canRedo: bool)

  const EMPTY := Editor(None, [], [], false, false)

  function Bounded(undoStack: seq<Dashboard>): seq<Dashboard> {
    if |undoStack| > MAX_HISTORY_SIZE then undoStack[1..] else undoStack
  }

  function AfterEdit(e: Editor, updated: Dashboard): Editor {
    if e.dashboard.None? || e.dashboard.value == updated then e
    else Editor(Some(updated), Bounded(e.undoStack + [e.dashboard.value]), [], true, false)
  }

  function AfterUndo(e: Editor): Editor {
    if e.dashboard.None? || |e.undoStack| == 0 then e else
      var rest := e.undoStack[..|e.undoStack| - 1];
      Editor(Some(e.undoStack[|e.undoStack| - 1]), rest, e.redoStack + [e.dashboard.value], rest != [], true)
  }

  function AfterRedo(e: Editor): Editor {
    if e.dashboard.None? || |e.redoStack| == 0 then e else
      var rest := e.redoStack[..|e.redoStack| - 1];
      Editor(Some(e.redoStack[|e.redoStack| - 1]), e.undoStack + [e.dashboard.value], rest, true, rest != [])
  }

  // save succeeding, or either answer to a conflict.
  function AfterReset(dashboard: Option<Dashboard>): Editor {
    Editor(dashboard, [], [], false, false)
  }

  class DashboardEditorViewModel {
    var dashboard: Option<Dashboard>
    var undoStack: seq<Dashboard>
    var redoStack: seq<Dashboard>
    var canUndo: bool
    var canRedo: bool

    ghost function State(): Editor
      reads this
    {
      Editor(dashboard, undoStack, redoStack, canUndo, canRedo)
    }

    constructor ()
      ensures State() == EMPTY
    {
      dashboard, undoStack, redoStack, canUndo, canRedo := None, [], [], false, false;
    }

    method UpdateLayout(sizeClass: SizeClass, transform: Transform)
      modifies this
      ensures State() == if old(dashboard).None? then old(State())
                         else AfterEdit(old(State()), Updated(old(dashboard).value, sizeClass, transform))
    {
      if dashboard.None? {
        return;
      }
      var current := dashboard.value;
      var updatedLayouts: seq<DashboardLayout> := [];
      for i := 0 to |current.layouts|
        invariant |updatedLayouts| == i && State() == old(State())
        invariant forall j :: 0 <= j < i ==>
          updatedLayouts[j] == if current.layouts[j].sizeClass == sizeClass then transform(current.layouts[j]) else current.layouts[j]
      {
        var layout := current.layouts[i];
        updatedLayouts := updatedLayouts + [if layout.sizeClass == sizeClass then transform(layout) else layout];
      }
      var updated := current.(layouts := updatedLayouts);
      assert updated == Updated(current, sizeClass, transform);
      if updated == current {
        return;
      }
      PushHistory(current);
      dashboard, canUndo, canRedo := Some(updated), true, false;
    }

    method PushHistory(previous: Dashboard)
      modifies this`undoStack, this`redoStack
      ensures undoStack == Bounded(old(undoStack) + [previous]) && redoStack == []
    {
      undoStack := undoStack + [previous];
      if |undoStack| > MAX_HISTORY_SIZE {
        undoStack := undoStack[1..];
      }
      redoStack := [];
    }

    /** `id` is the new random id; `added` is the widget at the slot found for it. */
    method AddWidget(sizeClass: SizeClass, id: string, objectId: Option<string>, kind: string, title: string, config: map<string, string>)
      returns (added: Option<Widget>)
      modifies this
      ensures added.None? <==> old(dashboard).None?
      ensures added.None? ==> State() == old(State())
      ensures added.Some? ==>
        var layout, widget := LayoutFor(old(dashboard).value, sizeClass), added.value;
        && widget == Widget(id, objectId, kind, title, widget.x, widget.y, 2, 1, config)
        && ScanResult(layout.widgets, DEFAULT_W, DEFAULT_H, AtLeastZero(layout.columns - DEFAULT_W),
                      MaxBottom(layout.widgets) + DEFAULT_H, widget.x, widget.y)
        && State() == AfterEdit(old(State()), Updated(old(dashboard).value, sizeClass, (l: DashboardLayout) => Added(l, widget)))
    {
      if dashboard.None? {
        return None;
      }
      var layout := LayoutFor(dashboard.value, sizeClass);
      var freeX, freeY := FindFreeSlot(layout.columns, layout.widgets, DEFAULT_W, DEFAULT_H);
      var widget := Widget(id, objectId, kind, title, freeX, freeY, DEFAULT_W, DEFAULT_H, config);
      UpdateLayout(sizeClass, (l: DashboardLayout) => Added(l, widget));
      return Some(widget);
    }

    method RemoveWidget(sizeClass: SizeClass, widgetId: string)
      modifies this
      ensures State() == if old(dashboard).None? then old(State()) else
        AfterEdit(old(State()), Updated(old(dashboard).value, sizeClass, (l: DashboardLayout) => Removed(l, widgetId)))
    {
      UpdateLayout(sizeClass, (l: DashboardLayout) => Removed(l, widgetId));
    }

    method MoveWidgetTo(sizeClass: SizeClass, widgetId: string, newX: int, newY: int)
      modifies this
      ensures State() == if old(dashboard).None? then old(State()) else
        AfterEdit(old(State()), Updated(old(dashboard).value, sizeClass, (l: DashboardLayout) => Moved(l, widgetId, newX, newY)))
    {
      UpdateLayout(sizeClass, (l: DashboardLayout) => Moved(l, widgetId, newX, newY));
    }

    method UpdateGridSize(sizeClass: SizeClass, columns: int, rowHeight: int)
      modifies this
      ensures State() == if old(dashboard).None? then old(State()) else
        AfterEdit(old(State()), Updated(old(dashboard).value, sizeClass, (l: DashboardLayout) => Regridded(l, columns, rowHeight)))
    {
      UpdateLayout(sizeClass, (l: DashboardLayout) => Regridded(l, columns, rowHeight));
    }

    method Undo()
      modifies this
      ensures State() == AfterUndo(old(State()))
    {
      if dashboard.None? || |undoStack| == 0 {
        return;
      }
      var current, previous := dashboard.value, undoStack[|undoStack| - 1];
      undoStack := undoStack[..|undoStack| - 1];
      redoStack := redoStack + [current];
      dashboard, canUndo, canRedo := Some(previous), |undoStack| > 0, true;
    }

    method Redo()
      modifies this
      ensures State() == AfterRedo(old(State()))
    {
      if dashboard.None? || |redoStack| == 0 {
        return;
      }
      var current, next := dashboard.value, redoStack[|redoStack| - 1];
      redoStack := redoStack[..|redoStack| - 1];
      undoStack := undoStack + [current];
      dashboard, canUndo, canRedo := Some(next), true, |redoStack| > 0;
    }

    /** The first load of the screen's dashboard; until it there is nothing to edit. */
    method Load(loaded: Option<Dashboard>)
      modifies this`dashboard
      ensures dashboard == if loaded.Some? then Some(WithWidenedColumns(loaded.value)) else None
    {
      dashboard := if loaded.Some? then Some(WithWidenedColumns(loaded.value)) else None;
    }

    method Reset(confirmed: Option<Dashboard>)
      modifies this
      ensures State() == AfterReset(confirmed)
    {
      undoStack, redoStack := [], [];
      dashboard, canUndo, canRedo := confirmed, false, false;
    }
  }
}

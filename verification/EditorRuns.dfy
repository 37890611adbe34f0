/** What holds in every editing session. */
module EditorRuns {
  import opened Common
  import opened GridPlacement
  import opened DashboardEditor

  datatype Event =
    | Load(dashboard: Dashboard)
    | Add(sizeClass: SizeClass, widget: Widget)
    | Remove(sizeClass: SizeClass, widgetId: string)
    | Move(sizeClass: SizeClass, widgetId: string, newX: int, newY: int)
    | Regrid(sizeClass: SizeClass, columns: int, rowHeight: int)
    // Any other edit, as a resize is.
    | Edit(updated: Dashboard)
    | Undo
    | Redo
    | Reset(dashboard: Dashboard)

  // The widget addWidget makes: default size, a fresh id, the slot the scan found.
  ghost predicate NewWidget(layout: DashboardLayout, widget: Widget) {
    && widget.w == DEFAULT_W && widget.h == DEFAULT_H && !Has(layout.widgets, widget.id)
    && ScanResult(layout.widgets, DEFAULT_W, DEFAULT_H, AtLeastZero(layout.columns - DEFAULT_W),
                  MaxBottom(layout.widgets) + DEFAULT_H, widget.x, widget.y)
  }

  ghost predicate Enabled(e: Editor, event: Event) {
    match event
    case Load(_) => e.dashboard.None?
    case Add(sizeClass, widget) => e.dashboard.Some? && NewWidget(LayoutFor(e.dashboard.value, sizeClass), widget)
    case _ => e.dashboard.Some?
  }

  ghost function Edited(e: Editor, sizeClass: SizeClass, transform: Transform): Editor
    requires e.dashboard.Some?
  {
    AfterEdit(e, Updated(e.dashboard.value, sizeClass, transform))
  }

  ghost function Next(e: Editor, event: Event): Editor
    requires Enabled(e, event)
  {
    match event
    case Load(dashboard) => e.(dashboard := Some(WithWidenedColumns(dashboard)))
    case Add(sizeClass, widget) => Edited(e, sizeClass, (l: DashboardLayout) => Added(l, widget))
    case Remove(sizeClass, widgetId) => Edited(e, sizeClass, (l: DashboardLayout) => Removed(l, widgetId))
    case Move(sizeClass, widgetId, newX, newY) => Edited(e, sizeClass, (l: DashboardLayout) => Moved(l, widgetId, newX, newY))
    case Regrid(sizeClass, columns, rowHeight) => Edited(e, sizeClass, (l: DashboardLayout) => Regridded(l, columns, rowHeight))
    case Edit(updated) => AfterEdit(e, updated)
    case Undo => AfterUndo(e)
    case Redo => AfterRedo(e)
    case Reset(dashboard) => AfterReset(Some(dashboard))
  }

  ghost function After(events: seq<Event>): Editor {
    if |events| == 0 then EMPTY else
      var before := After(events[..|events| - 1]);
      if Enabled(before, events[|events| - 1]) then Next(before, events[|events| - 1]) else before
  }

  // ---- Undo and redo move a cursor on one timeline ----

  datatype Timeline = Timeline(entries: seq<Dashboard>, cursor: nat)

  function Reversed(s: seq<Dashboard>): (r: seq<Dashboard>)
    ensures |r| == |s|
  {
    if |s| == 0 then [] else [s[|s| - 1]] + Reversed(s[..|s| - 1])
  }

  ghost function TimelineOf(e: Editor): Timeline
    requires e.dashboard.Some?
  {
    Timeline(e.undoStack + [e.dashboard.value] + Reversed(e.redoStack), |e.undoStack|)
  }

  // An edit forgets what was undone, and all but the last fifty entries before it.
  ghost function Recorded(t: Timeline, updated: Dashboard): Timeline
    requires t.cursor < |t.entries|
  {
    var kept := t.entries[..t.cursor + 1];
    var recent := if |kept| > 50 then kept[|kept| - 50..] else kept;
    if t.entries[t.cursor] == updated then t else Timeline(recent + [updated], |recent|)
  }

  ghost function Back(t: Timeline): Timeline {
    if t.cursor == 0 then t else t.(cursor := t.cursor - 1)
  }

  ghost function Forth(t: Timeline): Timeline {
    if t.cursor + 1 < |t.entries| then t.(cursor := t.cursor + 1) else t
  }

  ghost predicate HistoryOk(e: Editor) {
    && e.canUndo == (e.undoStack != []) && e.canRedo == (e.redoStack != [])
    && |e.undoStack| + |e.redoStack| <= 50
    && (e.dashboard.None? ==> e.undoStack == [] && e.redoStack == [])
  }

  lemma EditRefines(e: Editor, updated: Dashboard)
    requires HistoryOk(e) && e.dashboard.Some?
    ensures HistoryOk(AfterEdit(e, updated)) && AfterEdit(e, updated).dashboard == Some(updated)
    ensures TimelineOf(AfterEdit(e, updated)) == Recorded(TimelineOf(e), updated)
  {
    var t := TimelineOf(e);
    assert t.entries[..t.cursor + 1] == e.undoStack + [e.dashboard.value];
    assert t.entries[t.cursor] == e.dashboard.value;
    if e.dashboard.value != updated {
      var recent := Bounded(e.undoStack + [e.dashboard.value]);
      assert TimelineOf(AfterEdit(e, updated)).entries == recent + [updated];
    }
  }

  lemma ReversedOneMore(s: seq<Dashboard>, d: Dashboard)
    ensures Reversed(s + [d]) == [d] + Reversed(s)
  {
    assert (s + [d])[..|s|] == s;
  }

  lemma UndoRefines(e: Editor)
    requires HistoryOk(e) && e.dashboard.Some?
    ensures HistoryOk(AfterUndo(e)) && AfterUndo(e).dashboard.Some?
    ensures TimelineOf(AfterUndo(e)) == Back(TimelineOf(e))
  {
    if |e.undoStack| > 0 {
      var current := e.dashboard.value;
      var e' := AfterUndo(e);
      ReversedOneMore(e.redoStack, current);
      assert e.undoStack == e'.undoStack + [e'.dashboard.value];
      assert TimelineOf(e').entries == TimelineOf(e).entries;
    }
  }

  lemma RedoRefines(e: Editor)
    requires HistoryOk(e) && e.dashboard.Some?
    ensures HistoryOk(AfterRedo(e)) && AfterRedo(e).dashboard.Some?
    ensures TimelineOf(AfterRedo(e)) == Forth(TimelineOf(e))
  {
    if |e.redoStack| > 0 {
      var e' := AfterRedo(e);
      ReversedOneMore(e'.redoStack, e'.dashboard.value);
      assert e.redoStack == e'.redoStack + [e'.dashboard.value];
      assert TimelineOf(e').entries == TimelineOf(e).entries;
    }
  }

  lemma {:induction false} HistoryAlwaysOk(events: seq<Event>)
    ensures HistoryOk(After(events))
  {
    if |events| > 0 {
      HistoryAlwaysOk(events[..|events| - 1]);
      var e, event := After(events[..|events| - 1]), events[|events| - 1];
      if Enabled(e, event) {
        match event
        case Undo => UndoRefines(e);
        case Redo => RedoRefines(e);
        case Add(sizeClass, widget) => EditRefines(e, Updated(e.dashboard.value, sizeClass, (l: DashboardLayout) => Added(l, widget)));
        case Remove(sizeClass, widgetId) => EditRefines(e, Updated(e.dashboard.value, sizeClass, (l: DashboardLayout) => Removed(l, widgetId)));
        case Move(sizeClass, widgetId, newX, newY) =>
          EditRefines(e, Updated(e.dashboard.value, sizeClass, (l: DashboardLayout) => Moved(l, widgetId, newX, newY)));
        case Regrid(sizeClass, columns, rowHeight) =>
          EditRefines(e, Updated(e.dashboard.value, sizeClass, (l: DashboardLayout) => Regridded(l, columns, rowHeight)));
        case Edit(updated) => EditRefines(e, updated);
        case _ =>
      }
    }
  }

  /** The flags tell whether the stacks hold anything, and the two together never exceed the bound,
      although redo pushes without trimming. */
  lemma {:induction false} FlagsAndBound(events: seq<Event>)
    ensures var e := After(events);
      && (e.canUndo <==> e.undoStack != []) && (e.canRedo <==> e.redoStack != [])
      && |e.undoStack| + |e.redoStack| <= 50
  {
    HistoryAlwaysOk(events);
  }

  /** Undo and redo are moves of a cursor; every edit rewrites what lies after it. */
  lemma {:induction false} HistoryRefinesTimeline(events: seq<Event>, updated: Dashboard)
    requires After(events).dashboard.Some?
    ensures var e := After(events);
      && TimelineOf(AfterUndo(e)) == Back(TimelineOf(e))
      && TimelineOf(AfterRedo(e)) == Forth(TimelineOf(e))
      && TimelineOf(AfterEdit(e, updated)) == Recorded(TimelineOf(e), updated)
  {
    HistoryAlwaysOk(events);
    UndoRefines(After(events));
    RedoRefines(After(events));
    EditRefines(After(events), updated);
  }

  function Undone(e: Editor, n: nat): Editor {
    if n == 0 then e else AfterUndo(Undone(e, n - 1))
  }

  function Redone(e: Editor, n: nat): Editor {
    if n == 0 then e else AfterRedo(Redone(e, n - 1))
  }

  lemma {:induction false} UndoMovesCursor(e: Editor, n: nat)
    requires HistoryOk(e) && e.dashboard.Some? && n <= |e.undoStack|
    ensures HistoryOk(Undone(e, n)) && Undone(e, n).dashboard.Some?
    ensures TimelineOf(Undone(e, n)) == Timeline(TimelineOf(e).entries, |e.undoStack| - n)
  {
    if n > 0 {
      UndoMovesCursor(e, n - 1);
      UndoRefines(Undone(e, n - 1));
    }
  }

  lemma {:induction false} RedoMovesCursor(e: Editor, n: nat)
    requires HistoryOk(e) && e.dashboard.Some? && n <= |e.redoStack|
    ensures HistoryOk(Redone(e, n)) && Redone(e, n).dashboard.Some?
    ensures TimelineOf(Redone(e, n)) == Timeline(TimelineOf(e).entries, |e.undoStack| + n)
  {
    if n > 0 {
      RedoMovesCursor(e, n - 1);
      RedoRefines(Redone(e, n - 1));
    }
  }

  lemma {:induction false} ReversedTwice(s: seq<Dashboard>, t: seq<Dashboard>)
    requires Reversed(s) == Reversed(t)
    ensures s == t
  {
    if |s| > 0 {
      assert Reversed(s)[0] == s[|s| - 1] && Reversed(t)[0] == t[|t| - 1];
      assert Reversed(s)[1..] == Reversed(s[..|s| - 1]) && Reversed(t)[1..] == Reversed(t[..|t| - 1]);
      ReversedTwice(s[..|s| - 1], t[..|t| - 1]);
      assert s == s[..|s| - 1] + [s[|s| - 1]] && t == t[..|t| - 1] + [t[|t| - 1]];
    }
  }

  // The timeline and its cursor say all there is to say about the editor.
  lemma TimelineDetermines(e: Editor, f: Editor)
    requires HistoryOk(e) && HistoryOk(f) && e.dashboard.Some? && f.dashboard.Some?
    requires TimelineOf(e) == TimelineOf(f)
    ensures e == f
  {
    var t, u := TimelineOf(e), TimelineOf(f);
    var k := t.cursor;
    assert t.entries[..k] == e.undoStack && u.entries[..k] == f.undoStack;
    assert t.entries[k] == e.dashboard.value && u.entries[k] == f.dashboard.value;
    assert t.entries[k + 1..] == Reversed(e.redoStack) && u.entries[k + 1..] == Reversed(f.redoStack);
    ReversedTwice(e.redoStack, f.redoStack);
  }

  /** n undos and then n redos restore the whole editor. */
  lemma {:induction false} UndosThenRedos(events: seq<Event>, n: nat)
    requires After(events).dashboard.Some? && n <= |After(events).undoStack|
    ensures Redone(Undone(After(events), n), n) == After(events)
  {
    HistoryAlwaysOk(events);
    var e := After(events);
    UndoMovesCursor(e, n);
    var back := Undone(e, n);
    assert |back.undoStack| == |e.undoStack| - n;
    assert |TimelineOf(back).entries| == |back.undoStack| + 1 + |back.redoStack|;
    assert |TimelineOf(e).entries| == |e.undoStack| + 1 + |e.redoStack|;
    RedoMovesCursor(back, n);
    TimelineDetermines(Redone(back, n), e);
  }

  // ---- The grid stays disjoint ----

  ghost predicate InGrid(widget: Widget, columns: int) {
    widget.x >= 0 && widget.y >= 0 && widget.w >= 1 && widget.h >= 1 && widget.x + widget.w <= columns
  }

  ghost predicate Apart(a: Widget, b: Widget) {
    a.id != b.id && !RectsOverlap(a, b)
  }

  ghost predicate Disjoint(widgets: seq<Widget>) {
    forall i, j {:trigger widgets[i], widgets[j]} :: 0 <= i < |widgets| && 0 <= j < |widgets| && i != j ==> Apart(widgets[i], widgets[j])
  }

  ghost predicate LayoutOk(layout: DashboardLayout) {
    && layout.columns >= DEFAULT_W && Disjoint(layout.widgets)
    && forall i :: 0 <= i < |layout.widgets| ==> InGrid(layout.widgets[i], layout.columns)
  }

  ghost predicate DashboardOk(d: Dashboard) {
    forall i :: 0 <= i < |d.layouts| ==> LayoutOk(d.layouts[i])
  }

  ghost predicate AllOk(ds: seq<Dashboard>) {
    forall i :: 0 <= i < |ds| ==> DashboardOk(ds[i])
  }

  ghost predicate EditorOk(e: Editor) {
    (e.dashboard.Some? ==> DashboardOk(e.dashboard.value)) && AllOk(e.undoStack) && AllOk(e.redoStack)
  }

  lemma AppendKeepsDisjoint(widgets: seq<Widget>, widget: Widget)
    requires Disjoint(widgets)
    requires forall i :: 0 <= i < |widgets| ==> Apart(widgets[i], widget) && Apart(widget, widgets[i])
    ensures Disjoint(widgets + [widget])
  {}

  /** The widget's place is free in a layout, inside its columns, and its id new to it. */
  ghost predicate Fits(layout: DashboardLayout, widget: Widget) {
    && SlotFree(layout.widgets, widget.x, widget.y, DEFAULT_W, DEFAULT_H)
    && widget.x + DEFAULT_W <= layout.columns && !Has(layout.widgets, widget.id)
  }

  ghost predicate IsDefaultSized(widget: Widget) {
    widget.w == DEFAULT_W && widget.h == DEFAULT_H && widget.x >= 0 && widget.y >= 0
  }

  lemma FittingKeeps(layout: DashboardLayout, widget: Widget)
    requires LayoutOk(layout) && IsDefaultSized(widget) && Fits(layout, widget)
    ensures LayoutOk(Added(layout, widget))
  {
    var widgets := layout.widgets;
    forall i | 0 <= i < |widgets| ensures Apart(widgets[i], widget) && Apart(widget, widgets[i]) {
      assert InGrid(widgets[i], layout.columns);
      assert !RectsOverlap(Candidate(widget.x, widget.y, DEFAULT_W, DEFAULT_H), widgets[i]);
    }
    AppendKeepsDisjoint(widgets, widget);
  }

  lemma KeptMeansFitting(layout: DashboardLayout, widget: Widget)
    requires IsDefaultSized(widget) && LayoutOk(Added(layout, widget))
    ensures Fits(layout, widget)
  {
    var widgets := Added(layout, widget).widgets;
    var last := |layout.widgets|;
    assert InGrid(widgets[last], layout.columns);
    forall i | 0 <= i < last ensures Apart(widget, layout.widgets[i]) {
      assert Apart(widgets[last], widgets[i]);
    }
  }

  // What is left keeps its order: each widget comes from a place of its own.
  lemma {:induction false} WithoutIsSubsequence(widgets: seq<Widget>, widgetId: string) returns (from: seq<nat>)
    ensures var rest := Without(widgets, widgetId);
      && |from| == |rest|
      && (forall i :: 0 <= i < |from| ==> from[i] < |widgets| && rest[i] == widgets[from[i]] && rest[i].id != widgetId)
      && (forall i, j :: 0 <= i < j < |from| ==> from[i] < from[j])
      && (forall i :: 0 <= i < |widgets| && widgets[i].id != widgetId ==> i in from)
  {
    from := [];
    if |widgets| > 0 {
      from := WithoutIsSubsequence(widgets[..|widgets| - 1], widgetId);
      if widgets[|widgets| - 1].id != widgetId {
        from := from + [|widgets| - 1];
      }
    }
  }

  lemma RemoveKeeps(layout: DashboardLayout, widgetId: string)
    requires LayoutOk(layout)
    ensures LayoutOk(Removed(layout, widgetId)) && !Has(Removed(layout, widgetId).widgets, widgetId)
  {
    var from := WithoutIsSubsequence(layout.widgets, widgetId);
    var rest := Without(layout.widgets, widgetId);
    forall i, j | 0 <= i < |rest| && 0 <= j < |rest| && i != j ensures Apart(rest[i], rest[j]) {
      assert from[i] != from[j];
      assert Apart(layout.widgets[from[i]], layout.widgets[from[j]]);
    }
  }

  lemma MoveKeeps(layout: DashboardLayout, widgetId: string, newX: int, newY: int)
    requires LayoutOk(layout)
    ensures LayoutOk(Moved(layout, widgetId, newX, newY))
  {
    var moved := Moved(layout, widgetId, newX, newY);
    if moved != layout {
      var target := First(layout.widgets, widgetId);
      var proposed := target.(x := CoerceIn(newX, 0, AtLeastZero(layout.columns - target.w)), y := AtLeastZero(newY));
      assert InGrid(target, layout.columns);
      ReplaceKeeps(layout, widgetId, proposed);
    }
  }

  function Distance(a: int, b: int): nat {
    if a < b then b - a else a - b
  }

  lemma IdsAreUnique(widgets: seq<Widget>, k: nat)
    requires Disjoint(widgets) && k < |widgets|
    ensures forall i :: 0 <= i < |widgets| && i != k ==> widgets[i].id != widgets[k].id
    ensures First(widgets, widgets[k].id) == widgets[k]
  {
    forall i | 0 <= i < |widgets| && i != k ensures widgets[i].id != widgets[k].id {
      assert Apart(widgets[i], widgets[k]);
    }
  }

  /** A moved widget lands on the cell inside the grid that is nearest to the drop, or stays where it
      was when that cell's rectangle meets another widget; nothing else moves. */
  lemma MoveLandsNearest(layout: DashboardLayout, k: nat, newX: int, newY: int) returns (near: Widget)
    requires LayoutOk(layout) && k < |layout.widgets|
    ensures near == layout.widgets[k].(x := near.x, y := near.y) && InGrid(near, layout.columns)
    ensures forall x, y {:trigger Distance(x, newX), Distance(y, newY)} ::
      InGrid(near.(x := x, y := y), layout.columns) ==>
        Distance(near.x, newX) <= Distance(x, newX) && Distance(near.y, newY) <= Distance(y, newY)
    ensures Moved(layout, near.id, newX, newY) ==
      if forall i :: 0 <= i < |layout.widgets| && i != k ==> !RectsOverlap(near, layout.widgets[i])
      then layout.(widgets := layout.widgets[k := near]) else layout
  {
    var widgets := layout.widgets;
    var target := First(widgets, widgets[k].id);
    IdsAreUnique(widgets, k);
    assert InGrid(target, layout.columns);
    near := target.(x := CoerceIn(newX, 0, AtLeastZero(layout.columns - target.w)), y := AtLeastZero(newY));
    forall x, y | InGrid(near.(x := x, y := y), layout.columns)
      ensures Distance(near.x, newX) <= Distance(x, newX) && Distance(near.y, newY) <= Distance(y, newY)
    {
      assert 0 <= x <= layout.columns - target.w && 0 <= y;
    }
    assert Replaced(widgets, near.id, _ => near) == widgets[k := near];
    if near == widgets[k] {
      forall i | 0 <= i < |widgets| && i != k ensures !RectsOverlap(near, widgets[i]) {
        assert Apart(widgets[k], widgets[i]);
      }
      assert widgets[k := near] == widgets;
    }
  }

  lemma HintMeansRefusal(layout: DashboardLayout, k: nat, newX: int, newY: int)
    requires LayoutOk(layout) && k < |layout.widgets|
    ensures var widget := layout.widgets[k];
      var x, y := CoerceIn(newX, 0, AtLeastZero(layout.columns - widget.w)), AtLeastZero(newY);
      && |Moved(layout, widget.id, newX, newY).widgets| == |layout.widgets|
      && (WouldOverlapAny(x, y, widget.w, widget.h, layout.widgets, Some(widget.id)) <==>
            Moved(layout, widget.id, newX, newY).widgets[k] != widget.(x := x, y := y))
  {
    var widget := layout.widgets[k];
    var near := MoveLandsNearest(layout, k, newX, newY);
    IdsAreUnique(layout.widgets, k);
    forall i | 0 <= i < |layout.widgets| && i != k ensures layout.widgets[i].id != widget.id {
      assert Apart(layout.widgets[k], layout.widgets[i]);
    }
    if near == widget {
      forall i | 0 <= i < |layout.widgets| && i != k ensures !RectsOverlap(near, layout.widgets[i]) {
        assert Apart(layout.widgets[k], layout.widgets[i]);
      }
    }
  }

  lemma ReplaceKeeps(layout: DashboardLayout, widgetId: string, proposed: Widget)
    requires LayoutOk(layout) && proposed.id == widgetId && InGrid(proposed, layout.columns)
    requires forall i :: 0 <= i < |layout.widgets| && layout.widgets[i].id != widgetId ==> !RectsOverlap(proposed, layout.widgets[i])
    ensures LayoutOk(layout.(widgets := Replaced(layout.widgets, widgetId, _ => proposed)))
  {
    var widgets := layout.widgets;
    var replaced := Replaced(widgets, widgetId, _ => proposed);
    forall i, j | 0 <= i < |replaced| && 0 <= j < |replaced| && i != j ensures Apart(replaced[i], replaced[j]) {
      assert Apart(widgets[i], widgets[j]);
    }
  }

  lemma UpdatedKeeps(d: Dashboard, sizeClass: SizeClass, transform: Transform)
    requires DashboardOk(d)
    requires forall i :: 0 <= i < |d.layouts| && d.layouts[i].sizeClass == sizeClass ==>
      LayoutOk(transform(d.layouts[i])) && transform(d.layouts[i]).sizeClass == sizeClass
    ensures DashboardOk(Updated(d, sizeClass, transform))
  {}

  lemma SearchedLayout(d: Dashboard, sizeClass: SizeClass, i: nat) returns (j: nat)
    requires i < |d.layouts| && d.layouts[i].sizeClass == sizeClass
    ensures j < |d.layouts| && d.layouts[j].sizeClass == sizeClass && LayoutFor(d, sizeClass) == d.layouts[j]
  {
    var found := FirstOf(d.layouts, sizeClass);
    j :| 0 <= j < |d.layouts| && d.layouts[j] == found;
  }

  // What the scan found in the layout it searched.
  lemma SearchedFits(layout: DashboardLayout, widget: Widget)
    requires LayoutOk(layout) && NewWidget(layout, widget)
    ensures IsDefaultSized(widget) && Fits(layout, widget)
  {
    forall i | 0 <= i < |layout.widgets| ensures layout.widgets[i].y + layout.widgets[i].h >= 0 {
      assert InGrid(layout.widgets[i], layout.columns);
    }
    assert MaxBottom(layout.widgets) >= 0;
    ScanFindsFirstFree(layout.columns, layout.widgets, DEFAULT_W, DEFAULT_H, widget.x, widget.y);
  }

  // ---- When an addition keeps a dashboard in order ----

  /** The slot is searched in the first layout of the size class, but every layout of it gets the widget. */
  ghost predicate FitsAll(d: Dashboard, sizeClass: SizeClass, widget: Widget) {
    forall i :: 0 <= i < |d.layouts| && d.layouts[i].sizeClass == sizeClass ==> Fits(d.layouts[i], widget)
  }

  ghost function WithWidget(d: Dashboard, sizeClass: SizeClass, widget: Widget): Dashboard {
    Updated(d, sizeClass, (l: DashboardLayout) => Added(l, widget))
  }

  /** Exactly when an addition keeps every layout in order, whatever size classes repeat. */
  lemma AddKeepsIff(d: Dashboard, sizeClass: SizeClass, widget: Widget)
    requires DashboardOk(d) && NewWidget(LayoutFor(d, sizeClass), widget)
    ensures DashboardOk(WithWidget(d, sizeClass, widget)) <==> FitsAll(d, sizeClass, widget)
  {
    var after := WithWidget(d, sizeClass, widget);
    forall i | 0 <= i < |d.layouts| && d.layouts[i].sizeClass == sizeClass
      ensures LayoutOk(after.layouts[i]) <==> Fits(d.layouts[i], widget)
    {
      var j := SearchedLayout(d, sizeClass, i);
      SearchedFits(d.layouts[j], widget);
      if Fits(d.layouts[i], widget) {
        FittingKeeps(d.layouts[i], widget);
      }
      if LayoutOk(Added(d.layouts[i], widget)) {
        KeptMeansFitting(d.layouts[i], widget);
      }
    }
  }

  ghost predicate DistinctClasses(d: Dashboard) {
    forall i, j :: 0 <= i < j < |d.layouts| ==> d.layouts[i].sizeClass != d.layouts[j].sizeClass
  }

  /** With distinct size classes the layout searched is the only one that gets the widget. */
  lemma DistinctClassesFit(d: Dashboard, sizeClass: SizeClass, widget: Widget)
    requires DashboardOk(d) && DistinctClasses(d) && NewWidget(LayoutFor(d, sizeClass), widget)
    ensures FitsAll(d, sizeClass, widget)
  {
    forall i | 0 <= i < |d.layouts| && d.layouts[i].sizeClass == sizeClass ensures Fits(d.layouts[i], widget) {
      var j := SearchedLayout(d, sizeClass, i);
      SearchedFits(d.layouts[j], widget);
    }
  }

  /** Of two layouts of one size class, the second can end up overlapping after one addition. */
  lemma TwinLayoutsOverlap(d: Dashboard, placed: Widget, widget: Widget)
    requires d.layouts == [DashboardLayout(COMPACT, 6, 72, []), DashboardLayout(COMPACT, 6, 72, [placed])]
    requires InGrid(placed, 6) && placed.x == 0 && placed.y == 0
    requires NewWidget(LayoutFor(d, COMPACT), widget)
    ensures DashboardOk(d) && !DashboardOk(WithWidget(d, COMPACT, widget))
  {
    assert d.layouts[0].sizeClass == COMPACT && LayoutOk(d.layouts[1]);
    assert LayoutFor(d, COMPACT) == d.layouts[0];
    ScanFindsFirstFree(6, [], DEFAULT_W, DEFAULT_H, widget.x, widget.y);
    assert SlotFree([], 0, 0, DEFAULT_W, DEFAULT_H) && !Before(0, 0, widget.x, widget.y);
    AddKeepsIff(d, COMPACT, widget);
    assert RectsOverlap(Candidate(0, 0, DEFAULT_W, DEFAULT_H), d.layouts[1].widgets[0]);
  }

  // ---- Whole sessions ----

  lemma RemoveStep(d: Dashboard, sizeClass: SizeClass, widgetId: string)
    requires DashboardOk(d)
    ensures DashboardOk(Updated(d, sizeClass, (l: DashboardLayout) => Removed(l, widgetId)))
  {
    forall i | 0 <= i < |d.layouts| && d.layouts[i].sizeClass == sizeClass ensures LayoutOk(Removed(d.layouts[i], widgetId)) {
      RemoveKeeps(d.layouts[i], widgetId);
    }
    UpdatedKeeps(d, sizeClass, (l: DashboardLayout) => Removed(l, widgetId));
  }

  lemma MoveStep(d: Dashboard, sizeClass: SizeClass, widgetId: string, newX: int, newY: int)
    requires DashboardOk(d)
    ensures DashboardOk(Updated(d, sizeClass, (l: DashboardLayout) => Moved(l, widgetId, newX, newY)))
  {
    forall i | 0 <= i < |d.layouts| && d.layouts[i].sizeClass == sizeClass
      ensures LayoutOk(Moved(d.layouts[i], widgetId, newX, newY))
    {
      MoveKeeps(d.layouts[i], widgetId, newX, newY);
    }
    UpdatedKeeps(d, sizeClass, (l: DashboardLayout) => Moved(l, widgetId, newX, newY));
  }

  /** Every widget lies inside the new columns. */
  ghost predicate FitsColumns(layout: DashboardLayout, columns: int) {
    forall i :: 0 <= i < |layout.widgets| ==>
      layout.widgets[i].x + layout.widgets[i].w <= CoerceIn(columns, MIN_GRID_COLUMNS, MAX_GRID_COLUMNS)
  }

  /** The grid dialog does not check: it keeps a layout in order exactly when every widget fits the new columns. */
  lemma RegridKeepsIff(layout: DashboardLayout, columns: int, rowHeight: int)
    requires LayoutOk(layout)
    ensures LayoutOk(Regridded(layout, columns, rowHeight)) <==> FitsColumns(layout, columns)
  {
    var after := Regridded(layout, columns, rowHeight);
    if LayoutOk(after) {
      forall i | 0 <= i < |layout.widgets| ensures layout.widgets[i].x + layout.widgets[i].w <= after.columns {
        assert InGrid(after.widgets[i], after.columns);
      }
    }
  }

  lemma RegridStepIff(d: Dashboard, sizeClass: SizeClass, columns: int, rowHeight: int)
    requires DashboardOk(d)
    ensures DashboardOk(Updated(d, sizeClass, (l: DashboardLayout) => Regridded(l, columns, rowHeight))) <==>
      forall i :: 0 <= i < |d.layouts| && d.layouts[i].sizeClass == sizeClass ==> FitsColumns(d.layouts[i], columns)
  {
    var after := Updated(d, sizeClass, (l: DashboardLayout) => Regridded(l, columns, rowHeight));
    forall i | 0 <= i < |d.layouts| && d.layouts[i].sizeClass == sizeClass
      ensures LayoutOk(after.layouts[i]) <==> FitsColumns(d.layouts[i], columns)
    {
      RegridKeepsIff(d.layouts[i], columns, rowHeight);
    }
  }

  lemma EditKeepsOk(e: Editor, updated: Dashboard)
    requires EditorOk(e) && e.dashboard.Some?
    ensures EditorOk(AfterEdit(e, updated)) <==> DashboardOk(updated)
  {}

  // Dashboards brought in from outside, or by the unchecked edits, are in order.
  ghost predicate BringsOrder(event: Event) {
    match event
    case Load(dashboard) => DashboardOk(WithWidenedColumns(dashboard))
    case Edit(updated) => DashboardOk(updated)
    case Reset(dashboard) => DashboardOk(dashboard)
    case _ => true
  }

  /** An added widget fits every layout it goes to, and new columns hold the widgets of every layout that
      gets them. */
  ghost predicate EventFits(e: Editor, event: Event) {
    Enabled(e, event) ==>
      match event
      case Add(sizeClass, widget) => FitsAll(e.dashboard.value, sizeClass, widget)
      case Regrid(sizeClass, columns, _) =>
        var layouts := e.dashboard.value.layouts;
        forall i :: 0 <= i < |layouts| && layouts[i].sizeClass == sizeClass ==> FitsColumns(layouts[i], columns)
      case _ => true
  }

  ghost function Step(e: Editor, event: Event): Editor {
    if Enabled(e, event) then Next(e, event) else e
  }

  /** From an editor in order, a step leaves it in order exactly when it fits. */
  lemma StepKeepsOrderIff(e: Editor, event: Event)
    requires EditorOk(e) && BringsOrder(event)
    ensures EditorOk(Step(e, event)) <==> EventFits(e, event)
  {
    if Enabled(e, event) {
      match event
      case Add(sizeClass, widget) =>
        AddKeepsIff(e.dashboard.value, sizeClass, widget);
        EditKeepsOk(e, WithWidget(e.dashboard.value, sizeClass, widget));
        assert Next(e, event) == AfterEdit(e, WithWidget(e.dashboard.value, sizeClass, widget));
      case Remove(sizeClass, widgetId) =>
        RemoveStep(e.dashboard.value, sizeClass, widgetId);
        EditKeepsOk(e, Updated(e.dashboard.value, sizeClass, (l: DashboardLayout) => Removed(l, widgetId)));
      case Move(sizeClass, widgetId, newX, newY) =>
        MoveStep(e.dashboard.value, sizeClass, widgetId, newX, newY);
        EditKeepsOk(e, Updated(e.dashboard.value, sizeClass, (l: DashboardLayout) => Moved(l, widgetId, newX, newY)));
      case Regrid(sizeClass, columns, rowHeight) =>
        RegridStepIff(e.dashboard.value, sizeClass, columns, rowHeight);
        EditKeepsOk(e, Updated(e.dashboard.value, sizeClass, (l: DashboardLayout) => Regridded(l, columns, rowHeight)));
      case _ =>
    }
  }

  ghost predicate OrderedAt(events: seq<Event>, n: nat) {
    n <= |events| ==> EditorOk(After(events[..n]))
  }

  ghost predicate FitsAt(events: seq<Event>, n: nat) {
    n < |events| ==> EventFits(After(events[..n]), events[n])
  }

  lemma AfterStep(events: seq<Event>, n: nat)
    requires n < |events|
    ensures After(events[..n + 1]) == Step(After(events[..n]), events[n])
  {
    assert events[..n + 1][..n] == events[..n];
  }

  lemma {:induction false} FittingEventsKeepOrder(events: seq<Event>, n: nat)
    requires forall i :: 0 <= i < |events| ==> BringsOrder(events[i])
    requires forall i: nat {:trigger FitsAt(events, i)} :: i < n ==> FitsAt(events, i)
    ensures OrderedAt(events, n)
  {
    if 0 < n <= |events| {
      var m := n - 1;
      FittingEventsKeepOrder(events, m);
      assert OrderedAt(events, m) && FitsAt(events, m);
      AfterStep(events, m);
      StepKeepsOrderIff(After(events[..m]), events[m]);
    }
  }

  /** Adding, removing, moving, new grid sizes, undoing and redoing, with whatever size classes repeat: all
      dashboards, current and in the history, are in order throughout if and only if each widget added
      fitted every layout it was added to, and each new number of columns held all widgets. */
  lemma {:induction false} GridStaysInOrderIff(events: seq<Event>)
    requires forall i :: 0 <= i < |events| ==> BringsOrder(events[i])
    ensures (forall n: nat {:trigger OrderedAt(events, n)} :: OrderedAt(events, n)) <==>
            (forall n: nat {:trigger FitsAt(events, n)} :: FitsAt(events, n))
  {
    if forall n: nat {:trigger FitsAt(events, n)} :: FitsAt(events, n) {
      forall n: nat ensures OrderedAt(events, n) {
        FittingEventsKeepOrder(events, n);
      }
    }
    if forall n: nat {:trigger OrderedAt(events, n)} :: OrderedAt(events, n) {
      forall n: nat ensures FitsAt(events, n) {
        if n < |events| {
          var next := n + 1;
          assert OrderedAt(events, n) && OrderedAt(events, next);
          AfterStep(events, n);
          StepKeepsOrderIff(After(events[..n]), events[n]);
        }
      }
    }
  }

  /** In every such session in order: while a widget is dragged, the border warns exactly when the drop
      would be refused. */
  lemma {:induction false} DropHintIsRight(events: seq<Event>, i: nat, k: nat, newX: int, newY: int)
    requires forall j :: 0 <= j < |events| ==> BringsOrder(events[j])
    requires forall n: nat {:trigger FitsAt(events, n)} :: FitsAt(events, n)
    requires After(events).dashboard.Some? && i < |After(events).dashboard.value.layouts|
    requires k < |After(events).dashboard.value.layouts[i].widgets|
    ensures var layout := After(events).dashboard.value.layouts[i];
      var widget := layout.widgets[k];
      var x, y := CoerceIn(newX, 0, AtLeastZero(layout.columns - widget.w)), AtLeastZero(newY);
      && |Moved(layout, widget.id, newX, newY).widgets| == |layout.widgets|
      && (WouldOverlapAny(x, y, widget.w, widget.h, layout.widgets, Some(widget.id)) <==>
            Moved(layout, widget.id, newX, newY).widgets[k] != widget.(x := x, y := y))
  {
    FittingEventsKeepOrder(events, |events|);
    assert events[..|events|] == events;
    HintMeansRefusal(After(events).dashboard.value.layouts[i], k, newX, newY);
  }

  // ---- Distinct size classes suffice ----

  ghost predicate BringsDistinct(event: Event) {
    match event
    case Load(dashboard) => DistinctClasses(dashboard)
    case Edit(updated) => DistinctClasses(updated)
    case Reset(dashboard) => DistinctClasses(dashboard)
    case _ => true
  }

  ghost predicate AllDistinct(ds: seq<Dashboard>) {
    forall i :: 0 <= i < |ds| ==> DistinctClasses(ds[i])
  }

  ghost predicate EditorDistinct(e: Editor) {
    (e.dashboard.Some? ==> DistinctClasses(e.dashboard.value)) && AllDistinct(e.undoStack) && AllDistinct(e.redoStack)
  }

  lemma EditedDistinct(e: Editor, sizeClass: SizeClass, transform: Transform)
    requires EditorDistinct(e) && e.dashboard.Some?
    requires forall l :: transform(l).sizeClass == l.sizeClass
    ensures EditorDistinct(AfterEdit(e, Updated(e.dashboard.value, sizeClass, transform)))
  {
    var d := e.dashboard.value;
    var updated := Updated(d, sizeClass, transform);
    forall i | 0 <= i < |d.layouts| ensures updated.layouts[i].sizeClass == d.layouts[i].sizeClass {}
  }

  lemma StepKeepsDistinct(e: Editor, event: Event)
    requires EditorDistinct(e) && BringsDistinct(event)
    ensures EditorDistinct(Step(e, event))
  {
    if Enabled(e, event) {
      match event
      case Load(dashboard) =>
        var widened := WithWidenedColumns(dashboard);
        forall i | 0 <= i < |dashboard.layouts| ensures widened.layouts[i].sizeClass == dashboard.layouts[i].sizeClass {}
      case Add(sizeClass, widget) => EditedDistinct(e, sizeClass, (l: DashboardLayout) => Added(l, widget));
      case Remove(sizeClass, widgetId) => EditedDistinct(e, sizeClass, (l: DashboardLayout) => Removed(l, widgetId));
      case Move(sizeClass, widgetId, newX, newY) =>
        EditedDistinct(e, sizeClass, (l: DashboardLayout) => Moved(l, widgetId, newX, newY));
      case Regrid(sizeClass, columns, rowHeight) =>
        EditedDistinct(e, sizeClass, (l: DashboardLayout) => Regridded(l, columns, rowHeight));
      case _ =>
    }
  }

  /** When the dashboards brought in have distinct size classes, every addition fits, so without new grid
      sizes all dashboards, current and in the history, stay free of overlaps, inside the columns and with
      unique ids. */
  lemma {:induction false} GridStaysDisjoint(events: seq<Event>)
    requires forall i :: 0 <= i < |events| ==> BringsOrder(events[i]) && BringsDistinct(events[i]) && !events[i].Regrid?
    ensures EditorOk(After(events)) && EditorDistinct(After(events))
  {
    if |events| > 0 {
      var e, event := After(events[..|events| - 1]), events[|events| - 1];
      GridStaysDisjoint(events[..|events| - 1]);
      if Enabled(e, event) && event.Add? {
        DistinctClassesFit(e.dashboard.value, event.sizeClass, event.widget);
      }
      StepKeepsOrderIff(e, event);
      StepKeepsDistinct(e, event);
    }
  }

  /** The edit dialog does not check: its resize keeps a layout in order exactly when the new rectangle
      fits and meets no other widget. */
  lemma ResizeKeepsIff(layout: DashboardLayout, k: nat, title: string, w: int, h: int, config: map<string, string>)
    requires LayoutOk(layout) && k < |layout.widgets|
    ensures var old' := layout.widgets[k];
      var new' := old'.(w := CoerceIn(w, 1, layout.columns), h := CoerceIn(h, 1, MAX_WIDGET_ROWS));
      LayoutOk(Resized(layout, old'.id, title, w, h, config)) <==>
        new'.x + new'.w <= layout.columns &&
        forall i :: 0 <= i < |layout.widgets| && i != k ==> !RectsOverlap(new', layout.widgets[i])
  {
    var widgets := layout.widgets;
    var after := Resized(layout, widgets[k].id, title, w, h, config).widgets;
    forall i | 0 <= i < |widgets| && i != k ensures after[i] == widgets[i] {
      assert Apart(widgets[i], widgets[k]);
    }
    forall i | 0 <= i < |widgets| && i != k ensures RectsOverlap(after[k], after[i]) == RectsOverlap(after[i], after[k]) {
      assert InGrid(widgets[i], layout.columns);
    }
    if LayoutOk(Resized(layout, widgets[k].id, title, w, h, config)) {
      forall i | 0 <= i < |widgets| && i != k ensures !RectsOverlap(after[k], widgets[i]) {
        assert Apart(after[k], after[i]);
      }
      assert InGrid(after[k], layout.columns);
    }
  }

  // ---- What the dialogs and the loader change ----

  /** The grid dialog sets the allowed number of columns and the allowed row height nearest to what was asked
      for, and nothing else. */
  lemma RegridTakesNearest(layout: DashboardLayout, columns: int, rowHeight: int)
    ensures var l := Regridded(layout, columns, rowHeight);
      && l == layout.(columns := l.columns, rowHeight := l.rowHeight)
      && 6 <= l.columns <= 24 && 40 <= l.rowHeight <= 140
      && (forall c {:trigger Distance(c, columns)} :: 6 <= c <= 24 ==> Distance(l.columns, columns) <= Distance(c, columns))
      && (forall h {:trigger Distance(h, rowHeight)} :: 40 <= h <= 140 ==> Distance(l.rowHeight, rowHeight) <= Distance(h, rowHeight))
  {
  }

  /** The edit dialog gives the one widget its title, settings and nearest allowed size, leaves it where it is
      and the others alone. */
  lemma ResizeChangesOne(layout: DashboardLayout, k: nat, title: string, w: int, h: int, config: map<string, string>)
    requires LayoutOk(layout) && k < |layout.widgets|
    ensures var old' := layout.widgets[k];
      var l := Resized(layout, old'.id, title, w, h, config);
      && |l.widgets| == |layout.widgets| && l == layout.(widgets := layout.widgets[k := l.widgets[k]])
      && l.widgets[k] == old'.(title := title, config := config, w := l.widgets[k].w, h := l.widgets[k].h)
      && 1 <= l.widgets[k].w <= layout.columns && 1 <= l.widgets[k].h <= 8
      && (forall v {:trigger Distance(v, w)} :: 1 <= v <= layout.columns ==> Distance(l.widgets[k].w, w) <= Distance(v, w))
      && (forall v {:trigger Distance(v, h)} :: 1 <= v <= 8 ==> Distance(l.widgets[k].h, h) <= Distance(v, h))
  {
    forall i | 0 <= i < |layout.widgets| && i != k ensures layout.widgets[i].id != layout.widgets[k].id {
      assert Apart(layout.widgets[i], layout.widgets[k]);
    }
  }

  /** Removing a widget leaves a layout without it and with every other widget. */
  lemma RemoveTakesOne(layout: DashboardLayout, widgetId: string)
    ensures var l := Removed(layout, widgetId);
      && l == layout.(widgets := l.widgets) && !Has(l.widgets, widgetId)
      && forall widget :: widget in l.widgets <==> widget in layout.widgets && widget.id != widgetId
  {
    var from := WithoutIsSubsequence(layout.widgets, widgetId);
    forall widget | widget in layout.widgets && widget.id != widgetId ensures widget in Without(layout.widgets, widgetId) {
      var i :| 0 <= i < |layout.widgets| && layout.widgets[i] == widget;
      assert i in from;
    }
  }

  /** A loaded dashboard is what was stored, with at least six columns in every layout; that puts no layout
      out of order. */
  lemma LoadWidens(d: Dashboard)
    ensures var loaded := WithWidenedColumns(d);
      && loaded == d.(layouts := loaded.layouts) && |loaded.layouts| == |d.layouts|
      && forall i :: 0 <= i < |d.layouts| ==>
           && loaded.layouts[i] == d.layouts[i].(columns := loaded.layouts[i].columns)
           && loaded.layouts[i].columns >= 6 && loaded.layouts[i].columns >= d.layouts[i].columns
           && (d.layouts[i].columns >= 6 ==> loaded.layouts[i] == d.layouts[i])
           && (LayoutOk(d.layouts[i]) ==> LayoutOk(loaded.layouts[i]))
  {
    var loaded := WithWidenedColumns(d);
    forall i | 0 <= i < |d.layouts| && LayoutOk(d.layouts[i]) ensures LayoutOk(loaded.layouts[i]) {
      assert loaded.layouts[i].widgets == d.layouts[i].widgets;
      forall j | 0 <= j < |d.layouts[i].widgets| ensures InGrid(loaded.layouts[i].widgets[j], loaded.layouts[i].columns) {
        assert InGrid(d.layouts[i].widgets[j], d.layouts[i].columns);
      }
    }
  }

  /** The layout that is shown and searched for a size class: the first one made for it, else the first of
      all, else a fresh one of twelve columns. */
  lemma {:induction false} LayoutForIsFirst(d: Dashboard, sizeClass: SizeClass, i: nat)
    ensures d.layouts == [] ==> LayoutFor(d, sizeClass) == DashboardLayout(sizeClass, 12, 72, [])
    ensures d.layouts != [] && (forall j :: 0 <= j < |d.layouts| ==> d.layouts[j].sizeClass != sizeClass) ==>
              LayoutFor(d, sizeClass) == d.layouts[0]
    ensures i < |d.layouts| && d.layouts[i].sizeClass == sizeClass && (forall j :: 0 <= j < i ==> d.layouts[j].sizeClass != sizeClass) ==>
              LayoutFor(d, sizeClass) == d.layouts[i]
  {
    if i < |d.layouts| && d.layouts[i].sizeClass == sizeClass && (forall j :: 0 <= j < i ==> d.layouts[j].sizeClass != sizeClass) {
      FirstOfIs(d.layouts, sizeClass, i);
    }
  }

  lemma {:induction false} FirstOfIs(layouts: seq<DashboardLayout>, sizeClass: SizeClass, i: nat)
    requires i < |layouts| && layouts[i].sizeClass == sizeClass && forall j :: 0 <= j < i ==> layouts[j].sizeClass != sizeClass
    ensures FirstOf(layouts, sizeClass) == layouts[i]
  {
    if i > 0 {
      assert layouts[1..][i - 1] == layouts[i];
      forall j | 0 <= j < i - 1 ensures layouts[1..][j].sizeClass != sizeClass {
        assert layouts[1..][j] == layouts[j + 1];
      }
      FirstOfIs(layouts[1..], sizeClass, i - 1);
    }
  }
}

/**
 * The dashboard's state container (src/store/dashboardStore.ts): whether the
 * grid is editable, the global API configuration and the list of widgets.
 * Each action replaces one field with a new value built from the old one;
 * the functions below give those new values and the class `Dashboard`
 * holds the fields and performs the replacements.
 */
module DashboardStore {
  import opened Wrappers
  import opened Types

  const DefaultGlobalApiConfig: ApiConfig :=
    ApiConfig("", REST, Some(GET), Some(map[]), Some(""), Some(""), None, None)

  const DefaultTitle := "New Widget"

  /** The layout a widget added without one gets: column 0 at the bottom, 4 by 3, at least 2 by 2. */
  function DefaultLayout(id: string): (l: WidgetLayout)
    ensures l.i == id && l.x == 0 && l.y == Infinity
    ensures l.minW.Some? && l.minW.value <= l.w && l.minH.Some? && l.minH.value <= l.h
  {
    WidgetLayout(id, 0, Infinity, 4, 3, Some(2), Some(2), None, None)
  }

  /** A present optional field that holds `undefined` reads as absent. */
  function Flatten<T>(o: Option<Option<T>>): Option<T> {
    if o.Some? then o.value else None
  }

  /** The widget `addWidget(p)` appends when the id generator yields `id`. */
  function NewWidget(p: Patch, id: string): (w: Widget)
    ensures w.id == id
    ensures w.title == DefaultTitle <==> p.title.None? || p.title.value in {"", DefaultTitle}
    ensures w.useGlobalEndpoint <==> p.useGlobalEndpoint != Some(false)
    ensures p.title.Some? && p.title.value != "" ==> w.title == p.title.value
    ensures p.useGlobalEndpoint.Some? ==> w.useGlobalEndpoint == p.useGlobalEndpoint.value
    ensures p.layout.Some? ==> w.layout == p.layout.value
    ensures p.layout.None? ==> w.layout == WidgetLayout(id, 0, Infinity, 4, 3, Some(2), Some(2), None, None)
    ensures w.viewType == p.viewType.GetOr(JSON)
    ensures w.localApiConfig == Flatten(p.localApiConfig) && w.dataKey == Flatten(p.dataKey)
  {
    Widget(
      id,
      if p.title.Some? && p.title.value != "" then p.title.value else DefaultTitle,
      if p.layout.Some? then p.layout.value else DefaultLayout(id),
      if p.useGlobalEndpoint.Some? then p.useGlobalEndpoint.value else true,
      Flatten(p.localApiConfig),
      if p.viewType.Some? then p.viewType.value else JSON,
      Flatten(p.dataKey))
  }

  /** `{ ...w, ...p }`: the fields present in p replace those of w. */
  function ApplyPatch(w: Widget, p: Patch): (r: Widget)
    ensures p == NoFields ==> r == w
    ensures (p.id.Some? ==> r.id == p.id.value) && (p.title.Some? ==> r.title == p.title.value)
            && (p.layout.Some? ==> r.layout == p.layout.value)
            && (p.useGlobalEndpoint.Some? ==> r.useGlobalEndpoint == p.useGlobalEndpoint.value)
            && (p.localApiConfig.Some? ==> r.localApiConfig == p.localApiConfig.value)
            && (p.viewType.Some? ==> r.viewType == p.viewType.value)
            && (p.dataKey.Some? ==> r.dataKey == p.dataKey.value)
    ensures (p.id.None? ==> r.id == w.id) && (p.title.None? ==> r.title == w.title)
            && (p.layout.None? ==> r.layout == w.layout)
            && (p.useGlobalEndpoint.None? ==> r.useGlobalEndpoint == w.useGlobalEndpoint)
            && (p.localApiConfig.None? ==> r.localApiConfig == w.localApiConfig)
            && (p.viewType.None? ==> r.viewType == w.viewType)
            && (p.dataKey.None? ==> r.dataKey == w.dataKey)
  {
    Widget(
      p.id.GetOr(w.id),
      p.title.GetOr(w.title),
      p.layout.GetOr(w.layout),
      p.useGlobalEndpoint.GetOr(w.useGlobalEndpoint),
      p.localApiConfig.GetOr(w.localApiConfig),
      p.viewType.GetOr(w.viewType),
      p.dataKey.GetOr(w.dataKey))
  }

  /** `{ ...p, ...q }`: the patch that spreads p and then q. */
  function Then(p: Patch, q: Patch): Patch {
    Patch(
      if q.id.Some? then q.id else p.id,
      if q.title.Some? then q.title else p.title,
      if q.layout.Some? then q.layout else p.layout,
      if q.useGlobalEndpoint.Some? then q.useGlobalEndpoint else p.useGlobalEndpoint,
      if q.localApiConfig.Some? then q.localApiConfig else p.localApiConfig,
      if q.viewType.Some? then q.viewType else p.viewType,
      if q.dataKey.Some? then q.dataKey else p.dataKey)
  }

  /** Spreading two patches one after the other is spreading their merge; `{}` changes nothing. */
  lemma PatchComposition(w: Widget, p: Patch, q: Patch)
    ensures ApplyPatch(ApplyPatch(w, p), q) == ApplyPatch(w, Then(p, q))
    ensures ApplyPatch(w, NoFields) == w
    ensures ApplyPatch(ApplyPatch(w, p), p) == ApplyPatch(w, p)
  {
  }

  predicate HasId(ws: seq<Widget>, id: string) {
    exists k :: 0 <= k < |ws| && ws[k].id == id
  }

  /** The list `updateWidget(id, p)` stores: p spread into every widget whose id is `id`. */
  function UpdatedWidgets(ws: seq<Widget>, id: string, p: Patch): (r: seq<Widget>)
    ensures |r| == |ws|
    ensures forall k :: 0 <= k < |ws| && ws[k].id == id ==> r[k] == ApplyPatch(ws[k], p)
    ensures forall k :: 0 <= k < |ws| && ws[k].id != id ==> r[k] == ws[k]
  {
    seq(|ws|, k requires 0 <= k < |ws| => if ws[k].id == id then ApplyPatch(ws[k], p) else ws[k])
  }

  /** Updating a widget that is not in the list leaves the list as it was. */
  lemma UpdateUnknownIdIsNoOp(ws: seq<Widget>, id: string, p: Patch)
    requires !HasId(ws, id)
    ensures UpdatedWidgets(ws, id, p) == ws
  {
  }

  /** The list `removeWidget(id)` stores: every widget whose id is not `id`, in order. */
  function WithoutId(ws: seq<Widget>, id: string): (r: seq<Widget>)
    ensures |r| <= |ws|
    ensures forall w :: w in r <==> w in ws && w.id != id
  {
    if ws == [] then []
    else if ws[0].id == id then WithoutId(ws[1..], id)
    else [ws[0]] + WithoutId(ws[1..], id)
  }

  /** Removing an id no widget has is a no-op. */
  lemma {:induction false} RemoveUnknownIdIsNoOp(ws: seq<Widget>, id: string)
    requires !HasId(ws, id)
    ensures WithoutId(ws, id) == ws
  {
    if ws != [] {
      assert !HasId(ws[1..], id) by {
        forall k | 0 <= k < |ws[1..]| ensures ws[1..][k].id != id {
          assert ws[1..][k] == ws[k + 1];
        }
      }
      RemoveUnknownIdIsNoOp(ws[1..], id);
    }
  }

  /** Removal works piece by piece, so the widgets that stay keep their relative order. */
  lemma {:induction false} RemoveDistributes(a: seq<Widget>, b: seq<Widget>, id: string)
    ensures WithoutId(a + b, id) == WithoutId(a, id) + WithoutId(b, id)
  {
    if a != [] {
      assert (a + b)[1..] == a[1..] + b;
      RemoveDistributes(a[1..], b, id);
    } else {
      assert a + b == b;
    }
  }

  /** Removing the same id twice removes nothing more. */
  lemma RemoveIsIdempotent(ws: seq<Widget>, id: string)
    ensures WithoutId(WithoutId(ws, id), id) == WithoutId(ws, id)
  {
    var r := WithoutId(ws, id);
    assert !HasId(r, id) by {
      forall k | 0 <= k < |r| ensures r[k].id != id {
        assert r[k] in r;
      }
    }
    RemoveUnknownIdIsNoOp(r, id);
  }

  /** `layouts[k]` is the first layout naming `id`. */
  predicate FirstFor(layouts: seq<WidgetLayout>, id: string, k: int) {
    0 <= k < |layouts| && layouts[k].i == id && forall j :: 0 <= j < k ==> layouts[j].i != id
  }

  /** `layouts.find(l => l.i === id)`. */
  function FindLayout(layouts: seq<WidgetLayout>, id: string): (r: Option<WidgetLayout>)
    ensures r.None? <==> forall k :: 0 <= k < |layouts| ==> layouts[k].i != id
    ensures r.Some? ==> exists k :: FirstFor(layouts, id, k) && layouts[k] == r.value
  {
    if layouts == [] then None
    else if layouts[0].i == id then (assert FirstFor(layouts, id, 0); Some(layouts[0]))
    else
      var r := FindLayout(layouts[1..], id);
      assert r.Some? ==> exists k :: FirstFor(layouts, id, k) && layouts[k] == r.value by {
        if r.Some? {
          var k :| FirstFor(layouts[1..], id, k) && layouts[1..][k] == r.value;
          assert FirstFor(layouts, id, k + 1) by {
            forall j | 0 <= j < k + 1 ensures layouts[j].i != id {
              if j > 0 { assert layouts[j] == layouts[1..][j - 1]; }
            }
          }
        }
      }
      r
  }

  /** A layout for another widget, wherever it stands, does not change which layout is found. */
  lemma {:induction false} FindLayoutSkipsOthers(a: seq<WidgetLayout>, l: WidgetLayout, b: seq<WidgetLayout>, id: string)
    requires l.i != id
    ensures FindLayout(a + [l] + b, id) == FindLayout(a + b, id)
  {
    if a == [] {
      assert a + [l] + b == [l] + b && ([l] + b)[1..] == b;
      assert a + b == b;
    } else {
      assert (a + [l] + b)[0] == (a + b)[0] == a[0];
      assert (a + [l] + b)[1..] == a[1..] + [l] + b;
      assert (a + b)[1..] == a[1..] + b;
      FindLayoutSkipsOthers(a[1..], l, b, id);
    }
  }

  /** The list `updateLayout(layouts)` stores: each widget with the first layout naming it, if any. */
  function WithLayouts(ws: seq<Widget>, layouts: seq<WidgetLayout>): (r: seq<Widget>)
    ensures |r| == |ws|
    ensures forall k :: 0 <= k < |ws| ==>
              r[k] == (var l := FindLayout(layouts, ws[k].id); if l.Some? then ws[k].(layout := l.value) else ws[k])
  {
    seq(|ws|, k requires 0 <= k < |ws| =>
      var l := FindLayout(layouts, ws[k].id);
      if l.Some? then ws[k].(layout := l.value) else ws[k])
  }

  /** A layout whose `i` names no widget has no effect. */
  lemma UnmatchedLayoutIgnored(ws: seq<Widget>, a: seq<WidgetLayout>, l: WidgetLayout, b: seq<WidgetLayout>)
    requires !HasId(ws, l.i)
    ensures WithLayouts(ws, a + [l] + b) == WithLayouts(ws, a + b)
  {
    forall k | 0 <= k < |ws| ensures FindLayout(a + [l] + b, ws[k].id) == FindLayout(a + b, ws[k].id) {
      FindLayoutSkipsOthers(a, l, b, ws[k].id);
    }
  }

  /** Only the layout is replaced: ids, titles, configurations and view types stay. */
  lemma LayoutsKeepOtherFields(ws: seq<Widget>, layouts: seq<WidgetLayout>, k: nat)
    requires k < |ws|
    ensures WithLayouts(ws, layouts)[k].(layout := ws[k].layout) == ws[k]
    ensures WithLayouts(ws, layouts)[k].layout.i == ws[k].id || WithLayouts(ws, layouts)[k] == ws[k]
  {
  }

  /** `addWidget()`: the defaults, and `addWidget({ useGlobalEndpoint: false })` keeps the false. */
  lemma AddWidgetDefaults(id: string)
    ensures NewWidget(NoFields, id) ==
            Widget(id, "New Widget", WidgetLayout(id, 0, Infinity, 4, 3, Some(2), Some(2), None, None),
                   true, None, JSON, None)
    ensures !NewWidget(NoFields.(useGlobalEndpoint := Some(false)), id).useGlobalEndpoint
    ensures NewWidget(NoFields.(title := Some("")), id).title == "New Widget"
  {
  }

  class Dashboard {
    var isEditable: bool
    var globalApiConfig: ApiConfig
    var widgets: seq<Widget>

    /** The initial state, before anything is restored from storage. */
    constructor ()
      ensures isEditable && globalApiConfig == DefaultGlobalApiConfig && widgets == []
    {
      isEditable := true;
      globalApiConfig := DefaultGlobalApiConfig;
      widgets := [];
    }

    method ToggleEditable()
      modifies this
      ensures isEditable == !old(isEditable)
      ensures globalApiConfig == old(globalApiConfig) && widgets == old(widgets)
    {
      isEditable := !isEditable;
    }

    method SetGlobalApiConfig(config: ApiConfig)
      modifies this
      ensures globalApiConfig == config
      ensures isEditable == old(isEditable) && widgets == old(widgets)
    {
      globalApiConfig := config;
    }

    /** `addWidget(p)`, with `id` the value the uuid generator returned for this call. */
    method AddWidget(p: Patch, id: string)
      modifies this
      ensures widgets == old(widgets) + [NewWidget(p, id)]
      ensures !HasId(old(widgets), id) ==>
                forall k :: 0 <= k < |old(widgets)| ==> widgets[k].id != widgets[|widgets| - 1].id
      ensures isEditable == old(isEditable) && globalApiConfig == old(globalApiConfig)
    {
      widgets := widgets + [NewWidget(p, id)];
    }

    method UpdateWidget(id: string, updates: Patch)
      modifies this
      ensures widgets == UpdatedWidgets(old(widgets), id, updates)
      ensures isEditable == old(isEditable) && globalApiConfig == old(globalApiConfig)
    {
      widgets := UpdatedWidgets(widgets, id, updates);
    }

    method RemoveWidget(id: string)
      modifies this
      ensures widgets == WithoutId(old(widgets), id)
      ensures isEditable == old(isEditable) && globalApiConfig == old(globalApiConfig)
    {
      widgets := WithoutId(widgets, id);
    }

    method UpdateLayout(layouts: seq<WidgetLayout>)
      modifies this
      ensures widgets == WithLayouts(old(widgets), layouts)
      ensures isEditable == old(isEditable) && globalApiConfig == old(globalApiConfig)
    {
      widgets := WithLayouts(widgets, layouts);
    }
  }

  /** What a caller can conclude from the contracts alone: the store's own usage scenarios. */
  method UsageScenarios(id1: string, id2: string)
    requires id1 != id2
  {
    var s := new Dashboard();
    s.ToggleEditable();
    assert !s.isEditable;
    s.ToggleEditable();
    assert s.isEditable;

    s.AddWidget(NoFields.(title := Some("Widget 1")), id1);
    s.AddWidget(NoFields.(title := Some("Widget 2")), id2);
    assert s.widgets[0].id != s.widgets[1].id;

    s.UpdateWidget(id1, NoFields.(title := Some("Updated Widget 1")));
    assert s.widgets[0].title == "Updated Widget 1" && s.widgets[1].title == "Widget 2";

    var moved := WidgetLayout(id1, 5, Row(10), 6, 4, None, None, None, None);
    s.UpdateLayout([moved]);
    assert s.widgets[0].layout == moved && s.widgets[1].layout == DefaultLayout(id2);

    s.RemoveWidget(id1);
    assert s.widgets == [NewWidget(NoFields.(title := Some("Widget 2")), id2)];
  }
}

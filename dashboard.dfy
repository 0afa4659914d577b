/**
 * The dashboard itself (`main.ts`): the widget list `currentWidgets`, how it
 * is restored from browser storage at start-up (`loadDashboardState`), how a
 * panel edit is applied to it (`handlePanelApply`), and how a drag and drop
 * reorders it (Sortable's `onEnd`).
 *
 * Storage holds one JSON text under the key `dashboardState`. The model does
 * not parse JSON: the text is given as the value `JSON.parse` makes of it,
 * and `JSON.stringify` followed by `JSON.parse` is the identity on widgets.
 */
module Dashboard {
  import opened Wrappers
  import opened WidgetModel
  import opened ChartPanel

  // ---------------------------------------------------------------------------
  // The stored state

  /** An element of a parsed saved array: `null`, or an object read as a
      widget (an object without a truthy `id` has the id ""). */
  datatype SavedItem = NullItem | Record(widget: Widget)

  /**
   * What `localStorage.getItem('dashboardState')` yields, as parsed: no
   * entry (or the empty string), text that `JSON.parse` rejects, a JSON value
   * that is not an array, or an array.
   */
  datatype StoredState = NoEntry | Unparsable | NotAnArray | Entries(items: seq<SavedItem>)

  /** The outcome of `savedWidgets.every(w => w.id)`. */
  datatype Shape = AllIdentified | MissingId | Threw

  /** Every element is an object with a truthy id. */
  predicate Identified(items: seq<SavedItem>) {
    forall i :: 0 <= i < |items| ==> items[i].Record? && items[i].widget.id != ""
  }

  /**
   * `every(w => w.id)` walks the array from the front: reading `id` of a
   * `null` element throws, and the walk stops at the first element whose id
   * is not truthy.
   */
  function ShapeCheck(items: seq<SavedItem>): (r: Shape)
    ensures r == AllIdentified <==> Identified(items)
    ensures r == Threw <==>
      exists i :: 0 <= i < |items| && items[i].NullItem? && Identified(items[..i])
  {
    if items == [] then AllIdentified
    else if items[0].NullItem? then
      assert Identified(items[..0]);
      Threw
    else if items[0].widget.id == "" then
      assert !Identified(items);
      MissingId
    else
      var r := ShapeCheck(items[1..]);
      ShapeCheckStep(items);
      r
  }

  /** How the properties `ShapeCheck` reports carry over from the tail. */
  lemma ShapeCheckStep(items: seq<SavedItem>)
    requires items != [] && items[0].Record? && items[0].widget.id != ""
    ensures Identified(items) <==> Identified(items[1..])
    ensures (exists i :: 0 <= i < |items| && items[i].NullItem? && Identified(items[..i])) <==>
            (exists i :: 0 <= i < |items[1..]| && items[1..][i].NullItem? && Identified(items[1..][..i]))
  {
    var tail := items[1..];
    if exists i :: 0 <= i < |items| && items[i].NullItem? && Identified(items[..i]) {
      var i :| 0 <= i < |items| && items[i].NullItem? && Identified(items[..i]);
      assert i > 0;
      assert tail[i - 1].NullItem?;
      assert Identified(tail[..i - 1]) by {
        forall j | 0 <= j < i - 1
          ensures tail[j].Record? && tail[j].widget.id != ""
        {
          assert tail[j] == items[..i][j + 1];
        }
      }
    }
    if exists i :: 0 <= i < |tail| && tail[i].NullItem? && Identified(tail[..i]) {
      var i :| 0 <= i < |tail| && tail[i].NullItem? && Identified(tail[..i]);
      assert items[i + 1].NullItem?;
      assert Identified(items[..i + 1]) by {
        forall j | 0 <= j < i + 1
          ensures items[j].Record? && items[j].widget.id != ""
        {
          if j > 0 {
            assert items[j] == tail[..i][j - 1];
          }
        }
      }
    }
    assert Identified(items) ==> Identified(tail) by {
      if Identified(items) {
        forall j | 0 <= j < |tail|
          ensures tail[j].Record? && tail[j].widget.id != ""
        {
          assert tail[j] == items[j + 1];
        }
      }
    }
  }

  /** The widgets of an array that passed the shape check. */
  function SavedWidgets(items: seq<SavedItem>): (ws: seq<Widget>)
    requires forall i :: 0 <= i < |items| ==> items[i].Record?
    ensures |ws| == |items|
    ensures forall i :: 0 <= i < |items| ==> ws[i] == items[i].widget
  {
    seq(|items|, i requires 0 <= i < |items| => items[i].widget)
  }

  /** `saveDashboardState`: the widget list written as a JSON array. */
  function Saved(ws: seq<Widget>): (s: StoredState)
    ensures s.Entries? && |s.items| == |ws|
    ensures forall i :: 0 <= i < |ws| ==> s.items[i] == Record(ws[i])
  {
    Entries(seq(|ws|, i requires 0 <= i < |ws| => Record(ws[i])))
  }

  /** Reading back what was written gives the same widgets. */
  lemma SavedRoundTrip(ws: seq<Widget>)
    ensures forall i :: 0 <= i < |Saved(ws).items| ==> Saved(ws).items[i].Record?
    ensures SavedWidgets(Saved(ws).items) == ws
    ensures ShapeCheck(Saved(ws).items) == AllIdentified <==> forall i :: 0 <= i < |ws| ==> ws[i].id != ""
  {
  }

  // ---------------------------------------------------------------------------
  // Reconciliation with the catalog

  /** `{...base, ...top}` on one field: a field the top object has wins. */
  function Overlay<T>(base: Option<T>, top: Option<T>): (r: Option<T>)
    ensures r.Some? <==> top.Some? || base.Some?
    ensures top.Some? ==> r == top
    ensures top.None? ==> r == base
  {
    if top.Some? then top else base
  }

  /** `{ ...initialDef, ...savedWidget }`: a shallow merge in which every
      top-level field the saved widget has wins, a whole chart included. */
  function MergeEntry(base: Widget, top: Widget): (r: Widget)
    ensures r.id == top.id
  {
    Widget(top.id, Overlay(base.title, top.title), Overlay(base.content, top.content),
           Overlay(base.columnClass, top.columnClass), Overlay(base.chart, top.chart))
  }

  /** The merge takes each field from the saved widget when present, from the
      catalog entry otherwise; merging twice adds nothing, and a widget merged
      onto itself is unchanged. */
  lemma MergeShallow(base: Widget, top: Widget)
    ensures var r := MergeEntry(base, top);
      && (top.title.Some? ==> r.title == top.title) && (top.title.None? ==> r.title == base.title)
      && (top.content.Some? ==> r.content == top.content) && (top.content.None? ==> r.content == base.content)
      && (top.columnClass.Some? ==> r.columnClass == top.columnClass)
      && (top.columnClass.None? ==> r.columnClass == base.columnClass)
      && (top.chart.Some? ==> r.chart == top.chart) && (top.chart.None? ==> r.chart == base.chart)
    ensures MergeEntry(base, MergeEntry(base, top)) == MergeEntry(base, top)
    ensures MergeEntry(top, top) == top
  {
  }

  /** Merging onto `base` leaves `top` as it is exactly when every field the
      saved widget lacks is also absent from `base`. */
  predicate Covers(top: Widget, base: Widget) {
    && (top.title.Some? || base.title.None?)
    && (top.content.Some? || base.content.None?)
    && (top.columnClass.Some? || base.columnClass.None?)
    && (top.chart.Some? || base.chart.None?)
  }

  lemma MergeKeeps(base: Widget, top: Widget)
    ensures MergeEntry(base, top) == top <==> Covers(top, base)
  {
  }

  /** One saved widget after reconciliation: merged onto the catalog entry
      with its id, or kept as it is when the catalog has none. */
  function ReconcileEntry(catalog: seq<Widget>, saved: Widget): (r: Widget)
    ensures r.id == saved.id
  {
    match FirstIndexOf(catalog, saved.id)
    case Some(k) => MergeEntry(catalog[k], saved)
    case None => saved
  }

  /** `savedWidgets.map(...)`: the saved widgets reconciled one by one. */
  function MergedSaved(catalog: seq<Widget>, saved: seq<Widget>): (r: seq<Widget>)
    ensures |r| == |saved|
    ensures forall i :: 0 <= i < |saved| ==> r[i] == ReconcileEntry(catalog, saved[i])
  {
    seq(|saved|, i requires 0 <= i < |saved| => ReconcileEntry(catalog, saved[i]))
  }

  /** The catalog entries whose id no saved widget has, in catalog order. */
  function Missing(catalog: seq<Widget>, saved: seq<Widget>): (r: seq<Widget>)
    ensures |r| <= |catalog|
    ensures forall i :: 0 <= i < |r| ==> r[i] in catalog && !HasId(saved, r[i].id)
  {
    if catalog == [] then []
    else
      var last := catalog[|catalog| - 1];
      Missing(catalog[..|catalog| - 1], saved) + (if HasId(saved, last.id) then [] else [last])
  }

  /** The widget list `loadDashboardState` builds from an array of saved
      widgets: the saved widgets first, then the missing catalog entries. */
  function Reconciled(catalog: seq<Widget>, saved: seq<Widget>): (r: seq<Widget>)
    ensures |saved| <= |r| <= |saved| + |catalog|
    ensures forall i :: 0 <= i < |saved| ==> r[i] == ReconcileEntry(catalog, saved[i])
    ensures forall i :: |saved| <= i < |r| ==> r[i] in catalog && !HasId(saved, r[i].id)
  {
    MergedSaved(catalog, saved) + Missing(catalog, saved)
  }

  /** The widget list `loadDashboardState` returns for a stored value: the
      reconciled saved array when it passes the shape check, a copy of the
      catalog in every other case. */
  function Loaded(stored: StoredState, catalog: seq<Widget>): (r: seq<Widget>)
    ensures !(stored.Entries? && Identified(stored.items)) ==> r == catalog
    ensures stored.Entries? && Identified(stored.items) ==>
      && |stored.items| <= |r|
      && forall i :: 0 <= i < |stored.items| ==> r[i] == ReconcileEntry(catalog, stored.items[i].widget)
    ensures forall j :: 0 <= j < |catalog| ==> HasId(r, catalog[j].id)
  {
    OwnIds(catalog);
    if stored.Entries? && ShapeCheck(stored.items) == AllIdentified then
      CatalogIdsKept(catalog, SavedWidgets(stored.items));
      Reconciled(catalog, SavedWidgets(stored.items))
    else catalog
  }

  /** A list holds the id of each of its widgets. */
  lemma OwnIds(ws: seq<Widget>)
    ensures forall j :: 0 <= j < |ws| ==> HasId(ws, ws[j].id)
  {
    forall j | 0 <= j < |ws| ensures HasId(ws, ws[j].id) {
      HasIdOfMember(ws, ws[j]);
    }
  }

  /** An array that passes the shape check loads as its reconciliation. */
  lemma LoadedArray(stored: StoredState, catalog: seq<Widget>)
    requires stored.Entries? && ShapeCheck(stored.items) == AllIdentified
    ensures Loaded(stored, catalog) == Reconciled(catalog, SavedWidgets(stored.items))
  {
  }

  /** Whether `loadDashboardState` removes the storage key: only when an
      exception was caught, that is on unparsable text or a `null` element
      reached by the shape check. */
  predicate KeyRemoved(stored: StoredState)
    ensures KeyRemoved(stored) <==>
      || stored.Unparsable?
      || (stored.Entries? &&
          exists i :: 0 <= i < |stored.items| && stored.items[i].NullItem? && Identified(stored.items[..i]))
  {
    stored.Unparsable? || (stored.Entries? && ShapeCheck(stored.items) == Threw)
  }

  lemma HasIdConcat(a: seq<Widget>, b: seq<Widget>, id: string)
    ensures HasId(a + b, id) <==> HasId(a, id) || HasId(b, id)
  {
    if HasId(a + b, id) {
      var k := FirstIndexOf(a + b, id).value;
      if k >= |a| {
        assert b[k - |a|].id == id;
      }
    }
    if HasId(a, id) {
      assert (a + b)[FirstIndexOf(a, id).value].id == id;
    } else if HasId(b, id) {
      assert (a + b)[|a| + FirstIndexOf(b, id).value].id == id;
    }
  }

  lemma HasIdMember(ws: seq<Widget>, id: string)
    ensures HasId(ws, id) <==> exists w :: w in ws && w.id == id
  {
    if exists w :: w in ws && w.id == id {
      var w :| w in ws && w.id == id;
      HasIdOfMember(ws, w);
    }
  }

  /** Every catalog id is among the merged saved widgets or the missing
      entries appended after them. */
  lemma CatalogIdsKept(catalog: seq<Widget>, saved: seq<Widget>)
    ensures forall j :: 0 <= j < |catalog| ==>
      HasId(MergedSaved(catalog, saved) + Missing(catalog, saved), catalog[j].id)
  {
    forall j | 0 <= j < |catalog|
      ensures HasId(MergedSaved(catalog, saved) + Missing(catalog, saved), catalog[j].id)
    {
      HasIdConcat(MergedSaved(catalog, saved), Missing(catalog, saved), catalog[j].id);
      MergedSavedIds(catalog, saved, catalog[j].id);
      MissingMembers(catalog, saved, catalog[j]);
      if !HasId(saved, catalog[j].id) {
        HasIdOfMember(Missing(catalog, saved), catalog[j]);
      }
    }
  }

  /** Reconciling keeps the saved ids, position by position. */
  lemma MergedSavedIds(catalog: seq<Widget>, saved: seq<Widget>, id: string)
    ensures HasId(MergedSaved(catalog, saved), id) <==> HasId(saved, id)
  {
    var m := MergedSaved(catalog, saved);
    if HasId(m, id) {
      assert saved[FirstIndexOf(m, id).value].id == id;
    }
    if HasId(saved, id) {
      assert m[FirstIndexOf(saved, id).value].id == id;
    }
  }

  /** A catalog entry is missing exactly when no saved widget has its id. */
  lemma {:induction false} MissingMembers(catalog: seq<Widget>, saved: seq<Widget>, w: Widget)
    ensures w in Missing(catalog, saved) <==> w in catalog && !HasId(saved, w.id)
    decreases |catalog|
  {
    if catalog != [] {
      var init := catalog[..|catalog| - 1];
      MissingMembers(init, saved, w);
      assert catalog == init + [catalog[|catalog| - 1]];
    }
  }

  /** Missing entries keep catalog order: the missing entries of a
      concatenation are those of each part, in turn. */
  lemma {:induction false} MissingConcat(c1: seq<Widget>, c2: seq<Widget>, saved: seq<Widget>)
    ensures Missing(c1 + c2, saved) == Missing(c1, saved) + Missing(c2, saved)
    decreases |c2|
  {
    if c2 == [] {
      assert c1 + c2 == c1;
    } else {
      var init := c2[..|c2| - 1];
      MissingConcat(c1, init, saved);
      assert (c1 + c2)[..|c1 + c2| - 1] == c1 + init;
    }
  }

  /** With no catalog id saved, every catalog entry is missing; with every
      catalog id saved, none is. */
  lemma {:induction false} MissingExtremes(catalog: seq<Widget>, saved: seq<Widget>)
    ensures (forall j :: 0 <= j < |catalog| ==> !HasId(saved, catalog[j].id)) ==> Missing(catalog, saved) == catalog
    ensures (forall j :: 0 <= j < |catalog| ==> HasId(saved, catalog[j].id)) ==> Missing(catalog, saved) == []
    decreases |catalog|
  {
    if catalog != [] {
      var init := catalog[..|catalog| - 1];
      MissingExtremes(init, saved);
      assert catalog == init + [catalog[|catalog| - 1]];
    }
  }

  /**
   * With an array of saved widgets the result starts with the saved widgets
   * in saved order, each merged onto the catalog entry with its id or kept
   * as it is, and ends with the catalog entries missing from the array; so
   * every catalog id is present.
   */
  lemma ReconciledShape(catalog: seq<Widget>, saved: seq<Widget>)
    ensures var r := Reconciled(catalog, saved);
      && |r| == |saved| + |Missing(catalog, saved)|
      && (forall i :: 0 <= i < |saved| ==> r[i].id == saved[i].id)
      && (forall i :: 0 <= i < |saved| && FirstIndexOf(catalog, saved[i].id).None? ==> r[i] == saved[i])
      && (forall i :: 0 <= i < |saved| && FirstIndexOf(catalog, saved[i].id).Some? ==>
            r[i] == MergeEntry(catalog[FirstIndexOf(catalog, saved[i].id).value], saved[i]))
      && r[|saved|..] == Missing(catalog, saved)
    ensures forall j :: 0 <= j < |catalog| ==> HasId(Reconciled(catalog, saved), catalog[j].id)
  {
    var r := Reconciled(catalog, saved);
    forall j | 0 <= j < |catalog|
      ensures HasId(r, catalog[j].id)
    {
      HasIdConcat(MergedSaved(catalog, saved), Missing(catalog, saved), catalog[j].id);
      MergedSavedIds(catalog, saved, catalog[j].id);
      MissingMembers(catalog, saved, catalog[j]);
      if !HasId(saved, catalog[j].id) {
        HasIdOfMember(Missing(catalog, saved), catalog[j]);
      }
    }
  }

  /** An empty saved array gives exactly the catalog. */
  lemma EmptySavedIsCatalog(catalog: seq<Widget>)
    ensures Reconciled(catalog, []) == catalog
  {
    MissingExtremes(catalog, []);
  }

  /** Saved arrays and catalogs without repeated ids give a list without
      repeated ids. */
  lemma ReconciledDistinct(catalog: seq<Widget>, saved: seq<Widget>)
    requires DistinctIds(catalog) && DistinctIds(saved)
    ensures DistinctIds(Reconciled(catalog, saved))
  {
    var m, miss := MergedSaved(catalog, saved), Missing(catalog, saved);
    var r := m + miss;
    forall i, j | 0 <= i < j < |r|
      ensures r[i].id != r[j].id
    {
      if j < |m| {
      } else if i >= |m| {
        assert r[i] in miss && r[j] in miss;
        MissingOrder(catalog, saved, i - |m|, j - |m|);
      } else {
        MissingMembers(catalog, saved, r[j]);
        assert r[j] in miss;
        HasIdOfMember(saved, saved[i]);
      }
    }
  }

  /** Two positions of the missing list hold different catalog ids. */
  lemma {:induction false} MissingOrder(catalog: seq<Widget>, saved: seq<Widget>, i: nat, j: nat)
    requires DistinctIds(catalog)
    requires i < j < |Missing(catalog, saved)|
    ensures Missing(catalog, saved)[i].id != Missing(catalog, saved)[j].id
    decreases |catalog|
  {
    var init := catalog[..|catalog| - 1];
    var last := catalog[|catalog| - 1];
    var miss := Missing(catalog, saved);
    assert DistinctIds(init);
    if j < |Missing(init, saved)| {
      MissingOrder(init, saved, i, j);
    } else {
      assert miss[j] == last;
      MissingMembers(init, saved, miss[i]);
      assert miss[i] in init;
      var k :| 0 <= k < |init| && init[k] == miss[i];
      assert catalog[k] == miss[i];
    }
  }

  // ---------------------------------------------------------------------------
  // Settled lists: what a reload gives back unchanged

  /**
   * A widget list that reloads as itself: every widget has a truthy id and
   * lacks no field its catalog entry has, and every catalog id is present.
   */
  predicate Settled(catalog: seq<Widget>, ws: seq<Widget>) {
    && (forall w :: w in ws ==> w.id != "")
    && (forall w :: w in ws && FirstIndexOf(catalog, w.id).Some? ==>
          Covers(w, catalog[FirstIndexOf(catalog, w.id).value]))
    && (forall e :: e in catalog ==> HasId(ws, e.id))
  }

  /** A settled list reconciles to itself. */
  lemma SettledReconciles(catalog: seq<Widget>, ws: seq<Widget>)
    requires Settled(catalog, ws)
    ensures Reconciled(catalog, ws) == ws
  {
    forall i | 0 <= i < |ws|
      ensures ReconcileEntry(catalog, ws[i]) == ws[i]
    {
      assert ws[i] in ws;
      if FirstIndexOf(catalog, ws[i].id).Some? {
        MergeKeeps(catalog[FirstIndexOf(catalog, ws[i].id).value], ws[i]);
      }
    }
    forall j | 0 <= j < |catalog|
      ensures HasId(ws, catalog[j].id)
    {
      assert catalog[j] in catalog;
    }
    MissingExtremes(catalog, ws);
  }

  /** A reconciled saved widget lacks no field of its catalog entry. */
  lemma MergedCovers(catalog: seq<Widget>, s: Widget)
    ensures var w := ReconcileEntry(catalog, s);
      FirstIndexOf(catalog, w.id).Some? ==> Covers(w, catalog[FirstIndexOf(catalog, w.id).value])
  {
    var w := ReconcileEntry(catalog, s);
    if FirstIndexOf(catalog, s.id).Some? {
      var base := catalog[FirstIndexOf(catalog, s.id).value];
      MergeShallow(base, s);
      MergeKeeps(base, w);
    }
  }

  /** A missing catalog entry is its own catalog entry. */
  lemma CatalogEntryCovers(catalog: seq<Widget>, w: Widget)
    requires DistinctIds(catalog) && w in catalog
    ensures FirstIndexOf(catalog, w.id).Some?
    ensures Covers(w, catalog[FirstIndexOf(catalog, w.id).value])
  {
    var k :| 0 <= k < |catalog| && catalog[k] == w;
    HasIdOfMember(catalog, w);
    assert FirstIndexOf(catalog, w.id).value == k;
  }

  /** Reconciling any identified saved array gives a settled list. */
  lemma ReconciledSettled(catalog: seq<Widget>, saved: seq<Widget>)
    requires DistinctIds(catalog)
    requires forall j :: 0 <= j < |catalog| ==> catalog[j].id != ""
    requires forall i :: 0 <= i < |saved| ==> saved[i].id != ""
    ensures Settled(catalog, Reconciled(catalog, saved))
  {
    var m, miss := MergedSaved(catalog, saved), Missing(catalog, saved);
    var r := m + miss;
    ReconciledShape(catalog, saved);
    forall w: Widget | w in r
      ensures w.id != ""
      ensures FirstIndexOf(catalog, w.id).Some? ==> Covers(w, catalog[FirstIndexOf(catalog, w.id).value])
    {
      if w in m {
        var i :| 0 <= i < |m| && m[i] == w;
        MergedCovers(catalog, saved[i]);
      } else {
        assert w in miss;
        MissingMembers(catalog, saved, w);
        CatalogEntryCovers(catalog, w);
        var k :| 0 <= k < |catalog| && catalog[k] == w;
      }
    }
    forall e | e in catalog
      ensures HasId(r, e.id)
    {
      var k :| 0 <= k < |catalog| && catalog[k] == e;
    }
  }

  /** Loading twice is loading once. */
  lemma ReconciledIdempotent(catalog: seq<Widget>, saved: seq<Widget>)
    requires DistinctIds(catalog)
    requires forall j :: 0 <= j < |catalog| ==> catalog[j].id != ""
    requires forall i :: 0 <= i < |saved| ==> saved[i].id != ""
    ensures Reconciled(catalog, Reconciled(catalog, saved)) == Reconciled(catalog, saved)
  {
    ReconciledSettled(catalog, saved);
    SettledReconciles(catalog, Reconciled(catalog, saved));
  }

  /** Whatever is stored, the loaded list is settled. */
  lemma LoadedSettled(stored: StoredState, catalog: seq<Widget>)
    requires DistinctIds(catalog)
    requires forall j :: 0 <= j < |catalog| ==> catalog[j].id != ""
    ensures Settled(catalog, Loaded(stored, catalog))
  {
    if stored.Entries? && ShapeCheck(stored.items) == AllIdentified {
      ReconciledSettled(catalog, SavedWidgets(stored.items));
    } else {
      EmptySavedIsCatalog(catalog);
      ReconciledSettled(catalog, []);
    }
  }

  /** Saving a settled list and loading it again gives the same list. */
  lemma SaveThenLoad(catalog: seq<Widget>, ws: seq<Widget>)
    requires Settled(catalog, ws)
    ensures Loaded(Saved(ws), catalog) == ws
    ensures !KeyRemoved(Saved(ws))
  {
    SavedRoundTrip(ws);
    forall i | 0 <= i < |ws|
      ensures ws[i].id != ""
    {
      assert ws[i] in ws;
    }
    SettledReconciles(catalog, ws);
  }

  /** Nothing stored, unparsable text, a non-array and a failed shape check
      all give the catalog; a `null` element also removes the key, an
      element without an id does not. */
  lemma LoadFallbacks(stored: StoredState, catalog: seq<Widget>)
    ensures stored.NoEntry? || stored.Unparsable? || stored.NotAnArray? ==> Loaded(stored, catalog) == catalog
    ensures stored.Entries? && !Identified(stored.items) ==> Loaded(stored, catalog) == catalog
    ensures KeyRemoved(stored) ==> Loaded(stored, catalog) == catalog
    ensures stored.Entries? && ShapeCheck(stored.items) == MissingId ==> !KeyRemoved(stored)
    ensures !stored.Unparsable? && !stored.Entries? ==> !KeyRemoved(stored)
  {
  }

  /** The loaded list when `every` has reached the item at `i`, which is
      `null`, after identified items only. */
  lemma NullItemRemovesKey(items: seq<SavedItem>, i: nat)
    requires i < |items| && items[i].NullItem? && Identified(items[..i])
    ensures KeyRemoved(Entries(items))
  {
  }

  /**
   * `loadDashboardState`: returns the widget list and whether the storage
   * key is removed. The missing catalog entries are appended in a loop over
   * the catalog, looking each id up in the list built so far.
   */
  method LoadDashboardState(stored: StoredState, catalog: seq<Widget>) returns (widgets: seq<Widget>, removeKey: bool)
    requires DistinctIds(catalog)
    ensures widgets == Loaded(stored, catalog)
    ensures removeKey == KeyRemoved(stored)
  {
    if !stored.Entries? {
      return catalog, stored.Unparsable?;
    }
    var shape := ShapeCheck(stored.items);
    if shape == Threw {
      return catalog, true;
    } else if shape == MissingId {
      return catalog, false;
    }
    var saved := SavedWidgets(stored.items);
    var merged := MergedSaved(catalog, saved);
    widgets := merged;
    var i := 0;
    while i < |catalog|
      invariant 0 <= i <= |catalog|
      invariant widgets == merged + Missing(catalog[..i], saved)
    {
      PrefixLookup(catalog, saved, i);
      MissingStep(catalog, saved, i);
      if !HasId(widgets, catalog[i].id) {
        assert widgets + [catalog[i]] == merged + (Missing(catalog[..i], saved) + [catalog[i]]);
        widgets := widgets + [catalog[i]];
      }
      i := i + 1;
    }
    assert catalog[..|catalog|] == catalog;
    LoadedArray(stored, catalog);
    removeKey := false;
  }

  /** The missing entries of one more catalog entry. */
  lemma MissingStep(catalog: seq<Widget>, saved: seq<Widget>, i: nat)
    requires i < |catalog|
    ensures Missing(catalog[..i + 1], saved) ==
      Missing(catalog[..i], saved) + (if HasId(saved, catalog[i].id) then [] else [catalog[i]])
  {
    assert catalog[..i + 1][..i] == catalog[..i];
  }

  /** While the loop is at catalog entry `i`, looking its id up in the list
      built so far is looking it up among the saved widgets. */
  lemma PrefixLookup(catalog: seq<Widget>, saved: seq<Widget>, i: nat)
    requires DistinctIds(catalog) && i < |catalog|
    ensures HasId(MergedSaved(catalog, saved) + Missing(catalog[..i], saved), catalog[i].id)
        <==> HasId(saved, catalog[i].id)
  {
    var id := catalog[i].id;
    HasIdConcat(MergedSaved(catalog, saved), Missing(catalog[..i], saved), id);
    MergedSavedIds(catalog, saved, id);
    var miss := Missing(catalog[..i], saved);
    forall j | 0 <= j < |miss|
      ensures miss[j].id != id
    {
      assert miss[j] in miss;
      MissingMembers(catalog[..i], saved, miss[j]);
      var k :| 0 <= k < i && catalog[..i][k] == miss[j];
      assert catalog[k] == miss[j];
    }
  }

  // ---------------------------------------------------------------------------
  // Applying a panel edit

  /**
   * Writing a colour update into a dataset colour: into an array, only
   * element 0 is replaced (an empty array gains that element); anything
   * else is replaced by the new single colour.
   */
  function SetLeadingColor(c: Color, v: string): (r: Color)
    ensures c.PerElement? ==> r.PerElement? && |r.colors| == (if c.colors == [] then 1 else |c.colors|)
    ensures c.PerElement? ==> r.colors[0] == v && forall i :: 0 < i < |c.colors| ==> r.colors[i] == c.colors[i]
    ensures !c.PerElement? ==> r == Scalar(v)
  {
    match c
    case PerElement(cs) => if cs == [] then PerElement([v]) else PerElement(cs[0 := v])
    case _ => Scalar(v)
  }

  /** The panel reads back the colour the dashboard wrote, both as the
      overall colour and as the colour of slice 0; writing it twice is
      writing it once. */
  lemma LeadingColorReadsBack(c: Color, v: string)
    ensures ColorValue(SetLeadingColor(c, v)) == v
    ensures SliceColor(SetLeadingColor(c, v), 0) == v
    ensures SetLeadingColor(SetLeadingColor(c, v), v) == SetLeadingColor(c, v)
  {
  }

  /** The first dataset after an update: the label and each colour that the
      update carries are written, the data is kept. */
  function UpdatedDataset(d: Dataset, u: PanelUpdate): (r: Dataset)
    ensures r.data == d.data
    ensures r.seriesLabel == (if u.datasetLabel.Some? then u.datasetLabel else d.seriesLabel)
    ensures u.datasetBgColor.None? ==> r.backgroundColor == d.backgroundColor
    ensures u.datasetBgColor.Some? ==> ColorValue(r.backgroundColor) == u.datasetBgColor.value
    ensures u.datasetBorderColor.None? ==> r.borderColor == d.borderColor
    ensures u.datasetBorderColor.Some? ==> ColorValue(r.borderColor) == u.datasetBorderColor.value
  {
    LeadingColorReadsBack(d.backgroundColor, u.datasetBgColor.GetOr(""));
    LeadingColorReadsBack(d.borderColor, u.datasetBorderColor.GetOr(""));
    Dataset(
      if u.datasetLabel.Some? then u.datasetLabel else d.seriesLabel,
      d.data,
      if u.datasetBgColor.Some? then SetLeadingColor(d.backgroundColor, u.datasetBgColor.value)
      else d.backgroundColor,
      if u.datasetBorderColor.Some? then SetLeadingColor(d.borderColor, u.datasetBorderColor.value)
      else d.borderColor)
  }

  /** `options.scales.y`, created empty when any level of it is missing. */
  function YAxisOf(c: Chart): (y: YAxis)
    ensures HasYAxis(c) ==> y == c.options.value.scales.value.y.value
    ensures !HasYAxis(c) ==> y == YAxis(None, None)
  {
    if HasYAxis(c) then c.options.value.scales.value.y.value else YAxis(None, None)
  }

  /** `options.scales.y.max`, when present. */
  function YMax(c: Chart): Option<int> {
    if HasYAxis(c) then c.options.value.scales.value.y.value.max else None
  }

  /**
   * A chart after an update: the first dataset, if there is one, becomes its
   * `UpdatedDataset`; `options.scales.y` is created if missing, for every
   * chart type; `beginAtZero` is written only when the update carries it and
   * the chart is neither a pie nor a doughnut.
   */
  function UpdatedChart(c: Chart, u: PanelUpdate): (r: Chart)
    ensures r.kind == c.kind && r.labels == c.labels
    ensures |r.datasets| == |c.datasets|
    ensures |c.datasets| > 0 ==> r.datasets[1..] == c.datasets[1..]
    ensures |c.datasets| > 0 ==> r.datasets[0] == UpdatedDataset(c.datasets[0], u)
    ensures HasYAxis(r)
    ensures BeginAtZero(r) ==
      if u.yAxisBeginAtZero.Some? && !IsProportion(c.kind) then u.yAxisBeginAtZero else BeginAtZero(c)
    ensures YMax(r) == YMax(c)
  {
    var y := YAxisOf(c);
    var y' := if u.yAxisBeginAtZero.Some? && !IsProportion(c.kind) then y.(beginAtZero := u.yAxisBeginAtZero) else y;
    var datasets := if |c.datasets| > 0 then [UpdatedDataset(c.datasets[0], u)] + c.datasets[1..] else c.datasets;
    c.(datasets := datasets, options := Some(ChartOptions(Some(Scales(Some(y'))))))
  }

  /**
   * A widget after `handlePanelApply` has written into it: the title is
   * always replaced; a widget with a chart gets its `UpdatedChart`; nothing
   * else changes, and a widget without a chart keeps everything but its
   * title.
   */
  function UpdatedWidget(w: Widget, u: PanelUpdate): (r: Widget)
    ensures r.id == w.id && r.title == Some(u.title)
    ensures r.content == w.content && r.columnClass == w.columnClass
    ensures r.chart.Some? <==> w.chart.Some?
    ensures w.chart.Some? ==> r.chart.value == UpdatedChart(w.chart.value, u)
  {
    w.(title := Some(u.title), chart := if w.chart.Some? then Some(UpdatedChart(w.chart.value, u)) else None)
  }

  /** Applying the same update twice is applying it once. */
  lemma UpdateIdempotent(w: Widget, u: PanelUpdate)
    ensures UpdatedWidget(UpdatedWidget(w, u), u) == UpdatedWidget(w, u)
  {
    if w.chart.Some? {
      var c := w.chart.value;
      var c1 := UpdatedChart(c, u);
      if |c.datasets| > 0 {
        var d := c.datasets[0];
        LeadingColorReadsBack(d.backgroundColor, u.datasetBgColor.GetOr(""));
        LeadingColorReadsBack(d.borderColor, u.datasetBorderColor.GetOr(""));
        assert UpdatedDataset(UpdatedDataset(d, u), u) == UpdatedDataset(d, u);
      }
      assert UpdatedChart(c1, u) == c1;
    }
  }

  /** The selected slice plays no part: two updates that differ only in
      `selectedColorIndex` have the same effect. */
  lemma SelectedIndexIgnored(w: Widget, u: PanelUpdate, i: Option<nat>)
    ensures UpdatedWidget(w, u.(selectedColorIndex := i)) == UpdatedWidget(w, u)
  {
  }

  /**
   * `currentWidgets` after `handlePanelApply(id, u)`: the first widget with
   * that id is updated and every other widget kept; with no such widget the
   * list is unchanged.
   */
  function Applied(ws: seq<Widget>, id: string, u: PanelUpdate): (r: seq<Widget>)
    ensures |r| == |ws|
    ensures FirstIndexOf(ws, id).None? ==> r == ws
    ensures FirstIndexOf(ws, id).Some? ==>
      var k := FirstIndexOf(ws, id).value;
      r[k] == UpdatedWidget(ws[k], u) && forall j :: 0 <= j < |ws| && j != k ==> r[j] == ws[j]
    ensures forall j :: 0 <= j < |ws| ==> r[j].id == ws[j].id
  {
    match FirstIndexOf(ws, id)
    case None => ws
    case Some(k) => ws[k := UpdatedWidget(ws[k], u)]
  }

  /** Submitting the same edit twice has the effect of submitting it once. */
  lemma AppliedIdempotent(ws: seq<Widget>, id: string, u: PanelUpdate)
    ensures Applied(Applied(ws, id, u), id, u) == Applied(ws, id, u)
  {
    var r := Applied(ws, id, u);
    if FirstIndexOf(ws, id).Some? {
      var k := FirstIndexOf(ws, id).value;
      assert FirstIndexOf(r, id) == Some(k);
      UpdateIdempotent(ws[k], u);
    } else {
      assert FirstIndexOf(r, id).None?;
    }
  }

  /** An update never takes away a field: it keeps a widget covering its
      catalog entry. */
  lemma UpdatedCovers(w: Widget, u: PanelUpdate, base: Widget)
    requires Covers(w, base)
    ensures Covers(UpdatedWidget(w, u), base)
  {
  }

  /** Applying an edit keeps a list settled, so it still reloads as itself. */
  lemma AppliedSettled(catalog: seq<Widget>, ws: seq<Widget>, id: string, u: PanelUpdate)
    requires Settled(catalog, ws)
    ensures Settled(catalog, Applied(ws, id, u))
  {
    var r := Applied(ws, id, u);
    forall w | w in r
      ensures w.id != ""
      ensures FirstIndexOf(catalog, w.id).Some? ==> Covers(w, catalog[FirstIndexOf(catalog, w.id).value])
    {
      var j :| 0 <= j < |r| && r[j] == w;
      assert ws[j] in ws;
      if FirstIndexOf(catalog, w.id).Some? {
        UpdatedCovers(ws[j], u, catalog[FirstIndexOf(catalog, w.id).value]);
      }
    }
    forall e | e in catalog
      ensures HasId(r, e.id)
    {
      assert r[FirstIndexOf(ws, e.id).value].id == e.id;
    }
  }

  // ---------------------------------------------------------------------------
  // Reordering

  /** `s` without its element at `i`: `s.splice(i, 1)`. */
  function Removed<T>(s: seq<T>, i: nat): (r: seq<T>)
    requires i < |s|
    ensures |r| == |s| - 1
  {
    s[..i] + s[i + 1..]
  }

  /**
   * Sortable's `onEnd` on a list: the element at `from` is spliced out and
   * spliced back in at `to`. The list keeps its length and its elements,
   * the moved element ends at `to`, and the others keep their relative order.
   */
  function Moved<T>(s: seq<T>, from: nat, to: nat): (r: seq<T>)
    requires from < |s| && to < |s|
    ensures |r| == |s| && r[to] == s[from]
    ensures multiset(r) == multiset(s)
    ensures Removed(r, to) == Removed(s, from)
  {
    var rest := Removed(s, from);
    assert s == s[..from] + [s[from]] + s[from + 1..];
    var r := rest[..to] + [s[from]] + rest[to..];
    assert rest == rest[..to] + rest[to..];
    assert r[..to] + r[to + 1..] == rest;
    calc {
      multiset(r);
      multiset(rest[..to]) + multiset([s[from]]) + multiset(rest[to..]);
      multiset(rest) + multiset([s[from]]);
      multiset(s[..from]) + multiset(s[from + 1..]) + multiset([s[from]]);
      multiset(s);
    }
    r
  }

  /** Moving back undoes a move. */
  lemma MovedBack<T>(s: seq<T>, from: nat, to: nat)
    requires from < |s| && to < |s|
    ensures Moved(Moved(s, from, to), to, from) == s
  {
    var back := Moved(Moved(s, from, to), to, from);
    RemovedDetermines(back, s, from);
  }

  /** Two lists of one length that agree at `i` and once `i` is removed are
      the same list. */
  lemma RemovedDetermines<T>(a: seq<T>, b: seq<T>, i: nat)
    requires i < |a| && |a| == |b| && a[i] == b[i] && Removed(a, i) == Removed(b, i)
    ensures a == b
  {
    forall j | 0 <= j < |a|
      ensures a[j] == b[j]
    {
      if j < i {
        assert a[j] == Removed(a, i)[j];
        assert b[j] == Removed(b, i)[j];
      } else if j > i {
        assert a[j] == Removed(a, i)[j - 1];
        assert b[j] == Removed(b, i)[j - 1];
      }
    }
  }

  /** A move onto the same place changes nothing. */
  lemma MovedInPlace<T>(s: seq<T>, i: nat)
    requires i < |s|
    ensures Moved(s, i, i) == s
  {
    MovedBack(s, i, i);
  }

  /** `[A, B, C, D]` with the first element dragged to position 2 gives
      `[B, C, A, D]`. */
  lemma MovedExample()
    ensures Moved(['A', 'B', 'C', 'D'], 0, 2) == ['B', 'C', 'A', 'D']
  {
  }

  /** Reordering keeps a list settled. */
  lemma MovedSettled(catalog: seq<Widget>, ws: seq<Widget>, from: nat, to: nat)
    requires from < |ws| && to < |ws|
    requires Settled(catalog, ws)
    ensures Settled(catalog, Moved(ws, from, to))
  {
    var r := Moved(ws, from, to);
    forall w
      ensures w in r <==> w in ws
    {
      assert w in r <==> w in multiset(r);
      assert w in ws <==> w in multiset(ws);
    }
    forall e | e in catalog
      ensures HasId(r, e.id)
    {
      HasIdMember(ws, e.id);
      HasIdMember(r, e.id);
    }
  }

  // ---------------------------------------------------------------------------
  // The dashboard

  /**
   * The page's state: `currentWidgets` and the stored value. Between events
   * the list is settled, so reloading the page shows it again.
   */
  class Dashboard {
    const catalog: seq<Widget>
    var widgets: seq<Widget>
    var storage: StoredState

    /** The list is settled and is what reloading the stored value shows. */
    ghost predicate Valid()
      reads this
    {
      Settled(catalog, widgets) && Loaded(storage, catalog) == widgets
    }

    /** `initializeDashboard`: the list is loaded from storage, and the
        storage key is removed when loading caught an exception. The page
        passes the built-in catalog, which meets the requirements
        (`WidgetCatalog.CatalogIds`). */
    constructor (stored: StoredState, catalog: seq<Widget>)
      requires DistinctIds(catalog)
      requires forall j :: 0 <= j < |catalog| ==> catalog[j].id != ""
      ensures Valid() && this.catalog == catalog
      ensures widgets == Loaded(stored, catalog)
      ensures storage == if KeyRemoved(stored) then NoEntry else stored
    {
      this.catalog := catalog;
      LoadedSettled(stored, catalog);
      LoadFallbacks(stored, catalog);
      var ws, removed := LoadDashboardState(stored, catalog);
      widgets := ws;
      storage := if removed then NoEntry else stored;
    }

    /**
     * `handlePanelApply`: with no widget of that id nothing happens;
     * otherwise the first such widget is updated and the list is saved, so
     * that a reload shows the updated list.
     */
    method ApplyPanelUpdate(id: string, u: PanelUpdate)
      requires Valid()
      modifies this
      ensures Valid()
      ensures widgets == Applied(old(widgets), id, u)
      ensures FirstIndexOf(old(widgets), id).None? ==> storage == old(storage)
      ensures FirstIndexOf(old(widgets), id).Some? ==>
        storage == Saved(widgets) && Loaded(storage, catalog) == widgets
    {
      AppliedSettled(catalog, widgets, id, u);
      var found := FirstIndexOf(widgets, id);
      if found.None? {
        return;
      }
      var k := found.value;
      widgets := widgets[k := UpdatedWidget(widgets[k], u)];
      storage := Saved(widgets);
      SaveThenLoad(catalog, widgets);
    }

    /**
     * Sortable's `onEnd`: with either index undefined nothing happens;
     * otherwise the widget is spliced out at the old index and back in at the
     * new one, and the list is saved.
     */
    method Reorder(oldIndex: Option<nat>, newIndex: Option<nat>)
      requires Valid()
      requires oldIndex.Some? ==> oldIndex.value < |widgets|
      requires newIndex.Some? ==> newIndex.value < |widgets|
      modifies this
      ensures Valid()
      ensures oldIndex.None? || newIndex.None? ==> widgets == old(widgets) && storage == old(storage)
      ensures oldIndex.Some? && newIndex.Some? ==>
        && widgets == Moved(old(widgets), oldIndex.value, newIndex.value)
        && storage == Saved(widgets) && Loaded(storage, catalog) == widgets
    {
      if oldIndex.None? || newIndex.None? {
        return;
      }
      var from, to := oldIndex.value, newIndex.value;
      MovedSettled(catalog, widgets, from, to);
      var moved := widgets[from];
      widgets := widgets[..from] + widgets[from + 1..];
      widgets := widgets[..to] + [moved] + widgets[to..];
      storage := Saved(widgets);
      SaveThenLoad(catalog, widgets);
    }
  }

  /**
   * A submit of the panel's form, as wired by `initializeDashboard`: the
   * panel's `handleSubmit` hands its update to the dashboard's
   * `handlePanelApply`.
   */
  method SubmitPanel(panel: ChartConfigPanel, dashboard: Dashboard)
    requires panel.Valid() && dashboard.Valid()
    modifies panel, dashboard
    ensures panel.Valid() && dashboard.Valid()
    ensures panel.form == old(panel.form)
    ensures old(panel.editing).None? ==>
      && panel.editing.None? && panel.shown == old(panel.shown)
      && dashboard.widgets == old(dashboard.widgets) && dashboard.storage == old(dashboard.storage)
    ensures old(panel.editing).Some? ==>
      var id := old(panel.editing).value.id;
      && panel.editing.None? && !panel.shown
      && dashboard.widgets == Applied(old(dashboard.widgets), id, SubmittedUpdate(old(panel.form)))
      && (FirstIndexOf(old(dashboard.widgets), id).None? ==> dashboard.storage == old(dashboard.storage))
      && (FirstIndexOf(old(dashboard.widgets), id).Some? ==> dashboard.storage == Saved(dashboard.widgets))
  {
    var submission := panel.HandleSubmit();
    if submission.Some? {
      dashboard.ApplyPanelUpdate(submission.value.widgetId, submission.value.update);
    }
  }
}

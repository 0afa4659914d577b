/**
 * The dashboard with its built-in catalog: a first visit, a visit after a
 * saved reorder, editing the sales doughnut, and opening and submitting the
 * server line chart without touching the form.
 */
module Scenarios {
  import opened Wrappers
  import opened JsText
  import opened WidgetModel
  import opened WidgetCatalog
  import opened ChartPanel
  import opened Dashboard

  /** A first visit, an empty saved array, and an array with a `null` in it
      all show the catalog; only the last also removes the storage key. */
  lemma ColdStart()
    ensures Loaded(NoEntry, Catalog()) == Catalog() && !KeyRemoved(NoEntry)
    ensures Loaded(Entries([]), Catalog()) == Catalog() && !KeyRemoved(Entries([]))
    ensures Loaded(Entries([NullItem]), Catalog()) == Catalog() && KeyRemoved(Entries([NullItem]))
  {
    FirstVisit(Catalog());
  }

  lemma FirstVisit(c: seq<Widget>)
    ensures Loaded(NoEntry, c) == c && !KeyRemoved(NoEntry)
    ensures Loaded(Entries([]), c) == c && !KeyRemoved(Entries([]))
    ensures Loaded(Entries([NullItem]), c) == c && KeyRemoved(Entries([NullItem]))
  {
    EmptySavedIsCatalog(c);
    NullItemRemovesKey([NullItem], 0);
  }

  /** Starting the page with the built-in catalog shows the loaded list. */
  method StartPage(stored: StoredState) returns (d: Dashboard)
    ensures d.Valid() && d.catalog == Catalog()
    ensures d.widgets == Loaded(stored, Catalog())
  {
    CatalogIds();
    d := new Dashboard(stored, Catalog());
  }

  /** A saved list holding only the server and sales widgets, in that order,
      shows them first and then the other three catalog widgets. */
  lemma SavedReorderReloads()
    ensures Loaded(Saved([Server(), Sales()]), Catalog()) == [Server(), Sales(), Analytics(), Activity(), Tasks()]
  {
    CatalogIds();
    LastAndSecondLoaded(Catalog());
  }

  /** Loading a stored list of a five-entry catalog's last and second
      entries. */
  lemma LastAndSecondLoaded(c: seq<Widget>)
    requires |c| == 5 && DistinctIds(c)
    requires forall i :: 0 <= i < |c| ==> c[i].id != ""
    ensures Loaded(Saved([c[4], c[1]]), c) == [c[4], c[1], c[0], c[2], c[3]]
  {
    var saved := [c[4], c[1]];
    SavedRoundTrip(saved);
    assert ShapeCheck(Saved(saved).items) == AllIdentified;
    LastAndSecondSaved(c);
    assert Loaded(Saved(saved), c) == Reconciled(c, saved);
  }

  /** In a five-entry catalog, saving the last and the second entry gives
      those two and then the other three in catalog order. */
  lemma LastAndSecondSaved(c: seq<Widget>)
    requires |c| == 5 && DistinctIds(c)
    ensures Reconciled(c, [c[4], c[1]]) == [c[4], c[1], c[0], c[2], c[3]]
  {
    LastAndSecondMerged(c);
    LastAndSecondMissing(c);
    assert Reconciled(c, [c[4], c[1]]) == MergedSaved(c, [c[4], c[1]]) + Missing(c, [c[4], c[1]]);
  }

  lemma LastAndSecondMerged(c: seq<Widget>)
    requires |c| == 5 && DistinctIds(c)
    ensures MergedSaved(c, [c[4], c[1]]) == [c[4], c[1]]
  {
    assert FirstIndexOf(c, c[4].id) == Some(4);
    assert FirstIndexOf(c, c[1].id) == Some(1);
    MergeShallow(c[4], c[4]);
    MergeShallow(c[1], c[1]);
  }

  lemma LastAndSecondMissing(c: seq<Widget>)
    requires |c| == 5 && DistinctIds(c)
    ensures Missing(c, [c[4], c[1]]) == [c[0], c[2], c[3]]
  {
    var saved := [c[4], c[1]];
    HasIdPair(c[4], c[1], c[0].id);
    HasIdPair(c[4], c[1], c[1].id);
    HasIdPair(c[4], c[1], c[2].id);
    HasIdPair(c[4], c[1], c[3].id);
    HasIdPair(c[4], c[1], c[4].id);
    assert c[..1][..0] == [];
    assert Missing(c[..1], saved) == [c[0]];
    assert c[..2][..1] == c[..1];
    assert Missing(c[..2], saved) == [c[0]];
    assert c[..3][..2] == c[..2];
    assert Missing(c[..3], saved) == [c[0], c[2]];
    assert c[..4][..3] == c[..3];
    assert Missing(c[..4], saved) == [c[0], c[2], c[3]];
    assert c[..4] == c[..|c| - 1];
  }

  lemma HasIdPair(a: Widget, b: Widget, id: string)
    ensures HasId([a, b], id) <==> id == a.id || id == b.id
  {
    assert [a, b][1..] == [b];
    assert [b][1..] == [];
    assert FirstIndexOf([b], id).Some? <==> id == b.id;
  }

  /** Renaming the doughnut and picking a new first colour: the first slice
      colour is replaced and the other three kept, and the doughnut gains an
      empty `scales.y` that the unchecked box does not write into. */
  lemma EditSales()
    ensures var u := PanelUpdate("My Sales", Some("Sales ($)"), Some("#ff6384"), Some("#ff6384"), Some(0), Some(false));
      var w := UpdatedWidget(Sales(), u);
      && w.title == Some("My Sales")
      && w.chart.value.datasets[0].backgroundColor ==
           PerElement(["#ff6384", "rgba(54, 162, 235, 0.6)", "rgba(255, 206, 86, 0.6)", "rgba(75, 192, 192, 0.6)"])
      && w.chart.value.options == Some(ChartOptions(Some(Scales(Some(YAxis(None, None))))))
  {
  }

  /**
   * Opening the server line chart and submitting the form untouched: its
   * border colour `rgb(255, 159, 64)` is not understood by the colour
   * conversion, so the picker shows black and black is submitted; the
   * background colour is submitted as its hex form.
   */
  method ServerPlainSubmit() returns (submission: Option<Submission>)
    ensures submission.Some? && submission.value.widgetId == "widget-server"
    ensures submission.value.update.datasetBorderColor == Some(Black)
    ensures submission.value.update.datasetBgColor == Some("#" + Hex2(255) + Hex2(159) + Hex2(64))
    ensures submission.value.update.selectedColorIndex.None?
    ensures submission.value.update.yAxisBeginAtZero == Some(true)
  {
    RgbIsBlack();
    ServerBackground();
    submission := PlainSubmit(Server());
  }

  /** Opening a chart without a slice selector and submitting the form
      untouched sends both dataset colours in hex, no index, and the
      chart's own `beginAtZero` (false when unset). */
  method PlainSubmit(w: Widget) returns (submission: Option<Submission>)
    requires w.chart.Some? && !IsSliceKind(w.chart.value.kind) && |w.chart.value.datasets| > 0
    requires w.chart.value.datasets[0].backgroundColor.Scalar? && w.chart.value.datasets[0].borderColor.Scalar?
    ensures submission.Some? && submission.value.widgetId == w.id
    ensures submission.value.update.datasetBgColor ==
      Some(RgbaToHex(w.chart.value.datasets[0].backgroundColor.color))
    ensures submission.value.update.datasetBorderColor ==
      Some(RgbaToHex(w.chart.value.datasets[0].borderColor.color))
    ensures submission.value.update.selectedColorIndex.None?
    ensures submission.value.update.yAxisBeginAtZero ==
      Some(BeginAtZero(w.chart.value).GetOr(false) && !IsProportion(w.chart.value.kind))
  {
    var panel := new ChartConfigPanel();
    panel.Open(w);
    submission := panel.HandleSubmit();
  }

  /**
   * A bar, pie or doughnut chart whose first dataset has one colour for
   * every slice: picking a later slice shows black in both pickers, because
   * only slice 0 reads a single colour, and submitting the form untouched
   * then writes black over the whole dataset, whichever slice was picked.
   */
  method LaterSliceSubmit(w: Widget, i: nat) returns (submission: Option<Submission>, updated: Widget)
    requires w.chart.Some? && IsSliceKind(w.chart.value.kind) && |w.chart.value.datasets| > 0
    requires w.chart.value.datasets[0].backgroundColor.Scalar? && w.chart.value.datasets[0].borderColor.Scalar?
    requires 0 < i < |w.chart.value.datasets[0].data|
    ensures submission.Some? && submission.value.widgetId == w.id
    ensures submission.value.update.selectedColorIndex == Some(i)
    ensures submission.value.update.datasetBgColor == Some(Black)
    ensures submission.value.update.datasetBorderColor == Some(Black)
    ensures updated == UpdatedWidget(w, submission.value.update)
    ensures updated.chart.value.datasets[0].backgroundColor == Scalar(Black)
    ensures updated.chart.value.datasets[0].borderColor == Scalar(Black)
  {
    var c := w.chart.value;
    var d := c.datasets[0];
    var panel := new ChartConfigPanel();
    panel.Open(w);
    panel.HandleSliceSelectionChange(i);
    ScalarLaterSliceIsBlack(d.backgroundColor.color, i);
    ScalarLaterSliceIsBlack(d.borderColor.color, i);
    submission := panel.HandleSubmit();
    updated := UpdatedWidget(w, submission.value.update);
  }

  /** On the visits bar chart, picking the third bar and submitting turns
      all six bars black. */
  method VisitsThirdBar() returns (updated: Widget)
    ensures updated.chart.Some? && |updated.chart.value.datasets| == 1
    ensures updated.chart.value.datasets[0].data == Analytics().chart.value.datasets[0].data
    ensures updated.chart.value.datasets[0].backgroundColor == Scalar(Black)
    ensures updated.chart.value.datasets[0].borderColor == Scalar(Black)
  {
    var submission;
    submission, updated := LaterSliceSubmit(Analytics(), 2);
  }

  /** Picking the doughnut's second slice, "Books": the background picker
      shows that slice's own colour `rgba(54, 162, 235, 0.6)` in hex. */
  lemma SalesSecondSlice()
    ensures ColorFieldsFor(Sales().chart.value, Some(1), true).bg == "#" + Hex2(54) + Hex2(162) + Hex2(235)
    ensures ColorFieldsFor(Sales().chart.value, Some(1), true).bgHelp == "Background for: " + "Books"
  {
    var c := Sales().chart.value;
    RgbaTextBooks();
    assert c.datasets[0].backgroundColor.colors[1] == RgbaText(54, 162, 235, "0.6");
    SecondSliceShows(c, 54, 162, 235, "0.6", "Books");
  }

  /** Slice 1 of a chart whose second background colour is `rgba(r, g, b, alpha)`
      and whose second label is `name`. */
  lemma SecondSliceShows(c: Chart, r: nat, g: nat, b: nat, alpha: string, name: string)
    requires |c.datasets| > 0 && 1 < |c.datasets[0].data|
    requires c.datasets[0].backgroundColor.PerElement? && 1 < |c.datasets[0].backgroundColor.colors|
    requires c.datasets[0].backgroundColor.colors[1] == RgbaText(r, g, b, alpha)
    requires r < 256 && g < 256 && b < 256
    requires 1 < |c.labels| && c.labels[1] == name && name != ""
    ensures ColorFieldsFor(c, Some(1), true).bg == "#" + Hex2(r) + Hex2(g) + Hex2(b)
    ensures ColorFieldsFor(c, Some(1), true).bgHelp == "Background for: " + name
  {
    SliceShowsElement(c, 1);
    RgbaToHexChannels(r, g, b, alpha);
  }

  lemma RgbaTextBooks()
    ensures RgbaText(54, 162, 235, "0.6") == "rgba(54, 162, 235, 0.6)"
  {
    Decimal54();
    Decimal162();
    Decimal235();
  }

  lemma Decimal54() ensures DecimalString(54) == "54" { DecimalTwoDigits(54); }
  lemma Decimal162() ensures DecimalString(162) == "162" { DecimalThreeDigits(162); }
  lemma Decimal235() ensures DecimalString(235) == "235" { DecimalThreeDigits(235); }

  /** The submitted black border replaces the server chart's border colour. */
  lemma ServerBorderBecomesBlack(u: PanelUpdate)
    requires u.datasetBorderColor == Some(Black)
    ensures UpdatedWidget(Server(), u).chart.value.datasets[0].borderColor == Scalar(Black)
  {
  }

  /** The server chart's background shows as its three channels in hex. */
  lemma ServerBackground()
    ensures RgbaToHex("rgba(255, 159, 64, 0.2)") == "#" + Hex2(255) + Hex2(159) + Hex2(64)
  {
    RgbaTextServer();
    RgbaToHexChannels(255, 159, 64, "0.2");
  }

  lemma RgbaTextServer()
    ensures RgbaText(255, 159, 64, "0.2") == "rgba(255, 159, 64, 0.2)"
  {
    Decimal255();
    Decimal159();
    Decimal64();
  }

  lemma Decimal159() ensures DecimalString(159) == "159" { DecimalThreeDigits(159); }
  lemma Decimal64() ensures DecimalString(64) == "64" { DecimalTwoDigits(64); }
}

/**
 * The dashboard's widget record (`DashboardWidgetConfig`) and the part of a
 * Chart.js `ChartConfiguration` that the dashboard reads or writes: the chart
 * type, the category labels, the datasets' label, data and two colours, and
 * `options.scales.y`.
 *
 * Every field of a widget except `id` is optional, because a widget read back
 * from storage is whatever JSON was saved and may lack any of them; an `id`
 * that is missing or not truthy is the empty string.
 */
module WidgetModel {
  import opened Wrappers

  /** A dataset colour: `undefined`, one CSS colour for the whole dataset, or
      one colour per data point. */
  datatype Color = Absent | Scalar(color: string) | PerElement(colors: seq<string>)

  datatype Dataset = Dataset(
    seriesLabel: Option<string>,
    data: seq<int>,
    backgroundColor: Color,
    borderColor: Color)

  /** `options.scales.y` */
  datatype YAxis = YAxis(beginAtZero: Option<bool>, max: Option<int>)

  /** `options.scales` */
  datatype Scales = Scales(y: Option<YAxis>)

  /** `options` */
  datatype ChartOptions = ChartOptions(scales: Option<Scales>)

  datatype Chart = Chart(
    kind: string,
    labels: seq<string>,
    datasets: seq<Dataset>,
    options: Option<ChartOptions>)

  datatype Widget = Widget(
    id: string,
    title: Option<string>,
    content: Option<string>,
    columnClass: Option<string>,
    chart: Option<Chart>)

  /** The chart types the dashboard treats as proportion charts: they have no
      y axis to configure. */
  predicate IsProportion(kind: string) {
    kind == "pie" || kind == "doughnut"
  }

  /** `options.scales.y.beginAtZero`, when the chart has one. */
  function BeginAtZero(c: Chart): Option<bool> {
    if c.options.Some? && c.options.value.scales.Some? && c.options.value.scales.value.y.Some?
    then c.options.value.scales.value.y.value.beginAtZero
    else None
  }

  /** Whether `options.scales.y` exists. */
  predicate HasYAxis(c: Chart) {
    c.options.Some? && c.options.value.scales.Some? && c.options.value.scales.value.y.Some?
  }

  /** The first position in `ws` of a widget with the given id, as
      `Array.prototype.find` and `findIndex` locate it. */
  function FirstIndexOf(ws: seq<Widget>, id: string): (r: Option<nat>)
    ensures r.Some? ==> r.value < |ws| && ws[r.value].id == id
    ensures r.Some? ==> forall j :: 0 <= j < r.value ==> ws[j].id != id
    ensures r.None? <==> forall j :: 0 <= j < |ws| ==> ws[j].id != id
  {
    if ws == [] then None
    else if ws[0].id == id then Some(0)
    else match FirstIndexOf(ws[1..], id)
      case None => None
      case Some(k) => Some(k + 1)
  }

  /** Some widget in `ws` carries `id`. */
  predicate HasId(ws: seq<Widget>, id: string) {
    FirstIndexOf(ws, id).Some?
  }

  /** No two widgets of `ws` share an id. */
  predicate DistinctIds(ws: seq<Widget>) {
    forall i, j :: 0 <= i < j < |ws| ==> ws[i].id != ws[j].id
  }

  lemma HasIdOfMember(ws: seq<Widget>, w: Widget)
    requires w in ws
    ensures HasId(ws, w.id)
  {
    var i :| 0 <= i < |ws| && ws[i] == w;
  }
}

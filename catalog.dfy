/**
 * The built-in widget catalog `dashboardWidgetsConfig`: the dashboard shown on
 * a first visit, and the defaults that saved widgets are merged onto.
 * Numeric chart payloads other than the data values (border widths, line
 * tension, fill, the other options) are not part of this model.
 */
module WidgetCatalog {
  import opened Wrappers
  import opened WidgetModel

  function Analytics(): Widget {
    Widget(
      "widget-analytics", Some("Website Visits"), Some("Monthly visits to the website."),
      Some("col-md-6 col-lg-4"),
      Some(Chart(
        "bar",
        ["Jan", "Feb", "Mar", "Apr", "May", "Jun"],
        [Dataset(Some("# of Visits"), [1200, 1900, 3000, 5000, 2300, 3200],
                 Scalar("rgba(54, 162, 235, 0.6)"), Scalar("rgba(54, 162, 235, 1)"))],
        Some(ChartOptions(Some(Scales(Some(YAxis(Some(true), None)))))))))
  }

  function Sales(): Widget {
    Widget(
      "widget-sales", Some("Sales Distribution"), Some("Sales by product category."),
      Some("col-md-6 col-lg-4"),
      Some(Chart(
        "doughnut",
        ["Electronics", "Books", "Clothing", "Home Goods"],
        [Dataset(Some("Sales ($)"), [300, 150, 200, 180],
                 PerElement(["rgba(255, 99, 132, 0.6)", "rgba(54, 162, 235, 0.6)",
                             "rgba(255, 206, 86, 0.6)", "rgba(75, 192, 192, 0.6)"]),
                 PerElement(["rgba(255, 99, 132, 1)", "rgba(54, 162, 235, 1)",
                             "rgba(255, 206, 86, 1)", "rgba(75, 192, 192, 1)"]))],
        Some(ChartOptions(None)))))
  }

  function Activity(): Widget {
    Widget(
      "widget-activity", Some("User Activity"),
      Some("Feed of latest user actions. This widget does not have a chart."),
      Some("col-md-12 col-lg-4"), None)
  }

  function Tasks(): Widget {
    Widget("widget-tasks", Some("Open Tasks"), Some("You have 5 open tasks."),
           Some("col-md-6 col-lg-3"), None)
  }

  function Server(): Widget {
    Widget(
      "widget-server", Some("Server Status (Line)"), Some("CPU Utilization over time."),
      Some("col-md-6 col-lg-9"),
      Some(Chart(
        "line",
        ["12:00", "12:05", "12:10", "12:15", "12:20", "12:25", "12:30"],
        [Dataset(Some("CPU %"), [15, 20, 18, 25, 22, 30, 28],
                 Scalar("rgba(255, 159, 64, 0.2)"), Scalar("rgb(255, 159, 64)"))],
        Some(ChartOptions(Some(Scales(Some(YAxis(Some(true), Some(100))))))))))
  }

  /** `dashboardWidgetsConfig`, in display order. */
  function Catalog(): seq<Widget> {
    [Analytics(), Sales(), Activity(), Tasks(), Server()]
  }

  /** The catalog's ids are the five widget names, pairwise distinct and
      non-empty (so every catalog entry passes the saved-state shape check). */
  lemma CatalogIds()
    ensures |Catalog()| == 5
    ensures Catalog()[0].id == "widget-analytics" && Catalog()[1].id == "widget-sales"
    ensures Catalog()[2].id == "widget-activity" && Catalog()[3].id == "widget-tasks"
    ensures Catalog()[4].id == "widget-server"
    ensures DistinctIds(Catalog())
    ensures forall i :: 0 <= i < |Catalog()| ==> Catalog()[i].id != ""
  {
  }

  /** Every catalog entry carries a title, content and column class. */
  lemma CatalogComplete()
    ensures forall i :: 0 <= i < |Catalog()| ==>
      Catalog()[i].title.Some? && Catalog()[i].content.Some? && Catalog()[i].columnClass.Some?
  {
  }

  /** `widget-activity` and `widget-tasks` have no chart; the other three do. */
  lemma CatalogCharts()
    ensures Catalog()[2].chart.None? && Catalog()[3].chart.None?
    ensures Catalog()[0].chart.Some? && Catalog()[1].chart.Some? && Catalog()[4].chart.Some?
  {
  }

  /** The doughnut has one colour per slice for both colours, four of each,
      matching its four labels and four data points, and no `scales` block. */
  lemma SalesShape()
    ensures Sales().chart.Some? && Sales().chart.value.kind == "doughnut"
    ensures var c := Sales().chart.value;
      && |c.datasets| == 1 && |c.labels| == 4 && |c.datasets[0].data| == 4
      && c.datasets[0].backgroundColor.PerElement? && |c.datasets[0].backgroundColor.colors| == 4
      && c.datasets[0].borderColor.PerElement? && |c.datasets[0].borderColor.colors| == 4
      && c.options == Some(ChartOptions(None)) && !HasYAxis(c)
  {
  }

  /** The bar and line charts use one colour per dataset and start their y
      axis at zero; the line chart also caps it at 100. */
  lemma AxisCharts()
    ensures var a := Analytics().chart.value;
      && a.kind == "bar" && a.datasets[0].backgroundColor.Scalar? && a.datasets[0].borderColor.Scalar?
      && BeginAtZero(a) == Some(true) && a.options.value.scales.value.y.value.max == None
    ensures var s := Server().chart.value;
      && s.kind == "line" && s.datasets[0].backgroundColor.Scalar? && s.datasets[0].borderColor.Scalar?
      && BeginAtZero(s) == Some(true) && s.options.value.scales.value.y.value.max == Some(100)
  {
  }

  /** In every chart of the catalog the first dataset has one value per label. */
  lemma DataMatchesLabels()
    ensures forall i :: 0 <= i < |Catalog()| && Catalog()[i].chart.Some? ==>
      var c := Catalog()[i].chart.value;
      |c.datasets| >= 1 && |c.datasets[0].data| == |c.labels|
  {
  }
}

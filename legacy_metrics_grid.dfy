/**
 * The older metric grid (src/components/admin/dashboard/MetricsGrid.jsx):
 * six default cards, four of which take their parts from props.
 */
module LegacyMetricsGrid {
  import opened Js
  import opened MetricsGrid

  /** The six default cards, in display order; every one draws a sparkline and none is clickable. */
  const Defaults: seq<Metric> := [
    Metric("Total Conversations", "0", "", "+0%", true, true, false),
    Metric("Active Users", "0", "", "+0%", true, true, false),
    Metric("Cost per Conversation", "$0.00", "", "↓0%", false, true, false),
    Metric("Delivery Success", "98.7%", "", "+0.8%", true, true, false),
    Metric("AI Resolution Rate", "72.4%", "", "+6.3%", true, true, false),
    Metric("Avg Response Time", "1.2s", "", "-33.3%", true, true, false)]

  /** Value, comparison (when `withComparison`), trend and trend direction from the prop, else the default's. */
  function Override(m: Metric, input: Option<MetricInput>, withComparison: bool): (r: Metric)
    ensures r.title == m.title && r.sparkline == m.sparkline && r.clickable == m.clickable
    ensures r.value == Text(Part(input).value, m.value) && r.trend == Text(Part(input).trend, m.trend)
    ensures r.comparison == if withComparison then Text(Part(input).comparison, m.comparison) else m.comparison
    ensures r.trendUp == Flag(Part(input).trendUp, m.trendUp)
  {
    var p := Part(input);
    m.(value := Text(p.value, m.value),
       comparison := if withComparison then Text(p.comparison, m.comparison) else m.comparison,
       trend := Text(p.trend, m.trend),
       trendUp := Flag(p.trendUp, m.trendUp))
  }

  /** The `switch` on a card's label. */
  function Merge(m: Metric, totalConversations: Option<MetricInput>, activeUsers: Option<MetricInput>,
                 costPerConversation: Option<MetricInput>, avgResponseTime: Option<MetricInput>): Metric
  {
    match m.title
    case "Total Conversations" => Override(m, totalConversations, true)
    case "Active Users" => Override(m, activeUsers, true)
    case "Cost per Conversation" => Override(m, costPerConversation, false)
    case "Avg Response Time" => Override(m, avgResponseTime, false)
    case _ => m
  }

  /** `defaultMetrics.map(...)`. */
  function Metrics(totalConversations: Option<MetricInput>, activeUsers: Option<MetricInput>,
                   costPerConversation: Option<MetricInput>, avgResponseTime: Option<MetricInput>): (r: seq<Metric>)
    ensures |r| == 6
    ensures forall i :: 0 <= i < 6 ==> r[i].title == Defaults[i].title
    ensures r[3] == Defaults[3] && r[4] == Defaults[4]
    ensures r[0] == Override(Defaults[0], totalConversations, true) && r[1] == Override(Defaults[1], activeUsers, true)
    ensures r[2] == Override(Defaults[2], costPerConversation, false) && r[5] == Override(Defaults[5], avgResponseTime, false)
  {
    seq(6, i requires 0 <= i < 6 => Merge(Defaults[i], totalConversations, activeUsers, costPerConversation, avgResponseTime))
  }

  /** The cost card keeps its default comparison whatever the prop says. */
  lemma CostComparisonIgnored(cost: MetricInput)
    ensures Metrics(None, None, Some(cost), None)[2].comparison == ""
  {
  }

  /** With no data the grid is the default list. */
  lemma NoDataIsDefaults()
    ensures Metrics(None, None, None, None) == Defaults
  {
    var r := Metrics(None, None, None, None);
    assert forall i :: 0 <= i < 6 ==> r[i] == Defaults[i];
  }
}

/**
 * The dashboard's metric cards (src/modules/admin/dashboard/MetricsGrid.jsx):
 * four cards in a fixed order, each part taken from its prop or a fallback.
 */
module MetricsGrid {
  import opened Js

  /**
   * A metric prop: each part is `None` when absent (undefined or null).
   * A prop that is itself absent reads as all parts absent (`?.`).
   */
  datatype MetricInput = MetricInput(value: Option<string>, comparison: Option<string>, trend: Option<string>, trendUp: Option<bool>)

  /** A card as rendered; `sparkline` says whether it draws one. */
  datatype Metric = Metric(title: string, value: string, comparison: string, trend: string, trendUp: bool,
                           sparkline: bool, clickable: bool)

  /** `prop?.part`. */
  function Part(m: Option<MetricInput>): (p: MetricInput)
    ensures m.None? ==> p == MetricInput(None, None, None, None)
    ensures m.Some? ==> p == m.value
  {
    if m.Some? then m.value else MetricInput(None, None, None, None)
  }

  /** `part || fallback`: an absent part and the empty string both fall back. */
  function Text(part: Option<string>, fallback: string): (t: string)
    ensures part.Some? && part.value != "" ==> t == part.value
    ensures part.None? || part.value == "" ==> t == fallback
  {
    if part.Some? && part.value != "" then part.value else fallback
  }

  /** `part ?? fallback`: only an absent part falls back, so an explicit `false` is kept. */
  function Flag(part: Option<bool>, fallback: bool): (b: bool)
    ensures part.Some? ==> b == part.value
    ensures part.None? ==> b == fallback
  {
    if part.Some? then part.value else fallback
  }

  const Labels: seq<string> := ["Total Contacts", "Avg Cost per Conversation", "Human-Handled Conversations", "Avg Conversation Time"]

  /** The four cards. */
  function Cards(activeUsers: Option<MetricInput>, costPerConversation: Option<MetricInput>,
                 humanHandled: Option<MetricInput>, avgResponseTime: Option<MetricInput>): (r: seq<Metric>)
    ensures |r| == 4 && forall i :: 0 <= i < 4 ==> r[i].title == Labels[i]
    ensures r[0].value == Text(Part(activeUsers).value, "0") && r[1].value == Text(Part(costPerConversation).value, "₹0.00")
    ensures r[2].value == Text(Part(humanHandled).value, "0") && r[3].value == Text(Part(avgResponseTime).value, "0s")
    ensures r[0].trendUp == Flag(Part(activeUsers).trendUp, true) && r[1].trendUp == Flag(Part(costPerConversation).trendUp, false)
    ensures r[2].trendUp == Flag(Part(humanHandled).trendUp, true) && r[3].trendUp == Flag(Part(avgResponseTime).trendUp, true)
    ensures forall i :: 0 <= i < 4 ==> (r[i].sparkline <==> i == 0 && Part(activeUsers).value.Some? && Part(activeUsers).value.value != "")
    ensures forall i :: 0 <= i < 4 ==> (r[i].clickable <==> i == 0)
    ensures r[0].comparison == Text(Part(activeUsers).comparison, "") && forall i :: 1 <= i < 4 ==> r[i].comparison == ""
    ensures r[0].trend == Text(Part(activeUsers).trend, "+0%") && r[1].trend == Text(Part(costPerConversation).trend, "+0%")
    ensures r[2].trend == Text(Part(humanHandled).trend, "+0%") && r[3].trend == Text(Part(avgResponseTime).trend, "+0%")
  {
    var au, cost, human, avg := Part(activeUsers), Part(costPerConversation), Part(humanHandled), Part(avgResponseTime);
    [Metric(Labels[0], Text(au.value, "0"), Text(au.comparison, ""), Text(au.trend, "+0%"), Flag(au.trendUp, true),
            au.value.Some? && au.value.value != "", true),
     Metric(Labels[1], Text(cost.value, "₹0.00"), "", Text(cost.trend, "+0%"), Flag(cost.trendUp, false), false, false),
     Metric(Labels[2], Text(human.value, "0"), "", Text(human.trend, "+0%"), Flag(human.trendUp, true), false, false),
     Metric(Labels[3], Text(avg.value, "0s"), "", Text(avg.trend, "+0%"), Flag(avg.trendUp, true), false, false)]
  }

  /** With no data at all every card shows its fallback. */
  lemma NoDataFallbacks()
    ensures var r := Cards(None, None, None, None);
            r[0].value == "0" && r[1].value == "₹0.00" && r[2].value == "0" && r[3].value == "0s" &&
            r[0].trendUp && !r[1].trendUp && r[2].trendUp && r[3].trendUp && !r[0].sparkline
  {
  }

  /** An explicit `false` trend overrides a `true` default, while an empty value string still falls back. */
  lemma FalseTrendKeptEmptyValueReplaced()
    ensures var r := Cards(Some(MetricInput(Some(""), None, None, Some(false))), None, None, None);
            r[0].value == "0" && !r[0].trendUp && !r[0].sparkline
  {
  }
}

/**
 * The dashboard data hook (src/hooks/useDashboardData.js): sessions per
 * weekday for this week and last week, sessions per two-hour slot, the
 * in/out reply pairs behind the average response time, the active-user
 * count and the four most recent conversations.
 */
module DashboardData {
  import opened Js
  import opened ChatSession
  import Sorting

  /** `getDay()`: 0 is Sunday. */
  type Weekday = d: int | 0 <= d < 7

  /** `getHours()`. */
  type Hour = h: int | 0 <= h < 24

  /** A date that parsed: its instant (ms) and its local weekday and hour. */
  datatype When = When(instant: int, weekday: Weekday, hour: Hour)

  /** One entry of a session's conversation: its direction and parsed timestamp (`None` for an invalid date). */
  datatype Turn = Turn(direction: Option<string>, at: Option<int>)

  /**
   * A session as the dashboard reads it. `created` is `None` when
   * `created_at` does not parse; `messageCount` is 0 when absent;
   * `messages` holds the `content` of each entry of `session.messages`.
   */
  datatype DashSession = DashSession(
    created: Option<When>, age: Elapsed, messageCount: int, conversation: seq<Turn>,
    userName: Option<string>, name: Option<string>, status: Option<string>,
    lastMessage: Option<string>, messages: seq<Option<string>>)

  /** `session.message_count || 1`. */
  function Weight(s: DashSession): (w: int)
    ensures w != 0
    ensures s.messageCount != 0 ==> w == s.messageCount
  {
    if s.messageCount != 0 then s.messageCount else 1
  }

  // ---------------------------------------------------------------------
  // groupSessionsByDay

  const DayNames: seq<string> := ["Sun", "Mon", "Tue", "Wed", "Thu", "Fri", "Sat"]

  /** The chart lists Monday first: chart row `k` is weekday `(k + 1) % 7`. */
  function ChartDay(k: int): (d: Weekday)
    requires 0 <= k < 7
  {
    (k + 1) % 7
  }

  /** Which week a session counts for: `Some(true)` this week, `Some(false)` last week, `None` neither. */
  function WeekOf(s: DashSession, startThisWeek: int, startLastWeek: int): (w: Option<bool>)
    ensures w == Some(true) <==> s.created.Some? && s.created.value.instant >= startThisWeek
    ensures w == Some(false) <==> s.created.Some? && startLastWeek <= s.created.value.instant < startThisWeek
  {
    if s.created.None? then None
    else if s.created.value.instant >= startThisWeek then Some(true)
    else if s.created.value.instant >= startLastWeek then Some(false)
    else None
  }

  /** What the sessions add to weekday `d` of this week (`thisWeek`) or last week. */
  function DaySum(ss: seq<DashSession>, d: Weekday, thisWeek: bool, startThisWeek: int, startLastWeek: int): int
  {
    if ss == [] then 0
    else
      var s := ss[|ss| - 1];
      DaySum(ss[..|ss| - 1], d, thisWeek, startThisWeek, startLastWeek) +
      (if WeekOf(s, startThisWeek, startLastWeek) == Some(thisWeek) && s.created.value.weekday == d then Weight(s) else 0)
  }

  /** The total weight of the sessions that fall in either week. */
  function CountedWeight(ss: seq<DashSession>, startThisWeek: int, startLastWeek: int): int
  {
    if ss == [] then 0
    else
      var s := ss[|ss| - 1];
      CountedWeight(ss[..|ss| - 1], startThisWeek, startLastWeek) +
      (if WeekOf(s, startThisWeek, startLastWeek).Some? then Weight(s) else 0)
  }

  /** The fourteen weekday cells of one week pair. */
  function AllCells(ss: seq<DashSession>, startThisWeek: int, startLastWeek: int): int
  {
    DaySum(ss, 0, true, startThisWeek, startLastWeek) + DaySum(ss, 1, true, startThisWeek, startLastWeek) +
    DaySum(ss, 2, true, startThisWeek, startLastWeek) + DaySum(ss, 3, true, startThisWeek, startLastWeek) +
    DaySum(ss, 4, true, startThisWeek, startLastWeek) + DaySum(ss, 5, true, startThisWeek, startLastWeek) +
    DaySum(ss, 6, true, startThisWeek, startLastWeek) +
    DaySum(ss, 0, false, startThisWeek, startLastWeek) + DaySum(ss, 1, false, startThisWeek, startLastWeek) +
    DaySum(ss, 2, false, startThisWeek, startLastWeek) + DaySum(ss, 3, false, startThisWeek, startLastWeek) +
    DaySum(ss, 4, false, startThisWeek, startLastWeek) + DaySum(ss, 5, false, startThisWeek, startLastWeek) +
    DaySum(ss, 6, false, startThisWeek, startLastWeek)
  }

  /** Every session of the two weeks lands in exactly one cell: the cells add up to the counted weight. */
  lemma {:induction false} EachSessionCountedOnce(ss: seq<DashSession>, startThisWeek: int, startLastWeek: int)
    ensures AllCells(ss, startThisWeek, startLastWeek) == CountedWeight(ss, startThisWeek, startLastWeek)
  {
    if ss != [] {
      EachSessionCountedOnce(ss[..|ss| - 1], startThisWeek, startLastWeek);
    }
  }

  /** One row of the volume chart. */
  datatype DayCount = DayCount(name: string, thisWeek: int, lastWeek: int)

  /** The rows, Monday to Sunday, that the sessions give. */
  predicate VolumeRows(r: seq<DayCount>, ss: seq<DashSession>, startThisWeek: int, startLastWeek: int)
  {
    |r| == 7 &&
    forall k :: 0 <= k < 7 ==>
      r[k] == DayCount(DayNames[ChartDay(k)],
                       DaySum(ss, ChartDay(k), true, startThisWeek, startLastWeek),
                       DaySum(ss, ChartDay(k), false, startThisWeek, startLastWeek))
  }

  /**
   * `groupSessionsByDay`; the starts of this week and of last week come
   * from the caller's clock and calendar.
   */
  method GroupSessionsByDay(sessions: seq<DashSession>, startThisWeek: int, startLastWeek: int) returns (r: seq<DayCount>)
    ensures VolumeRows(r, sessions, startThisWeek, startLastWeek)
  {
    var thisWeek: seq<int> := [0, 0, 0, 0, 0, 0, 0];
    var lastWeek: seq<int> := [0, 0, 0, 0, 0, 0, 0];
    var i := 0;
    while i < |sessions|
      invariant 0 <= i <= |sessions|
      invariant |thisWeek| == 7 && |lastWeek| == 7
      invariant forall d: Weekday :: thisWeek[d] == DaySum(sessions[..i], d, true, startThisWeek, startLastWeek)
      invariant forall d: Weekday :: lastWeek[d] == DaySum(sessions[..i], d, false, startThisWeek, startLastWeek)
    {
      assert sessions[..i + 1][..i] == sessions[..i];
      var s := sessions[i];
      if s.created.Some? {
        var day := s.created.value.weekday;
        if s.created.value.instant >= startThisWeek {
          thisWeek := thisWeek[day := thisWeek[day] + Weight(s)];
        } else if s.created.value.instant >= startLastWeek {
          lastWeek := lastWeek[day := lastWeek[day] + Weight(s)];
        }
      }
      i := i + 1;
    }
    assert sessions[..|sessions|] == sessions;
    r := [];
    var k := 0;
    while k < 7
      invariant 0 <= k <= 7 && |r| == k
      invariant forall j :: 0 <= j < k ==> r[j] == DayCount(DayNames[ChartDay(j)], thisWeek[ChartDay(j)], lastWeek[ChartDay(j)])
    {
      var d := ChartDay(k);
      r := r + [DayCount(DayNames[d], thisWeek[d], lastWeek[d])];
      k := k + 1;
    }
  }

  /** With no sessions every cell is zero (the early return of the source gives the same rows). */
  lemma NoSessionsAllZero(startThisWeek: int, startLastWeek: int)
    ensures forall d: Weekday, w: bool :: DaySum([], d, w, startThisWeek, startLastWeek) == 0
  {
  }

  // ---------------------------------------------------------------------
  // groupMessagesByHour

  const SlotNames: seq<string> := ["6AM", "8AM", "10AM", "12PM", "2PM", "4PM", "6PM", "8PM", "10PM"]

  /** The two-hour slot of an hour: from 6 AM on, `⌊(h − 6) / 2⌋`; the hours before 6 AM count nowhere. */
  function SlotOf(h: Hour): (slot: Option<nat>)
    ensures h < 6 <==> slot.None?
    ensures slot.Some? ==> slot.value == (h - 6) / 2 && slot.value < 9
  {
    if 6 <= h < 8 then Some(0)
    else if 8 <= h < 10 then Some(1)
    else if 10 <= h < 12 then Some(2)
    else if 12 <= h < 14 then Some(3)
    else if 14 <= h < 16 then Some(4)
    else if 16 <= h < 18 then Some(5)
    else if 18 <= h < 20 then Some(6)
    else if 20 <= h < 22 then Some(7)
    else if h >= 22 then Some(8)
    else None
  }

  /** What the sessions add to slot `k`. */
  function SlotSum(ss: seq<DashSession>, k: nat): int
  {
    if ss == [] then 0
    else
      var s := ss[|ss| - 1];
      SlotSum(ss[..|ss| - 1], k) + (if s.created.Some? && SlotOf(s.created.value.hour) == Some(k) then Weight(s) else 0)
  }

  /** One bar of the hourly chart. */
  datatype HourCount = HourCount(time: string, messages: int)

  /** `groupMessagesByHour`: nine slots in fixed order. */
  method GroupMessagesByHour(sessions: seq<DashSession>) returns (r: seq<HourCount>)
    ensures |r| == 9
    ensures forall k :: 0 <= k < 9 ==> r[k] == HourCount(SlotNames[k], SlotSum(sessions, k))
  {
    var slots: seq<int> := [0, 0, 0, 0, 0, 0, 0, 0, 0];
    var i := 0;
    while i < |sessions|
      invariant 0 <= i <= |sessions| && |slots| == 9
      invariant forall k :: 0 <= k < 9 ==> slots[k] == SlotSum(sessions[..i], k)
    {
      assert sessions[..i + 1][..i] == sessions[..i];
      var s := sessions[i];
      if s.created.Some? {
        var slot := SlotOf(s.created.value.hour);
        if slot.Some? {
          slots := slots[slot.value := slots[slot.value] + Weight(s)];
        }
      }
      i := i + 1;
    }
    assert sessions[..|sessions|] == sessions;
    r := seq(9, k requires 0 <= k < 9 => HourCount(SlotNames[k], slots[k]));
  }

  /** Sessions created before 6 AM add to no slot. */
  lemma {:induction false} EarlyHoursIgnored(ss: seq<DashSession>, s: DashSession, k: nat)
    requires s.created.Some? && s.created.value.hour < 6
    ensures SlotSum(ss + [s], k) == SlotSum(ss, k)
  {
    assert (ss + [s])[..|ss + [s]| - 1] == ss;
  }

  // ---------------------------------------------------------------------
  // calculateAvgResponseTime

  /** An incoming entry answered by the next, outgoing one, between 0 and 5 minutes later (exclusive). */
  predicate ReplyPair(a: Turn, b: Turn)
  {
    a.direction == Some("in") && b.direction == Some("out") && a.at.Some? && b.at.Some? &&
    0 < b.at.value - a.at.value < 300000
  }

  /** The reply delay of a pair that counts, else 0. */
  function Delay(a: Turn, b: Turn): int
  {
    if ReplyPair(a, b) then b.at.value - a.at.value else 0
  }

  /** The counted pairs `(i, i + 1)` with `i < n`: their number and their total delay. */
  function PairsBefore(conv: seq<Turn>, n: nat): (t: (nat, int))
    requires n < |conv| || n == 0
    ensures t.0 <= n
    ensures 0 <= t.1 < 300000 * t.0 || (t.0 == 0 && t.1 == 0)
  {
    if n == 0 then (0, 0)
    else
      var p := PairsBefore(conv, n - 1);
      if ReplyPair(conv[n - 1], conv[n]) then (p.0 + 1, p.1 + Delay(conv[n - 1], conv[n])) else p
  }

  /** The pairs of one conversation. */
  function Pairs(conv: seq<Turn>): (nat, int)
  {
    PairsBefore(conv, if |conv| == 0 then 0 else |conv| - 1)
  }

  /** The pairs of all the sessions. */
  function Totals(ss: seq<DashSession>): (t: (nat, int))
  {
    if ss == [] then (0, 0)
    else
      var p := Totals(ss[..|ss| - 1]);
      var q := Pairs(ss[|ss| - 1].conversation);
      (p.0 + q.0, p.1 + q.1)
  }

  /** No pair means no delay; otherwise the average delay lies strictly between 0 and 5 minutes. */
  lemma {:induction false} AverageWithinWindow(ss: seq<DashSession>)
    ensures Totals(ss).0 == 0 ==> Totals(ss).1 == 0
    ensures Totals(ss).0 > 0 ==> 0 < Totals(ss).1 < 300000 * Totals(ss).0
  {
    if ss != [] {
      AverageWithinWindow(ss[..|ss| - 1]);
      PairsPositive(ss[|ss| - 1].conversation, if |ss[|ss| - 1].conversation| == 0 then 0 else |ss[|ss| - 1].conversation| - 1);
    }
  }

  /** Each counted pair adds a positive delay. */
  lemma {:induction false} PairsPositive(conv: seq<Turn>, n: nat)
    requires n < |conv| || n == 0
    ensures PairsBefore(conv, n).0 > 0 ==> PairsBefore(conv, n).1 > 0
    ensures PairsBefore(conv, n).0 == 0 ==> PairsBefore(conv, n).1 == 0
  {
    if n > 0 {
      PairsPositive(conv, n - 1);
    }
  }

  /** The inner `for` loop over one conversation. */
  method CountPairs(conv: seq<Turn>) returns (count: nat, total: int)
    ensures (count, total) == Pairs(conv)
  {
    count, total := 0, 0;
    var i := 0;
    while i < |conv| - 1
      invariant 0 <= i <= |conv| || (|conv| == 0 && i == 0)
      invariant i <= |conv| - 1 || |conv| == 0
      invariant (count, total) == PairsBefore(conv, i)
    {
      var current, next := conv[i], conv[i + 1];
      if current.direction == Some("in") && next.direction == Some("out") {
        if current.at.Some? && next.at.Some? {
          var diff := next.at.value - current.at.value;
          if diff > 0 && diff < 300000 {
            total := total + diff;
            count := count + 1;
          }
        }
      }
      i := i + 1;
    }
  }

  /** The accumulation over all sessions in `calculateAvgResponseTime`. */
  method ResponseTotals(sessions: seq<DashSession>) returns (count: nat, total: int)
    ensures (count, total) == Totals(sessions)
  {
    count, total := 0, 0;
    var i := 0;
    while i < |sessions|
      invariant 0 <= i <= |sessions|
      invariant (count, total) == Totals(sessions[..i])
    {
      assert sessions[..i + 1][..i] == sessions[..i];
      var c, t := CountPairs(sessions[i].conversation);
      count, total := count + c, total + t;
      i := i + 1;
    }
    assert sessions[..|sessions|] == sessions;
  }

  /** The label when no pair counts (the non-zero average is a decimal, outside the model). */
  function ZeroResponseLabel(count: nat): (v: Option<string>)
    ensures v.Some? <==> count == 0
    ensures count == 0 ==> v == Some("0s")
  {
    if count == 0 then Some("0s") else None
  }

  // ---------------------------------------------------------------------
  // Active users and recent conversations

  /**
   * The conversations response: `total_users` (0 when absent) and, when
   * present, the number of keys of `conversations`.
   */
  datatype ConversationsResponse = ConversationsResponse(totalUsers: int, conversationKeys: Option<nat>)

  /** `total_users || Object.keys(conversations).length || 0`; a failed request gives 0. */
  function ActiveUsers(res: Option<ConversationsResponse>): (n: int)
    ensures res.None? ==> n == 0
    ensures res.Some? && res.value.totalUsers != 0 ==> n == res.value.totalUsers
    ensures res.Some? && res.value.totalUsers == 0 && res.value.conversationKeys.Some? ==> n == res.value.conversationKeys.value
    ensures res.Some? && res.value.totalUsers == 0 && res.value.conversationKeys.None? ==> n == 0
  {
    if res.None? then 0
    else if res.value.totalUsers != 0 then res.value.totalUsers
    else if res.value.conversationKeys.Some? then res.value.conversationKeys.value
    else 0
  }

  /** This hook's `formatTimeAgo`: `hr` for hours, plural days only above one. */
  function FormatTimeAgo(e: Elapsed): (t: string)
    ensures e.NoDate? ==> t == "Unknown"
    ensures e.ElapsedMs? && e.ms < 60000 ==> t == "Just now"
    ensures e.ElapsedMs? && 60000 <= e.ms < 3600000 ==> t == NatToString(e.ms / 60000) + " min ago"
  {
    match e
    case NoDate => "Unknown"
    case InvalidDate => "NaN day ago"
    case ElapsedMs(ms) =>
      var mins := FloorDiv(ms, 60000);
      if mins < 1 then "Just now"
      else if mins < 60 then NatToString(mins) + " min ago"
      else
        var hours := FloorDiv(mins, 60);
        if hours < 24 then NatToString(hours) + " hr ago"
        else
          var days := FloorDiv(hours, 24);
          NatToString(days) + " day" + (if days > 1 then "s" else "") + " ago"
  }

  /** Between one hour and one day the label counts whole hours. */
  lemma HoursLabel(ms: int)
    requires 3600000 <= ms < 86400000
    ensures FormatTimeAgo(ElapsedMs(ms)) == NatToString(ms / 3600000) + " hr ago"
  {
    NestedFloors(ms);
  }

  /** From one day on the label counts whole days, plural only from two days. */
  lemma DaysLabel(ms: int)
    requires ms >= 86400000
    ensures FormatTimeAgo(ElapsedMs(ms)) ==
            NatToString(ms / 86400000) + " day" + (if ms >= 172800000 then "s" else "") + " ago"
  {
    NestedFloors(ms);
  }

  const Colors: seq<string> := ["#10b981", "#f59e0b", "#6366f1", "#ec4899"]

  /** One card of the recent-conversations list. */
  datatype RecentItem = RecentItem(name: string, status: string, message: string, time: string, count: string, color: string)

  /** The sort key: the creation instant. */
  function CreatedKey(s: DashSession): Option<int>
  {
    if s.created.Some? then Some(s.created.value.instant) else None
  }

  function ToRecent(s: DashSession, index: nat): (item: RecentItem)
    ensures item.name != "" && item.status != "" && item.message != ""
    ensures item.color == Colors[index % 4]
  {
    var last := if |s.messages| > 0 then s.messages[|s.messages| - 1] else None;
    RecentItem(
      FirstPresent([s.userName, s.name], "User " + NatToString(index + 1)),
      if Present(s.status) then s.status.value else "active",
      FirstPresent([s.lastMessage, last], "No messages"),
      FormatTimeAgo(s.age),
      IntToString(if s.messageCount != 0 then s.messageCount else |s.messages|) + " messages",
      Colors[index % 4])
  }

  /** The sessions shown as recent: the newest four, newest first. */
  function NewestFour(sessions: seq<DashSession>): (r: seq<DashSession>)
    ensures |r| == if |sessions| < 4 then |sessions| else 4
    ensures Sorting.Sorted(CreatedKey, true, r)
    ensures multiset(r) <= multiset(sessions)
    ensures forall i, j :: 0 <= i < |r| && 4 <= j < |sessions| ==>
              Sorting.KeyLe(CreatedKey(Sorting.SortBy(CreatedKey, true, sessions)[j]), CreatedKey(r[i]))
  {
    var sorted := Sorting.SortBy(CreatedKey, true, sessions);
    var r := if |sorted| < 4 then sorted else sorted[..4];
    assert sorted == r + sorted[|r|..];
    assert multiset(sorted) == multiset(r) + multiset(sorted[|r|..]);
    forall i, j | 0 <= i < |r| && 4 <= j < |sessions|
      ensures Sorting.KeyLe(CreatedKey(sorted[j]), CreatedKey(r[i]))
    {
      Sorting.SortedPairs(CreatedKey, true, sorted, i, j);
    }
    r
  }

  /** `recentConversations`. */
  function RecentConversations(sessions: seq<DashSession>): (items: seq<RecentItem>)
    ensures |items| <= 4 && |items| <= |sessions|
    ensures forall i :: 0 <= i < |items| ==> items[i] == ToRecent(NewestFour(sessions)[i], i)
  {
    var newest := NewestFour(sessions);
    seq(|newest|, i requires 0 <= i < |newest| => ToRecent(newest[i], i))
  }
}

/**
 * The admin and agent conversations page
 * (src/modules/admin/conversations/ConversationsPage.jsx): which sessions
 * are listed, how a session becomes a conversation (title, approval state,
 * flattened messages), the status and agent filters, the counters, a
 * real-time message merged into the list, and the "time ago" label.
 */
module Conversations {
  import opened Js
  import Dict
  import Sorting
  import opened ChatSession

  // ---------------------------------------------------------------------
  // Messages

  /** A rendered message: text, direction, and who sent an outgoing one. */
  datatype ChatMessage = ChatMessage(text: string, direction: Option<string>, isAgent: bool, isBot: bool)

  /** The turn's user prompt repeats the text of the entry just before it. */
  predicate DuplicateUser(prev: Option<Entry>, e: Entry)
  {
    Present(e.user) && prev.Some? &&
    (prev.value.text == e.user || (prev.value.role == Some("user") && prev.value.text == e.user))
  }

  /** The `flatMap` callback for one entry, given the entry before it. */
  function EntryMessages(prev: Option<Entry>, e: Entry): (r: seq<ChatMessage>)
    ensures |r| <= 2
    ensures (Present(e.bot) || Present(e.user)) ==>
              |r| == (if Present(e.user) && !DuplicateUser(prev, e) then 1 else 0) + (if Present(e.bot) then 1 else 0)
    ensures (Present(e.bot) || Present(e.user)) && Present(e.bot) ==>
              r[|r| - 1] == ChatMessage(e.bot.value, Some("out"), e.botSenderType == Some("HUMAN"), e.botSenderType != Some("HUMAN"))
    ensures (Present(e.bot) || Present(e.user)) && Present(e.user) && !DuplicateUser(prev, e) ==>
              r[0] == ChatMessage(e.user.value, Some("in"), false, false)
    ensures !(Present(e.bot) || Present(e.user)) && Present(e.text) && Present(e.direction) ==>
              r == [ChatMessage(e.text.value, e.direction, Truthy(e.agentId), !Truthy(e.agentId) && e.direction == Some("out"))]
    ensures !(Present(e.bot) || Present(e.user)) && !(Present(e.text) && Present(e.direction)) && Present(e.role) && Present(e.text) ==>
              |r| == 1 && r[0].text == e.text.value && r[0].direction == Some(if e.role == Some("user") then "in" else "out") &&
              r[0].isAgent == Truthy(e.agentId) && r[0].isBot == (!Truthy(e.agentId) && e.role != Some("user"))
    ensures !(Present(e.bot) || Present(e.user) || Present(e.text)) ==> r == []
  {
    if Present(e.bot) || Present(e.user) then
      var userTurn := if Present(e.user) && !DuplicateUser(prev, e) then [ChatMessage(e.user.value, Some("in"), false, false)] else [];
      var isHuman := e.botSenderType == Some("HUMAN");
      var botTurn := if Present(e.bot) then [ChatMessage(e.bot.value, Some("out"), isHuman, !isHuman)] else [];
      userTurn + botTurn
    else if Present(e.text) && Present(e.direction) then
      [ChatMessage(e.text.value, e.direction, Truthy(e.agentId), !Truthy(e.agentId) && e.direction == Some("out"))]
    else if Present(e.role) && Present(e.text) then
      [ChatMessage(e.text.value, Some(if e.role == Some("user") then "in" else "out"), Truthy(e.agentId),
                   !Truthy(e.agentId) && e.role != Some("user"))]
    else []
  }

  /** The messages of `entries`, the entry before the first being `prev`. */
  function FlattenAfter(prev: Option<Entry>, entries: seq<Entry>): seq<ChatMessage>
    decreases |entries|
  {
    if entries == [] then [] else EntryMessages(prev, entries[0]) + FlattenAfter(Some(entries[0]), entries[1..])
  }

  /** `session.conversation?.flatMap(...) || []`. */
  function Flatten(entries: seq<Entry>): seq<ChatMessage>
  {
    FlattenAfter(None, entries)
  }

  /** At most two messages per entry. */
  lemma {:induction false} FlattenLength(prev: Option<Entry>, entries: seq<Entry>)
    ensures |FlattenAfter(prev, entries)| <= 2 * |entries|
    decreases |entries|
  {
    if entries != [] {
      FlattenLength(Some(entries[0]), entries[1..]);
    }
  }

  /**
   * A WhatsApp message followed by the turn that repeats it shows the user's
   * text once: the turn contributes only the bot reply.
   */
  lemma RepeatedPromptShownOnce(hi: string, reply: string)
    requires hi != "" && reply != ""
    ensures var m := Entry(None, None, Some(hi), Some("in"), None, None, Undefined);
      var t := Entry(Some(hi), Some(reply), None, None, None, None, Undefined);
      Flatten([m, t]) == [ChatMessage(hi, Some("in"), false, false), ChatMessage(reply, Some("out"), false, true)]
  {
    var m := Entry(None, None, Some(hi), Some("in"), None, None, Undefined);
    var t := Entry(Some(hi), Some(reply), None, None, None, None, Undefined);
    assert [m, t][1..] == [t];
    assert FlattenAfter(Some(t), []) == [];
    assert FlattenAfter(Some(m), [t]) == EntryMessages(Some(m), t) + [];
  }

  // ---------------------------------------------------------------------
  // Sessions to conversations

  /** Where a conversation stands in the approval flow. */
  datatype Approval = Closed | Assigned | Pending | Active

  /** `session.status === 'closed' || session.status === 'resolved' || !!session.closed_at`. */
  predicate IsClosed(s: Session)
  {
    StrictEquals(s.status, Str("closed")) || StrictEquals(s.status, Str("resolved")) || Truthy(s.closedAt)
  }

  /** `session.assigned_agent_id || lead?.assigned_agent_id`. */
  function EffectiveAgent(s: Session, lead: Option<Lead>): (a: Value)
    ensures Truthy(a) <==> Truthy(s.assignedAgentId) || (lead.Some? && Truthy(lead.value.assignedAgentId))
  {
    Or(s.assignedAgentId, if lead.Some? then lead.value.assignedAgentId else Undefined)
  }

  /** `approvalStatus`: closed, else assigned, else pending (lead handed to an agent), else active. */
  function ApprovalOf(s: Session, lead: Option<Lead>): (a: Approval)
    ensures a == Closed <==> IsClosed(s)
    ensures a == Assigned <==> !IsClosed(s) && Truthy(EffectiveAgent(s, lead))
    ensures a == Pending <==> !IsClosed(s) && !Truthy(EffectiveAgent(s, lead)) &&
                              lead.Some? && StrictEquals(lead.value.status, Str("transfer_to_agent"))
  {
    if IsClosed(s) then Closed
    else if Truthy(EffectiveAgent(s, lead)) then Assigned
    else if lead.Some? && StrictEquals(lead.value.status, Str("transfer_to_agent")) then Pending
    else Active
  }

  /** `status`: `resolved` when closed, else the lead's status, else the session's (`active` by default). */
  function StatusOf(s: Session, lead: Option<Lead>): (st: Value)
    ensures IsClosed(s) ==> st == Str("resolved")
    ensures !IsClosed(s) && lead.Some? && Truthy(lead.value.status) ==> st == lead.value.status
  {
    if IsClosed(s) then Str("resolved")
    else Or(if lead.Some? then lead.value.status else Undefined,
            if !StrictEquals(s.status, Str("active")) then s.status else Str("active"))
  }

  /** A conversation as the page keeps it. */
  datatype Conversation = Conversation(
    id: Value, waId: Option<string>, title: string, preview: string, status: Value, approval: Approval,
    isReported: bool, assignedAgentId: Value, messages: seq<ChatMessage>, time: string, unread: bool, unreadCount: nat)

  /** The `filter` on sessions: a WhatsApp number whose digits are a key of the leads map. */
  predicate SessionKept(s: Session, leadsMap: Dict.Dict<Lead>)
  {
    Present(s.whatsapp) && Dict.HasKey(leadsMap, DigitsOf(s.whatsapp.value))
  }

  /** A session is listed exactly when some lead has the same digits-only phone number. */
  lemma SessionKeptIff(s: Session, leads: seq<Lead>)
    ensures SessionKept(s, LeadsMap(leads)) <==>
            Present(s.whatsapp) && exists i :: 0 <= i < |leads| && LeadKey(leads[i]) == Some(DigitsOf(s.whatsapp.value))
  {
    if Present(s.whatsapp) {
      LeadsMapHasKey(leads, DigitsOf(s.whatsapp.value));
    }
  }

  /** `filteredSessions`. */
  function KeptSessions(sessions: seq<Session>, leadsMap: Dict.Dict<Lead>): (r: seq<Session>)
    ensures |r| <= |sessions|
    ensures forall s :: s in r <==> s in sessions && SessionKept(s, leadsMap)
  {
    if sessions == [] then []
    else (if SessionKept(sessions[0], leadsMap) then [sessions[0]] else []) + KeptSessions(sessions[1..], leadsMap)
  }

  /** The filter keeps the order of the sessions it keeps: it distributes over concatenation. */
  lemma {:induction false} KeptSessionsAppend(a: seq<Session>, b: seq<Session>, leadsMap: Dict.Dict<Lead>)
    ensures KeptSessions(a + b, leadsMap) == KeptSessions(a, leadsMap) + KeptSessions(b, leadsMap)
  {
    if a == [] {
      assert a + b == b;
    } else {
      var x, t := a[0], a[1..];
      var h, ft, fb := (if SessionKept(x, leadsMap) then [x] else []), KeptSessions(t, leadsMap), KeptSessions(b, leadsMap);
      calc {
        KeptSessions(a + b, leadsMap);
        { KeptSessionsUnfold(a + b, leadsMap); ConsAppend(a, b); }
        h + KeptSessions(t + b, leadsMap);
        { KeptSessionsAppend(t, b, leadsMap); }
        h + (ft + fb);
        { AppendAssoc(h, ft, fb); }
        (h + ft) + fb;
        { KeptSessionsUnfold(a, leadsMap); }
        KeptSessions(a, leadsMap) + fb;
      }
    }
  }

  lemma KeptSessionsUnfold(a: seq<Session>, leadsMap: Dict.Dict<Lead>)
    requires a != []
    ensures KeptSessions(a, leadsMap) == (if SessionKept(a[0], leadsMap) then [a[0]] else []) + KeptSessions(a[1..], leadsMap)
  {
  }

  /** `formatTimeAgo(dateString)`. */
  function FormatTimeAgo(e: Elapsed): (t: string)
    ensures e.NoDate? ==> t == "Unknown"
    ensures e.ElapsedMs? && e.ms < 60000 ==> t == "Just now"
    ensures e.ElapsedMs? && 60000 <= e.ms < 3600000 ==> t == NatToString(e.ms / 60000) + " min ago"
  {
    match e
    case NoDate => "Unknown"
    case InvalidDate => "NaN day ago"
    case ElapsedMs(ms) =>
      var mins := FloorDiv(ms, 60000);
      if mins < 1 then "Just now"
      else if mins < 60 then NatToString(mins) + " min ago"
      else
        var hours := FloorDiv(mins, 60);
        if hours < 24 then NatToString(hours) + " hour" + (if hours > 1 then "s" else "") + " ago"
        else
          var days := FloorDiv(hours, 24);
          NatToString(days) + " day" + (if days > 1 then "s" else "") + " ago"
  }

  /** Between one hour and one day the label counts whole hours, singular only for one. */
  lemma HourBucket(ms: int)
    requires 3600000 <= ms < 86400000
    ensures FormatTimeAgo(ElapsedMs(ms)) ==
            NatToString(ms / 3600000) + " hour" + (if ms >= 7200000 then "s" else "") + " ago"
  {
    NestedFloors(ms);
  }

  /** From one day on the label counts whole days. */
  lemma DayBucket(ms: int)
    requires ms >= 86400000
    ensures FormatTimeAgo(ElapsedMs(ms)) ==
            NatToString(ms / 86400000) + " day" + (if ms >= 172800000 then "s" else "") + " ago"
  {
    NestedFloors(ms);
  }

  /** One session, the `index`-th listed, as a conversation. */
  function ToConversation(s: Session, index: nat, leadsMap: Dict.Dict<Lead>): (c: Conversation)
    ensures c.approval == ApprovalOf(s, LeadFor(leadsMap, s.whatsapp))
    ensures c.messages == Flatten(EntriesOf(s))
    ensures c.unreadCount == 0 && !c.unread
    ensures c.title != ""
    ensures Truthy(s.id) ==> c.id == s.id
    ensures !Truthy(s.id) ==> c.id == Num(index)
  {
    var lead := LeadFor(leadsMap, s.whatsapp);
    var title := FirstPresent([if lead.Some? then lead.value.name else None, s.name, s.whatsapp, s.email],
                              "Conversation #" + NatToString(index + 1));
    Conversation(
      Or(s.id, Num(index)), s.whatsapp, title, PreviewOf(LastEntry(s), 50), StatusOf(s, lead), ApprovalOf(s, lead),
      lead.Some? && Truthy(lead.value.isReported), EffectiveAgent(s, lead), Flatten(EntriesOf(s)),
      FormatTimeAgo(s.age), false, 0)
  }

  /** The listed conversations, in session order (before the page's date sort). */
  function ConversationsOf(sessions: seq<Session>, leadsMap: Dict.Dict<Lead>): (cs: seq<Conversation>)
    ensures var kept := KeptSessions(sessions, leadsMap);
      |cs| == |kept| && forall i :: 0 <= i < |cs| ==> cs[i] == ToConversation(kept[i], i, leadsMap)
  {
    var kept := KeptSessions(sessions, leadsMap);
    seq(|kept|, i requires 0 <= i < |kept| => ToConversation(kept[i], i, leadsMap))
  }

  // ---------------------------------------------------------------------
  // The newest-first re-sort

  /** `new Date(updated_at || created_at || 0)`, in milliseconds. */
  function SessionStamp(s: Session): int
  {
    if s.updatedAt.Some? then s.updatedAt.value else if s.createdAt.Some? then s.createdAt.value else 0
  }

  /** The comparator's test `(s.id || s.index) === id`. */
  predicate LooksUp(s: Session, id: Value)
  {
    StrictEquals(Or(s.id, s.index), id)
  }

  /** `filteredSessions.find(s => (s.id || s.index) === id)`. */
  function SessionOf(kept: seq<Session>, id: Value): (r: Option<Session>)
    ensures r.Some? ==> r.value in kept && LooksUp(r.value, id)
    ensures r.None? <==> forall s :: s in kept ==> !LooksUp(s, id)
  {
    if kept == [] then None
    else if LooksUp(kept[0], id) then Some(kept[0])
    else SessionOf(kept[1..], id)
  }

  /** The lookup returns the first session that passes the test. */
  lemma {:induction false} SessionOfFirst(kept: seq<Session>, id: Value, i: nat)
    requires i < |kept| && LooksUp(kept[i], id)
    requires forall j :: 0 <= j < i ==> !LooksUp(kept[j], id)
    ensures SessionOf(kept, id) == Some(kept[i])
  {
    if i > 0 {
      assert !LooksUp(kept[0], id);
      SessionOfFirst(kept[1..], id, i - 1);
    }
  }

  /** The date the comparator reads for a conversation: that of the session it looks up, the epoch when it finds none. */
  function SortKey(kept: seq<Session>, c: Conversation): Option<int>
  {
    var s := SessionOf(kept, c.id);
    Some(if s.Some? then SessionStamp(s.value) else 0)
  }

  /** The comparator's key over the kept sessions. */
  function ByDate(kept: seq<Session>): Conversation -> Option<int>
  {
    c => SortKey(kept, c)
  }

  /** `convos.sort((a, b) => dateB - dateA)`: the conversations, newest first. */
  function SortedConversations(sessions: seq<Session>, leadsMap: Dict.Dict<Lead>): (cs: seq<Conversation>)
    ensures multiset(cs) == multiset(ConversationsOf(sessions, leadsMap))
    ensures Sorting.Sorted(ByDate(KeptSessions(sessions, leadsMap)), true, cs)
  {
    Sorting.SortBy(ByDate(KeptSessions(sessions, leadsMap)), true, ConversationsOf(sessions, leadsMap))
  }

  /** The sort is stable: conversations with the same date keep their session order. */
  lemma SortedConversationsStable(sessions: seq<Session>, leadsMap: Dict.Dict<Lead>, k: Option<int>)
    ensures var key := ByDate(KeptSessions(sessions, leadsMap));
      Sorting.WithKey(key, k, SortedConversations(sessions, leadsMap)) ==
      Sorting.WithKey(key, k, ConversationsOf(sessions, leadsMap))
  {
    Sorting.SortStable(ByDate(KeptSessions(sessions, leadsMap)), true, ConversationsOf(sessions, leadsMap), k);
  }

  /** Every kept session has its own id: truthy, not an array, and no other session's. */
  predicate DistinctIds(kept: seq<Session>)
  {
    (forall j :: 0 <= j < |kept| ==> Truthy(kept[j].id) && !kept[j].id.Arr?) &&
    (forall j, l :: 0 <= j < l < |kept| ==> kept[j].id != kept[l].id)
  }

  /** When the sessions have their own ids, each conversation is sorted by the date of its own session. */
  lemma OwnSessionDate(sessions: seq<Session>, leadsMap: Dict.Dict<Lead>, i: nat)
    requires DistinctIds(KeptSessions(sessions, leadsMap))
    requires i < |KeptSessions(sessions, leadsMap)|
    ensures var kept := KeptSessions(sessions, leadsMap);
      SortKey(kept, ConversationsOf(sessions, leadsMap)[i]) == Some(SessionStamp(kept[i]))
  {
    var kept := KeptSessions(sessions, leadsMap);
    var id := ConversationsOf(sessions, leadsMap)[i].id;
    assert id == kept[i].id;
    forall j | 0 <= j < i
      ensures !LooksUp(kept[j], id)
    {
      assert kept[j].id != kept[i].id;
    }
    SessionOfFirst(kept, id, i);
  }

  /** An element of a list is an element of any permutation of it. */
  lemma Listed(cs: seq<Conversation>, sorted: seq<Conversation>, i: nat)
    requires multiset(sorted) == multiset(cs) && i < |cs|
    ensures cs[i] in sorted
  {
    assert cs[i] in multiset(cs);
  }

  /** When the sessions have their own ids, a conversation whose session is newer is listed before one whose session is older. */
  lemma NewerListedFirst(sessions: seq<Session>, leadsMap: Dict.Dict<Lead>, i: nat, j: nat) returns (p: nat, q: nat)
    requires DistinctIds(KeptSessions(sessions, leadsMap))
    requires i < |KeptSessions(sessions, leadsMap)| && j < |KeptSessions(sessions, leadsMap)|
    requires SessionStamp(KeptSessions(sessions, leadsMap)[i]) > SessionStamp(KeptSessions(sessions, leadsMap)[j])
    ensures var cs, sorted := ConversationsOf(sessions, leadsMap), SortedConversations(sessions, leadsMap);
      p < q < |sorted| && sorted[p] == cs[i] && sorted[q] == cs[j]
  {
    var cs, sorted := ConversationsOf(sessions, leadsMap), SortedConversations(sessions, leadsMap);
    var key := ByDate(KeptSessions(sessions, leadsMap));
    OwnSessionDate(sessions, leadsMap, i);
    OwnSessionDate(sessions, leadsMap, j);
    assert !Sorting.InOrder(key, true, cs[j], cs[i]);
    Listed(cs, sorted, i);
    Listed(cs, sorted, j);
    p, q := Sorting.Separated(key, true, sorted, cs[i], cs[j]);
  }

  // ---------------------------------------------------------------------
  // Filters and counters

  /** The list filters of the page. */
  datatype Filter =
    | WithApproval(a: Approval)
    | ClosedOrResolved
    | OpenOnly
    | Reported
    | WithAgent(agent: string)
    | Search(query: string)

  predicate Matches(c: Conversation, f: Filter)
  {
    match f
    case WithApproval(a) => c.approval == a
    case ClosedOrResolved => c.approval == Closed || StrictEquals(c.status, Str("resolved"))
    case OpenOnly => c.approval != Closed && !StrictEquals(c.status, Str("resolved"))
    case Reported => c.isReported
    case WithAgent(agent) => Truthy(c.assignedAgentId) && ToStr(c.assignedAgentId) == agent
    case Search(q) => ContainsCI(c.title, q) || ContainsCI(c.preview, q)
  }

  /** `conversations.filter(...)` for one filter, order kept. */
  function Select(cs: seq<Conversation>, f: Filter): (r: seq<Conversation>)
    ensures |r| <= |cs|
    ensures forall c :: c in r <==> c in cs && Matches(c, f)
  {
    if cs == [] then [] else (if Matches(cs[0], f) then [cs[0]] else []) + Select(cs[1..], f)
  }

  /** A filter keeps the order of the conversations it keeps: it distributes over concatenation. */
  lemma {:induction false} SelectAppend(a: seq<Conversation>, b: seq<Conversation>, f: Filter)
    ensures Select(a + b, f) == Select(a, f) + Select(b, f)
  {
    if a == [] {
      assert a + b == b;
    } else {
      var x, t := a[0], a[1..];
      var h, ft, fb := (if Matches(x, f) then [x] else []), Select(t, f), Select(b, f);
      calc {
        Select(a + b, f);
        { SelectUnfold(a + b, f); ConsAppend(a, b); }
        h + Select(t + b, f);
        { SelectAppend(t, b, f); }
        h + (ft + fb);
        { AppendAssoc(h, ft, fb); }
        (h + ft) + fb;
        { SelectUnfold(a, f); }
        Select(a, f) + fb;
      }
    }
  }

  lemma SelectUnfold(a: seq<Conversation>, f: Filter)
    requires a != []
    ensures Select(a, f) == (if Matches(a[0], f) then [a[0]] else []) + Select(a[1..], f)
  {
  }

  /** The agent's two views split the conversations: closed-or-resolved, and the rest. */
  lemma {:induction false} AgentViewsPartition(cs: seq<Conversation>)
    ensures |Select(cs, ClosedOrResolved)| + |Select(cs, OpenOnly)| == |cs|
    ensures forall c :: c in cs ==> (c in Select(cs, ClosedOrResolved) <==> c !in Select(cs, OpenOnly))
  {
    if cs != [] {
      AgentViewsPartition(cs[1..]);
    }
  }

  /**
   * Whether a conversation passes the page's filters: an agent sees the
   * closed-or-resolved view or the open one; an admin's status filter
   * (an unknown value keeps everything) and, unless it is `all`, the
   * agent filter must both pass.
   */
  predicate Shown(c: Conversation, isAgent: bool, statusFilter: string, agentFilter: string)
  {
    if isAgent then
      if statusFilter == "closed" || statusFilter == "resolved" then Matches(c, ClosedOrResolved) else Matches(c, OpenOnly)
    else
      (statusFilter == "pending" ==> c.approval == Pending) &&
      (statusFilter == "assigned" ==> c.approval == Assigned) &&
      (statusFilter == "active" ==> c.approval == Active) &&
      (statusFilter == "closed" || statusFilter == "resolved" ==> Matches(c, ClosedOrResolved)) &&
      (statusFilter == "reported" ==> c.isReported) &&
      (agentFilter != "all" ==> Matches(c, WithAgent(agentFilter)))
  }
  /** The page keeps the order of the conversations it shows: the filters distribute over concatenation. */
  lemma DisplayedAppend(a: seq<Conversation>, b: seq<Conversation>, isAgent: bool, statusFilter: string, agentFilter: string)
    ensures Displayed(a + b, isAgent, statusFilter, agentFilter) ==
            Displayed(a, isAgent, statusFilter, agentFilter) + Displayed(b, isAgent, statusFilter, agentFilter)
  {
    var f :=
      if isAgent then (if statusFilter == "closed" || statusFilter == "resolved" then ClosedOrResolved else OpenOnly)
      else if statusFilter == "pending" then WithApproval(Pending)
      else if statusFilter == "assigned" then WithApproval(Assigned)
      else if statusFilter == "active" then WithApproval(Active)
      else if statusFilter == "closed" || statusFilter == "resolved" then ClosedOrResolved
      else Reported;
    var known := isAgent || statusFilter in {"pending", "assigned", "active", "closed", "resolved", "reported"};
    if known {
      SelectAppend(a, b, f);
    }
    if !isAgent && agentFilter != "all" {
      var sa, sb := if known then Select(a, f) else a, if known then Select(b, f) else b;
      SelectAppend(sa, sb, WithAgent(agentFilter));
    }
  }


  /** `displayedConversations`: the role-dependent status filter, then (admins only) the agent filter. */
  function Displayed(cs: seq<Conversation>, isAgent: bool, statusFilter: string, agentFilter: string): (r: seq<Conversation>)
    ensures |r| <= |cs|
    ensures forall c :: c in r <==> c in cs && Shown(c, isAgent, statusFilter, agentFilter)
  {
    if isAgent then
      if statusFilter == "closed" || statusFilter == "resolved" then Select(cs, ClosedOrResolved) else Select(cs, OpenOnly)
    else
      var byStatus :=
        if statusFilter == "pending" then Select(cs, WithApproval(Pending))
        else if statusFilter == "assigned" then Select(cs, WithApproval(Assigned))
        else if statusFilter == "active" then Select(cs, WithApproval(Active))
        else if statusFilter == "closed" || statusFilter == "resolved" then Select(cs, ClosedOrResolved)
        else if statusFilter == "reported" then Select(cs, Reported)
        else cs;
      if agentFilter != "all" then Select(byStatus, WithAgent(agentFilter)) else byStatus
  }

  /** The admin's agent filter compares ids as strings: a numeric id matches its decimal text. */
  lemma AgentFilterComparesText(c: Conversation, n: nat)
    requires c.assignedAgentId == Num(n) && n != 0
    ensures Matches(c, WithAgent(NatToString(n)))
  {
  }

  /** The conversations the counters are taken over. */
  function StatsConversations(cs: seq<Conversation>, isAgent: bool, agentFilter: string): (r: seq<Conversation>)
    ensures isAgent || agentFilter == "all" ==> r == cs
  {
    if !isAgent && agentFilter != "all" then Select(cs, WithAgent(agentFilter)) else cs
  }

  /** Pending, assigned, active and closed conversations, counted separately. */
  function ApprovalCount(cs: seq<Conversation>, a: Approval): nat
  {
    |Select(cs, WithApproval(a))|
  }

  /** The four approval counters add up to the number of conversations counted. */
  lemma {:induction false} CountersAddUp(cs: seq<Conversation>)
    ensures ApprovalCount(cs, Pending) + ApprovalCount(cs, Assigned) + ApprovalCount(cs, Active) + ApprovalCount(cs, Closed) == |cs|
  {
    if cs != [] {
      CountersAddUp(cs[1..]);
    }
  }

  /** An empty search lists every conversation. */
  lemma {:induction false} EmptySearchKeepsAll(cs: seq<Conversation>)
    ensures Select(cs, Search("")) == cs
  {
    if cs != [] {
      EmptySearchMatches(cs[0]);
      EmptySearchKeepsAll(cs[1..]);
      assert cs == [cs[0]] + cs[1..];
    }
  }

  lemma EmptySearchMatches(c: Conversation)
    ensures Matches(c, Search(""))
  {
    ContainsEmpty(Lower(c.title));
    assert Lower("") == "";
  }

  // ---------------------------------------------------------------------
  // Real-time messages

  /** A `new_message` pushed over the WebSocket. */
  datatype Incoming = Incoming(text: string, direction: Option<string>, waId: Option<string>, agentId: Value)

  /** `formattedMsg`. */
  function Formatted(m: Incoming): ChatMessage
  {
    ChatMessage(m.text, m.direction, Truthy(m.agentId), !Truthy(m.agentId) && m.direction == Some("out"))
  }

  /** Digits of a WhatsApp id, `''` when absent. */
  function WaKey(w: Option<string>): string
  {
    if Present(w) then DigitsOf(w.value) else ""
  }

  /** Both sides have a non-empty digits-only WhatsApp id and they are equal. */
  predicate SameChat(c: Conversation, m: Incoming)
  {
    WaKey(c.waId) != "" && WaKey(m.waId) != "" && WaKey(c.waId) == WaKey(m.waId)
  }

  /** The `prev.map(...)` of the WebSocket handler. */
  function MergeIncoming(cs: seq<Conversation>, m: Incoming, selectedId: Option<Value>): (r: seq<Conversation>)
    ensures |r| == |cs|
    ensures forall i :: 0 <= i < |cs| && !SameChat(cs[i], m) ==> r[i] == cs[i]
    ensures forall i :: 0 <= i < |cs| && SameChat(cs[i], m) ==>
              r[i].messages == cs[i].messages + [Formatted(m)] && r[i].id == cs[i].id && r[i].approval == cs[i].approval
    ensures forall i :: 0 <= i < |cs| && SameChat(cs[i], m) ==>
              r[i].unreadCount == (if selectedId.Some? && StrictEquals(selectedId.value, cs[i].id) then 0 else cs[i].unreadCount + 1)
  {
    seq(|cs|, i requires 0 <= i < |cs| =>
      var c := cs[i];
      if SameChat(c, m) then
        var isActive := selectedId.Some? && StrictEquals(selectedId.value, c.id);
        c.(messages := c.messages + [Formatted(m)], preview := Take(m.text, 50), time := "Just now",
           unread := !isActive, unreadCount := if isActive then 0 else c.unreadCount + 1)
      else c)
  }

  /** A message for a chat that is not listed leaves the list as it was. */
  lemma UnmatchedMessageNoChange(cs: seq<Conversation>, m: Incoming, selectedId: Option<Value>)
    requires forall i :: 0 <= i < |cs| ==> !SameChat(cs[i], m)
    ensures MergeIncoming(cs, m, selectedId) == cs
  {
  }

  // ---------------------------------------------------------------------
  // Selection

  /** `convos.find(c => c.id === id)`. */
  function FindById(cs: seq<Conversation>, id: Value): (r: Option<Conversation>)
    ensures r.Some? ==> r.value in cs && StrictEquals(r.value.id, id)
    ensures r.None? ==> forall i :: 0 <= i < |cs| ==> !StrictEquals(cs[i].id, id)
  {
    if cs == [] then None
    else if StrictEquals(cs[0].id, id) then Some(cs[0])
    else FindById(cs[1..], id)
  }

  /** The selection after a fetch. */
  function NextSelection(cs: seq<Conversation>, targetId: Value, selected: Option<Conversation>): (r: Option<Conversation>)
    ensures Truthy(targetId) && FindById(cs, targetId).Some? ==> r == FindById(cs, targetId)
    ensures Truthy(targetId) && FindById(cs, targetId).None? ==> r == selected
    ensures !Truthy(targetId) && selected.None? ==> r == (if cs == [] then None else Some(cs[0]))
    ensures !Truthy(targetId) && selected.Some? && FindById(cs, selected.value.id).None? ==>
              r == (if cs == [] then None else Some(cs[0]))
    ensures r.Some? && r != selected ==> r.value in cs
  {
    if Truthy(targetId) then
      var found := FindById(cs, targetId);
      if found.Some? then found else selected
    else if selected.Some? then
      var found := FindById(cs, selected.value.id);
      if found.Some? then found else if |cs| > 0 then Some(cs[0]) else None
    else if |cs| > 0 then Some(cs[0])
    else selected
  }

  // ---------------------------------------------------------------------
  // The page

  /** The conversation the auto-select effect picks: the first one listed, or none. */
  function FirstListed(d: seq<Conversation>): (r: Option<Conversation>)
    ensures r.None? <==> d == []
    ensures r.Some? ==> r.value in d && r.value == d[0]
  {
    if d == [] then None else Some(d[0])
  }

  class ConversationsPage {
    const isAgent: bool
    var conversations: seq<Conversation>
    var selected: Option<Conversation>
    var loading: bool
    var statusFilter: string
    var agentFilter: string

    /** The page for an effective agent (`isAgentEffective`) or an admin. */
    constructor (isAgent: bool)
      ensures this.isAgent == isAgent
      ensures conversations == [] && selected.None? && loading
      ensures statusFilter == (if isAgent then "assigned" else "all") && agentFilter == "all"
    {
      this.isAgent := isAgent;
      conversations, selected, loading := [], None, true;
      statusFilter, agentFilter := if isAgent then "assigned" else "all", "all";
    }

    /** `displayedConversations` under the page's current filters. */
    function DisplayedNow(): (r: seq<Conversation>)
      reads this
      ensures forall c :: c in r <==> c in conversations && Shown(c, isAgent, statusFilter, agentFilter)
    {
      Displayed(conversations, isAgent, statusFilter, agentFilter)
    }

    /**
     * The effect that runs when a filter or the number of displayed
     * conversations changes: the first displayed conversation is selected,
     * or nothing when none is displayed.
     */
    method AutoSelect()
      modifies this
      ensures selected == FirstListed(DisplayedNow())
      ensures selected.Some? ==> selected.value in conversations
      ensures conversations == old(conversations) && loading == old(loading)
      ensures statusFilter == old(statusFilter) && agentFilter == old(agentFilter)
    {
      selected := FirstListed(Displayed(conversations, isAgent, statusFilter, agentFilter));
    }

    /** `setStatusFilter`: a new value re-runs the auto-select effect; the same value changes nothing. */
    method SetStatusFilter(v: string)
      modifies this
      ensures statusFilter == v && agentFilter == old(agentFilter)
      ensures conversations == old(conversations) && loading == old(loading)
      ensures v != old(statusFilter) ==> selected == FirstListed(DisplayedNow())
      ensures v == old(statusFilter) ==> selected == old(selected)
    {
      if v != statusFilter {
        statusFilter := v;
        AutoSelect();
      }
    }

    /** `setSelectedAgentFilter`: a new value re-runs the auto-select effect; the same value changes nothing. */
    method SetAgentFilter(v: string)
      modifies this
      ensures agentFilter == v && statusFilter == old(statusFilter)
      ensures conversations == old(conversations) && loading == old(loading)
      ensures v != old(agentFilter) ==> selected == FirstListed(DisplayedNow())
      ensures v == old(agentFilter) ==> selected == old(selected)
    {
      if v != agentFilter {
        agentFilter := v;
        AutoSelect();
      }
    }

    /**
     * `fetchConversations(targetId)`: `sessions` is `None` when the request
     * failed; the leads (`[]` when they could not be fetched) decide which
     * sessions are listed. When the refreshed list changes the number of
     * displayed conversations, the auto-select effect then overrides the
     * refresh rule's selection with the first displayed conversation.
     */
    method FetchConversations(sessions: Option<seq<Session>>, leads: seq<Lead>, targetId: Value)
      modifies this
      ensures sessions.None? ==> conversations == old(conversations) && selected == old(selected)
      ensures sessions.Some? ==> conversations == SortedConversations(sessions.value, LeadsMap(leads))
      ensures sessions.Some? && |DisplayedNow()| == |old(DisplayedNow())| ==>
                selected == NextSelection(conversations, targetId, old(selected))
      ensures sessions.Some? && |DisplayedNow()| != |old(DisplayedNow())| ==> selected == FirstListed(DisplayedNow())
      ensures statusFilter == old(statusFilter) && agentFilter == old(agentFilter)
      ensures !loading
    {
      if sessions.Some? {
        var before := |Displayed(conversations, isAgent, statusFilter, agentFilter)|;
        var leadsMap := BuildLeadsMap(leads);
        var convos := SortedConversations(sessions.value, leadsMap);
        conversations := convos;
        selected := NextSelection(convos, targetId, selected);
        if |Displayed(convos, isAgent, statusFilter, agentFilter)| != before {
          AutoSelect();
        }
      }
      loading := false;
    }

    /** The WebSocket handler for a `new_message`. */
    method ReceiveMessage(m: Incoming)
      modifies this
      ensures conversations == MergeIncoming(old(conversations), m, if old(selected).Some? then Some(old(selected).value.id) else None)
      ensures old(selected).None? ==> selected.None?
      ensures old(selected).Some? && !SameChat(old(selected).value, m) ==> selected == old(selected)
      ensures old(selected).Some? && SameChat(old(selected).value, m) ==>
                selected == Some(old(selected).value.(messages := old(selected).value.messages + [Formatted(m)], time := "Just now"))
      ensures loading == old(loading) && statusFilter == old(statusFilter) && agentFilter == old(agentFilter)
    {
      var selectedId := if selected.Some? then Some(selected.value.id) else None;
      conversations := MergeIncoming(conversations, m, selectedId);
      if selected.Some? && SameChat(selected.value, m) {
        var prev := selected.value;
        selected := Some(prev.(messages := prev.messages + [Formatted(m)], time := "Just now"));
      }
    }
  }
}

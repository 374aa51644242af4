/**
 * The pending-approval queue
 * (src/modules/admin/pending-conversations/PendingConversationsPage.jsx):
 * which sessions are queued, their flattened messages, the search and
 * product filters, approving a conversation, the avatar initials and the
 * "time ago" label.
 */
module PendingConversations {
  import opened Js
  import Dict
  import opened ChatSession
  import Conversations

  // ---------------------------------------------------------------------
  // Sessions

  /** `s.whatsapp || s.wa_id`. */
  function ChatId(s: Session): (w: Option<string>)
    ensures Present(s.whatsapp) ==> w == s.whatsapp
    ensures !Present(s.whatsapp) ==> w == s.waId
  {
    if Present(s.whatsapp) then s.whatsapp else s.waId
  }

  /** The session filter: a WhatsApp id (either field) whose digits are a key of the leads map. */
  predicate SessionKept(s: Session, leadsMap: Dict.Dict<Lead>)
  {
    Present(ChatId(s)) && Dict.HasKey(leadsMap, DigitsOf(ChatId(s).value))
  }

  /** A session is queued exactly when some lead has the digits of its WhatsApp id. */
  lemma SessionKeptIff(s: Session, leads: seq<Lead>)
    ensures SessionKept(s, LeadsMap(leads)) <==>
            Present(ChatId(s)) && exists i :: 0 <= i < |leads| && LeadKey(leads[i]) == Some(DigitsOf(ChatId(s).value))
  {
    if Present(ChatId(s)) {
      LeadsMapHasKey(leads, DigitsOf(ChatId(s).value));
    }
  }

  /** The `wa_id` field serves when `whatsapp` is missing, which the conversations page does not allow. */
  lemma WaIdFallbackOnlyHere(s: Session, leadsMap: Dict.Dict<Lead>)
    requires !Present(s.whatsapp) && Present(s.waId) && Dict.HasKey(leadsMap, DigitsOf(s.waId.value))
    ensures SessionKept(s, leadsMap) && !Conversations.SessionKept(s, leadsMap)
  {
  }

  function KeptSessions(sessions: seq<Session>, leadsMap: Dict.Dict<Lead>): (r: seq<Session>)
    ensures |r| <= |sessions|
    ensures forall s :: s in r <==> s in sessions && SessionKept(s, leadsMap)
  {
    if sessions == [] then []
    else (if SessionKept(sessions[0], leadsMap) then [sessions[0]] else []) + KeptSessions(sessions[1..], leadsMap)
  }

  /** The filter keeps the order of the sessions it keeps: it distributes over concatenation. */
  lemma {:induction false} KeptSessionsAppend(a: seq<Session>, b: seq<Session>, leadsMap: Dict.Dict<Lead>)
    ensures KeptSessions(a + b, leadsMap) == KeptSessions(a, leadsMap) + KeptSessions(b, leadsMap)
  {
    if a == [] {
      assert a + b == b;
    } else {
      var x, t := a[0], a[1..];
      var h, ft, fb := (if SessionKept(x, leadsMap) then [x] else []), KeptSessions(t, leadsMap), KeptSessions(b, leadsMap);
      calc {
        KeptSessions(a + b, leadsMap);
        { KeptSessionsUnfold(a + b, leadsMap); ConsAppend(a, b); }
        h + KeptSessions(t + b, leadsMap);
        { KeptSessionsAppend(t, b, leadsMap); }
        h + (ft + fb);
        { AppendAssoc(h, ft, fb); }
        (h + ft) + fb;
        { KeptSessionsUnfold(a, leadsMap); }
        KeptSessions(a, leadsMap) + fb;
      }
    }
  }

  lemma KeptSessionsUnfold(a: seq<Session>, leadsMap: Dict.Dict<Lead>)
    requires a != []
    ensures KeptSessions(a, leadsMap) == (if SessionKept(a[0], leadsMap) then [a[0]] else []) + KeptSessions(a[1..], leadsMap)
  {
  }

  // ---------------------------------------------------------------------
  // Messages

  /** The `flatMap` callback for one entry, given the entry before it. */
  function EntryMessages(prev: Option<Entry>, e: Entry): (r: seq<Message>)
    ensures |r| <= 2
  {
    if Present(e.bot) || Present(e.user) then
      var dup := Present(e.user) && prev.Some? &&
                 (prev.value.text == e.user || (prev.value.role == Some("user") && prev.value.text == e.user));
      (if Present(e.user) && !dup then [Message(e.user.value, Some("in"))] else []) +
      (if Present(e.bot) then [Message(e.bot.value, Some("out"))] else [])
    else if Present(e.text) && Present(e.direction) then [Message(e.text.value, e.direction)]
    else if Present(e.role) && Present(e.text) then [Message(e.text.value, Some(if e.role == Some("user") then "in" else "out"))]
    else []
  }

  function FlattenAfter(prev: Option<Entry>, entries: seq<Entry>): seq<Message>
    decreases |entries|
  {
    if entries == [] then [] else EntryMessages(prev, entries[0]) + FlattenAfter(Some(entries[0]), entries[1..])
  }

  /** `(session.conversation || []).flatMap(...)`. */
  function Flatten(entries: seq<Entry>): seq<Message>
  {
    FlattenAfter(None, entries)
  }

  /** A message of the conversations page without its sender flags. */
  function Strip(m: Conversations.ChatMessage): Message
  {
    Message(m.text, m.direction)
  }

  function StripAll(ms: seq<Conversations.ChatMessage>): (r: seq<Message>)
    ensures |r| == |ms|
    ensures forall i :: 0 <= i < |ms| ==> r[i] == Strip(ms[i])
  {
    seq(|ms|, i requires 0 <= i < |ms| => Strip(ms[i]))
  }

  /** One entry gives the same messages here as on the conversations page, flags aside. */
  lemma EntrySameRules(prev: Option<Entry>, e: Entry)
    ensures EntryMessages(prev, e) == StripAll(Conversations.EntryMessages(prev, e))
  {
  }

  /** The queue flattens a session exactly as the conversations page does, up to the sender flags. */
  lemma {:induction false} SameRulesAsConversationsPage(prev: Option<Entry>, entries: seq<Entry>)
    ensures FlattenAfter(prev, entries) == StripAll(Conversations.FlattenAfter(prev, entries))
    decreases |entries|
  {
    if entries != [] {
      SameRulesAsConversationsPage(Some(entries[0]), entries[1..]);
      EntrySameRules(prev, entries[0]);
      var head := Conversations.EntryMessages(prev, entries[0]);
      var tail := Conversations.FlattenAfter(Some(entries[0]), entries[1..]);
      StripAllAppend(head, tail);
    }
  }

  lemma StripAllAppend(a: seq<Conversations.ChatMessage>, b: seq<Conversations.ChatMessage>)
    ensures StripAll(a + b) == StripAll(a) + StripAll(b)
  {
    var l, r := StripAll(a + b), StripAll(a) + StripAll(b);
    forall i | 0 <= i < |l|
      ensures l[i] == r[i]
    {
      if i < |a| {
        assert (a + b)[i] == a[i];
      } else {
        assert (a + b)[i] == b[i - |a|];
      }
    }
  }

  // ---------------------------------------------------------------------
  // Conversations, filters and approval

  /** A queued conversation. */
  datatype PendingConversation = PendingConversation(
    id: Value, waId: Option<string>, name: string, preview: string, contactId: string,
    productInterest: Option<string>, messages: seq<Message>, time: string, isOnline: bool)

  /** `formatTimeAgo` of this page: `Yesterday` for one whole day, plural hours and days otherwise. */
  function FormatTimeAgo(e: Elapsed): (t: string)
    ensures e.NoDate? ==> t == "Unknown"
    ensures e.ElapsedMs? && e.ms < 60000 ==> t == "Just now"
    ensures e.ElapsedMs? && 60000 <= e.ms < 3600000 ==> t == NatToString(e.ms / 60000) + " min ago"
  {
    match e
    case NoDate => "Unknown"
    case InvalidDate => "NaN days ago"
    case ElapsedMs(ms) =>
      var mins := FloorDiv(ms, 60000);
      if mins < 1 then "Just now"
      else if mins < 60 then NatToString(mins) + " min ago"
      else
        var hours := FloorDiv(mins, 60);
        if hours < 24 then NatToString(hours) + " " + (if hours == 1 then "hour" else "hours") + " ago"
        else
          var days := FloorDiv(hours, 24);
          if days == 1 then "Yesterday" else NatToString(days) + " days ago"
  }

  /** Between one hour and one day the label counts whole hours, `hour` singular only for one. */
  lemma HourLabels(ms: int)
    requires 3600000 <= ms < 86400000
    ensures FormatTimeAgo(ElapsedMs(ms)) ==
            NatToString(ms / 3600000) + " " + (if ms < 7200000 then "hour" else "hours") + " ago"
  {
    NestedFloors(ms);
  }

  /** One whole day reads `Yesterday`; two or more read as a count of days. */
  lemma DayLabels(ms: int)
    requires ms >= 86400000
    ensures ms < 172800000 ==> FormatTimeAgo(ElapsedMs(ms)) == "Yesterday"
    ensures ms >= 172800000 ==> FormatTimeAgo(ElapsedMs(ms)) == NatToString(ms / 86400000) + " days ago"
  {
    NestedFloors(ms);
  }

  /** `isRecentlyActive`: a date within the last five minutes (parsed without the UTC fix-up). */
  predicate IsRecentlyActive(e: Elapsed)
  {
    e.ElapsedMs? && e.ms < 5 * 60 * 1000
  }

  /** One queued session as a conversation. */
  function ToPending(s: Session, index: nat, leadsMap: Dict.Dict<Lead>): (c: PendingConversation)
    ensures c.messages == Flatten(EntriesOf(s))
    ensures c.name != ""
    ensures Present(ChatId(s)) ==> c.contactId == "+" + ChatId(s).value
  {
    var wa := ChatId(s);
    var lead := LeadFor(leadsMap, wa);
    var name := FirstPresent([if lead.Some? then lead.value.name else None, s.name, wa, s.email],
                             "Contact #" + NatToString(index + 1));
    PendingConversation(
      Or(s.id, Num(index)), wa, name, PreviewOf(LastEntry(s), 80),
      if Present(wa) then "+" + wa.value else "#" + ToStr(s.id),
      if lead.Some? then lead.value.productInterest else None,
      Flatten(EntriesOf(s)), FormatTimeAgo(s.age), IsRecentlyActive(s.localAge))
  }

  function PendingOf(sessions: seq<Session>, leadsMap: Dict.Dict<Lead>): (cs: seq<PendingConversation>)
    ensures var kept := KeptSessions(sessions, leadsMap);
      |cs| == |kept| && forall i :: 0 <= i < |cs| ==> cs[i] == ToPending(kept[i], i, leadsMap)
  {
    var kept := KeptSessions(sessions, leadsMap);
    seq(|kept|, i requires 0 <= i < |kept| => ToPending(kept[i], i, leadsMap))
  }

  /** The product filter's choices: distinct non-empty `product_interest` values, first appearance first. */
  function ProductsOf(leads: seq<Lead>): (ps: seq<string>)
    ensures forall i, j :: 0 <= i < j < |ps| ==> ps[i] != ps[j]
    ensures forall p :: p in ps <==> p != "" && exists i :: 0 <= i < |leads| && leads[i].productInterest == Some(p)
    ensures InFirstAppearanceOrder(PresentInterests(leads), ps)
  {
    Unique(PresentInterests(leads))
  }

  /** `leads.map(l => l.product_interest).filter(Boolean)`. */
  function PresentInterests(leads: seq<Lead>): (r: seq<string>)
    ensures forall p :: p in r <==> p != "" && exists i :: 0 <= i < |leads| && leads[i].productInterest == Some(p)
  {
    if leads == [] then []
    else
      var rest := PresentInterests(leads[1..]);
      assert forall i :: 1 <= i < |leads| ==> leads[1..][i - 1] == leads[i];
      (if Present(leads[0].productInterest) then [leads[0].productInterest.value] else []) + rest
  }

  /** The interests are listed lead by lead: the list over two runs of leads is each run's list in turn. */
  lemma {:induction false} PresentInterestsAppend(a: seq<Lead>, b: seq<Lead>)
    ensures PresentInterests(a + b) == PresentInterests(a) + PresentInterests(b)
  {
    if a == [] {
      assert a + b == b;
    } else {
      var x, t := a[0], a[1..];
      var h, ft, fb := (if Present(x.productInterest) then [x.productInterest.value] else []), PresentInterests(t), PresentInterests(b);
      calc {
        PresentInterests(a + b);
        { PresentInterestsUnfold(a + b); ConsAppend(a, b); }
        h + PresentInterests(t + b);
        { PresentInterestsAppend(t, b); }
        h + (ft + fb);
        { AppendAssoc(h, ft, fb); }
        (h + ft) + fb;
        { PresentInterestsUnfold(a); }
        PresentInterests(a) + fb;
      }
    }
  }

  lemma PresentInterestsUnfold(a: seq<Lead>)
    requires a != []
    ensures PresentInterests(a) == (if Present(a[0].productInterest) then [a[0].productInterest.value] else []) + PresentInterests(a[1..])
  {
  }

  /** The search and product filter. */
  predicate Visible(c: PendingConversation, query: string, product: string)
  {
    (ContainsCI(c.name, query) || ContainsCI(c.preview, query)) &&
    (product == "all" || c.productInterest == Some(product))
  }

  /** `filteredConversations`. */
  function FilteredConversations(cs: seq<PendingConversation>, query: string, product: string): (r: seq<PendingConversation>)
    ensures |r| <= |cs|
    ensures forall c :: c in r <==> c in cs && Visible(c, query, product)
  {
    if cs == [] then []
    else (if Visible(cs[0], query, product) then [cs[0]] else []) + FilteredConversations(cs[1..], query, product)
  }

  /**
   * `filter` keeps the order and the multiplicity of what it keeps: filtering a
   * concatenation filters each part and concatenates the results.
   */
  lemma {:induction false} FilteredConversationsAppend(a: seq<PendingConversation>, b: seq<PendingConversation>, query: string, product: string)
    ensures FilteredConversations(a + b, query, product) == FilteredConversations(a, query, product) + FilteredConversations(b, query, product)
  {
    if a == [] {
      assert a + b == b;
    } else {
      var h, ft, fb := (if Visible(a[0], query, product) then [a[0]] else []), FilteredConversations(a[1..], query, product), FilteredConversations(b, query, product);
      calc {
        FilteredConversations(a + b, query, product);
        { FilteredConversationsUnfold(a + b, query, product); ConsAppend(a, b); }
        h + FilteredConversations(a[1..] + b, query, product);
        { FilteredConversationsAppend(a[1..], b, query, product); }
        h + (ft + fb);
        { AppendAssoc(h, ft, fb); }
        (h + ft) + fb;
        { FilteredConversationsUnfold(a, query, product); }
        FilteredConversations(a, query, product) + fb;
      }
    }
  }

  lemma FilteredConversationsUnfold(a: seq<PendingConversation>, query: string, product: string)
    requires a != []
    ensures FilteredConversations(a, query, product) == (if Visible(a[0], query, product) then [a[0]] else []) + FilteredConversations(a[1..], query, product)
  {
  }

  /** `prev.filter(c => c.id !== id)`. */
  function WithoutId(cs: seq<PendingConversation>, id: Value): (r: seq<PendingConversation>)
    ensures |r| <= |cs|
    ensures forall c :: c in r <==> c in cs && !StrictEquals(c.id, id)
  {
    if cs == [] then []
    else (if !StrictEquals(cs[0].id, id) then [cs[0]] else []) + WithoutId(cs[1..], id)
  }

  /**
   * `filter` keeps the order and the multiplicity of what it keeps: filtering a
   * concatenation filters each part and concatenates the results.
   */
  lemma {:induction false} WithoutIdAppend(a: seq<PendingConversation>, b: seq<PendingConversation>, id: Value)
    ensures WithoutId(a + b, id) == WithoutId(a, id) + WithoutId(b, id)
  {
    if a == [] {
      assert a + b == b;
    } else {
      var h, ft, fb := (if !StrictEquals(a[0].id, id) then [a[0]] else []), WithoutId(a[1..], id), WithoutId(b, id);
      calc {
        WithoutId(a + b, id);
        { WithoutIdUnfold(a + b, id); ConsAppend(a, b); }
        h + WithoutId(a[1..] + b, id);
        { WithoutIdAppend(a[1..], b, id); }
        h + (ft + fb);
        { AppendAssoc(h, ft, fb); }
        (h + ft) + fb;
        { WithoutIdUnfold(a, id); }
        WithoutId(a, id) + fb;
      }
    }
  }

  lemma WithoutIdUnfold(a: seq<PendingConversation>, id: Value)
    requires a != []
    ensures WithoutId(a, id) == (if !StrictEquals(a[0].id, id) then [a[0]] else []) + WithoutId(a[1..], id)
  {
  }

  /** Removing an id that is not listed changes nothing. */
  lemma {:induction false} WithoutAbsentId(cs: seq<PendingConversation>, id: Value)
    requires forall i :: 0 <= i < |cs| ==> !StrictEquals(cs[i].id, id)
    ensures WithoutId(cs, id) == cs
  {
    if cs != [] {
      WithoutAbsentId(cs[1..], id);
    }
  }

  /**
   * `getInitials`: `?` for an empty name, else the first character of each
   * space-separated word (an empty word contributes nothing), the first two
   * of them, upper-cased.
   */
  function Initials(name: string): (r: string)
    ensures name == "" ==> r == "?"
    ensures name != "" ==> |r| <= 2
    ensures name != "" ==>
              var ws := NonEmptyWords(Split(name, ' '));
              |r| == (if |ws| < 2 then |ws| else 2) && forall i :: 0 <= i < |r| ==> r[i] == UpperChar(ws[i][0])
  {
    if name == "" then "?"
    else
      WordHeadsAreFirstLetters(Split(name, ' '));
      Upper(Take(WordHeads(Split(name, ' ')), 2))
  }

  /** The words that are not empty, in order. */
  function NonEmptyWords(words: seq<string>): (r: seq<string>)
    ensures forall i :: 0 <= i < |r| ==> r[i] != ""
    ensures forall w :: w in r <==> w in words && w != ""
  {
    if words == [] then []
    else
      assert forall w :: w in words <==> w == words[0] || w in words[1..];
      (if words[0] != "" then [words[0]] else []) + NonEmptyWords(words[1..])
  }

  /** The heads are the first letter of each non-empty word, one per word and in order. */
  lemma {:induction false} WordHeadsAreFirstLetters(words: seq<string>)
    ensures var ws := NonEmptyWords(words);
      |WordHeads(words)| == |ws| && forall i :: 0 <= i < |ws| ==> WordHeads(words)[i] == ws[i][0]
  {
    if words != [] {
      WordHeadsAreFirstLetters(words[1..]);
    }
  }

  /** `words.map(n => n[0]).join('')`: `undefined` for an empty word joins as nothing. */
  function WordHeads(words: seq<string>): string
  {
    if words == [] then "" else (if words[0] == "" then "" else [words[0][0]]) + WordHeads(words[1..])
  }

  /** Splitting `a + " " + rest` at its first space, when `a` has none. */
  lemma SplitAtFirstSpace(a: string, rest: string)
    requires ' ' !in a
    ensures Split(a + " " + rest, ' ') == [a] + Split(rest, ' ')
  {
    var s := a + " " + rest;
    assert s[|a|] == ' ';
    assert s[..|a|] == a;
    assert s[|a| + 1..] == rest;
  }

  /** Two words give the upper-cased first letter of each. */
  lemma TwoWordInitials(a: string, b: string)
    requires a != "" && b != "" && ' ' !in a && ' ' !in b
    ensures Initials(a + " " + b) == Upper([a[0], b[0]])
  {
    SplitAtFirstSpace(a, b);
    assert Split(b, ' ') == [b];
    assert WordHeads([a, b]) == [a[0]] + WordHeads([b]);
    assert WordHeads([b]) == [b[0]] + WordHeads([]);
  }

  /** A doubled space does not cost a letter: the empty word between the spaces is skipped. */
  lemma DoubleSpaceSkipped(a: string, b: string)
    requires a != "" && b != "" && ' ' !in a && ' ' !in b
    ensures Initials(a + "  " + b) == Upper([a[0], b[0]])
  {
    SplitDoubleSpace(a, b);
    HeadsSkipEmpty(a, b);
    assert Take([a[0], b[0]], 2) == [a[0], b[0]];
  }

  lemma SplitDoubleSpace(a: string, b: string)
    requires ' ' !in a && ' ' !in b
    ensures Split(a + "  " + b, ' ') == [a, "", b]
  {
    assert a + "  " + b == a + " " + (" " + b);
    SplitAtFirstSpace(a, " " + b);
    SplitLeadingSpace(b);
  }

  lemma SplitLeadingSpace(b: string)
    requires ' ' !in b
    ensures Split(" " + b, ' ') == ["", b]
  {
    assert " " + b == "" + " " + b;
    SplitAtFirstSpace("", b);
  }

  lemma HeadsSkipEmpty(a: string, b: string)
    requires a != "" && b != ""
    ensures WordHeads([a, "", b]) == [a[0], b[0]]
  {
    assert [a, "", b][1..] == ["", b];
    assert ["", b][1..] == [b];
    assert WordHeads([b]) == [b[0]];
  }

  // ---------------------------------------------------------------------
  // The page

  class PendingPage {
    var conversations: seq<PendingConversation>
    var products: seq<string>
    var selected: Option<PendingConversation>
    var toApprove: Option<PendingConversation>
    var confirmOpen: bool

    constructor ()
      ensures conversations == [] && products == [] && selected.None? && toApprove.None? && !confirmOpen
    {
      conversations, products, selected, toApprove, confirmOpen := [], [], None, None, false;
    }

    /**
     * `fetchPendingConversations`: `sessions` is `None` when the request
     * failed; `leads` is `None` when the leads could not be fetched, which
     * leaves the product list as it was and files no lead.
     */
    method Fetch(sessions: Option<seq<Session>>, leads: Option<seq<Lead>>)
      modifies this
      ensures sessions.Some? ==> conversations == PendingOf(sessions.value, LeadsMap(if leads.Some? then leads.value else []))
      ensures sessions.None? ==> conversations == old(conversations)
      ensures products == (if sessions.Some? && leads.Some? then ProductsOf(leads.value) else old(products))
      ensures selected == old(selected) && toApprove == old(toApprove) && confirmOpen == old(confirmOpen)
    {
      if sessions.Some? {
        var leadsMap := Dict.Empty();
        if leads.Some? {
          products := ProductsOf(leads.value);
          leadsMap := BuildLeadsMap(leads.value);
        }
        conversations := PendingOf(sessions.value, leadsMap);
      }
    }

    /** `handleApproveClick`. */
    method ApproveClick(c: PendingConversation)
      modifies this
      ensures toApprove == Some(c) && confirmOpen
      ensures conversations == old(conversations) && selected == old(selected) && products == old(products)
    {
      toApprove := Some(c);
      confirmOpen := true;
    }

    /**
     * `handleConfirmApprove`: with a user id the assignment is requested
     * (`succeeded` is its outcome); returns whether a request was made.
     */
    method ConfirmApprove(userId: Value, succeeded: bool) returns (requested: bool)
      modifies this
      ensures requested <==> old(toApprove).Some? && Truthy(userId)
      ensures !(requested && succeeded) ==>
                conversations == old(conversations) && selected == old(selected) &&
                toApprove == old(toApprove) && confirmOpen == old(confirmOpen)
      ensures requested && succeeded ==>
                conversations == WithoutId(old(conversations), old(toApprove).value.id) &&
                toApprove.None? && !confirmOpen &&
                selected == (if old(selected).Some? && StrictEquals(old(selected).value.id, old(toApprove).value.id)
                             then None else old(selected))
      ensures products == old(products)
    {
      requested := false;
      if toApprove.None? || !Truthy(userId) {
        return;
      }
      requested := true;
      if succeeded {
        var c := toApprove.value;
        conversations := WithoutId(conversations, c.id);
        if selected.Some? && StrictEquals(selected.value.id, c.id) {
          selected := None;
        }
        confirmOpen := false;
        toApprove := None;
      }
    }
  }
}

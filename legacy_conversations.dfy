/**
 * The earlier conversations page (src/components/admin/conversations/ConversationsPage.jsx):
 * every session is listed, its entries are flattened without de-duplication,
 * the selection follows a refresh, and a typed prompt is handed to the AI.
 */
module LegacyConversations {
  import opened Js
  import opened ChatSession
  import Conversations
  import PendingConversations

  // ---------------------------------------------------------------------
  // Messages

  /** The `flatMap` callback: text and direction, then role and text, then a user turn and a bot turn. */
  function EntryMessages(e: Entry): (r: seq<Message>)
    ensures |r| <= 2
    ensures Present(e.text) && (Present(e.direction) || Present(e.role)) ==> |r| == 1 && r[0].text == e.text.value
  {
    if Present(e.text) && Present(e.direction) then [Message(e.text.value, e.direction)]
    else if Present(e.role) && Present(e.text) then [Message(e.text.value, Some(if e.role == Some("user") then "in" else "out"))]
    else
      (if Present(e.user) then [Message(e.user.value, Some("in"))] else []) +
      (if Present(e.bot) then [Message(e.bot.value, Some("out"))] else [])
  }

  /** `session.conversation?.flatMap(...) || []`. */
  function Flatten(entries: seq<Entry>): seq<Message>
  {
    if entries == [] then [] else EntryMessages(entries[0]) + Flatten(entries[1..])
  }

  /** Each entry is flattened on its own: the messages of a concatenation are the concatenated messages. */
  lemma {:induction false} FlattenAppend(a: seq<Entry>, b: seq<Entry>)
    ensures Flatten(a + b) == Flatten(a) + Flatten(b)
  {
    if a != [] {
      calc {
        Flatten(a + b);
        { assert (a + b)[0] == a[0] && (a + b)[1..] == a[1..] + b; }
        EntryMessages(a[0]) + Flatten(a[1..] + b);
        { FlattenAppend(a[1..], b); }
        EntryMessages(a[0]) + (Flatten(a[1..]) + Flatten(b));
        { AppendAssoc(EntryMessages(a[0]), Flatten(a[1..]), Flatten(b)); }
        Flatten(a) + Flatten(b);
      }
    } else {
      assert a + b == b;
    }
  }

  /** No de-duplication: the prompt of a turn is shown whatever precedes it. */
  lemma PromptAlwaysShown(before: seq<Entry>, e: Entry, after: seq<Entry>)
    requires Present(e.user) && !Present(e.text)
    ensures Message(e.user.value, Some("in")) in Flatten(before + [e] + after)
  {
    FlattenAppend(before + [e], after);
    FlattenAppend(before, [e]);
    assert Flatten([e]) == EntryMessages(e) + Flatten([]);
    assert EntryMessages(e)[0] == Message(e.user.value, Some("in"));
  }

  /** A prompt already logged as a user line appears twice here and once on the pending page. */
  lemma RepeatedPromptShownTwice()
    ensures var logged := Entry(None, None, Some("hi"), None, Some("user"), None, Undefined);
            var turn := Entry(Some("hi"), Some("hello"), None, None, None, None, Undefined);
            Flatten([logged, turn]) == [Message("hi", Some("in")), Message("hi", Some("in")), Message("hello", Some("out"))] &&
            PendingConversations.Flatten([logged, turn]) == [Message("hi", Some("in")), Message("hello", Some("out"))]
  {
    var logged := Entry(None, None, Some("hi"), None, Some("user"), None, Undefined);
    var turn := Entry(Some("hi"), Some("hello"), None, None, None, None, Undefined);
    assert [logged, turn][1..] == [turn];
    assert EntryMessages(turn) == [Message("hi", Some("in")), Message("hello", Some("out"))];
    assert PendingConversations.EntryMessages(Some(logged), turn) == [Message("hello", Some("out"))];
    assert EntryMessages(logged) == [Message("hi", Some("in"))];
    assert PendingConversations.EntryMessages(None, logged) == [Message("hi", Some("in"))];
    assert Flatten([turn]) == EntryMessages(turn) + Flatten([]);
    assert PendingConversations.FlattenAfter(Some(logged), [turn]) ==
           PendingConversations.EntryMessages(Some(logged), turn) + PendingConversations.FlattenAfter(Some(turn), []);
  }

  /** An entry that has text, a direction and a turn is shown by its text here and by its turn on the newer pages. */
  lemma TextBeforeTurn()
    ensures var e := Entry(Some("q"), Some("a"), Some("t"), Some("in"), None, None, Undefined);
            Flatten([e]) == [Message("t", Some("in"))] &&
            PendingConversations.Flatten([e]) == [Message("q", Some("in")), Message("a", Some("out"))]
  {
    var e := Entry(Some("q"), Some("a"), Some("t"), Some("in"), None, None, Undefined);
    assert [e][1..] == [];
    assert EntryMessages(e) == [Message("t", Some("in"))];
    assert PendingConversations.EntryMessages(None, e) == [Message("q", Some("in")), Message("a", Some("out"))];
  }

  /** Without user or bot turns the older flattening agrees with the pending page's. */
  lemma {:induction false} SameAsPendingWithoutTurns(prev: Option<Entry>, entries: seq<Entry>)
    requires forall i :: 0 <= i < |entries| ==> !Present(entries[i].user) && !Present(entries[i].bot)
    ensures Flatten(entries) == PendingConversations.FlattenAfter(prev, entries)
    decreases |entries|
  {
    if entries != [] {
      SameAsPendingWithoutTurns(Some(entries[0]), entries[1..]);
    }
  }

  // ---------------------------------------------------------------------
  // Conversations

  /** A listed conversation (cost and message times aside). */
  datatype LegacyConversation = LegacyConversation(
    id: Value, waId: Option<string>, title: string, preview: string, status: string,
    time: string, unread: bool, messages: seq<Message>)

  /** `session.conversation?.[0]`. */
  function FirstEntry(s: Session): (e: Option<Entry>)
    ensures e.Some? <==> |EntriesOf(s)| > 0
    ensures e.Some? ==> e.value == EntriesOf(s)[0]
  {
    if s.conversation.Some? && |s.conversation.value| > 0 then Some(s.conversation.value[0]) else None
  }

  /** One session as a conversation; the time label parses the stamp as it stands. */
  function ToConversation(s: Session, index: nat): (c: LegacyConversation)
    ensures c.status == "active" <==> |EntriesOf(s)| > 0
    ensures c.status == "active" || c.status == "resolved"
    ensures c.unread <==> |EntriesOf(s)| > 5
    ensures c.title != ""
    ensures c.waId == s.whatsapp
    ensures c.messages == Flatten(EntriesOf(s))
  {
    LegacyConversation(
      Or(s.id, Num(index)), s.whatsapp,
      FirstPresent([s.name, s.whatsapp, s.email], "Conversation #" + NatToString(index + 1)),
      PreviewOf(FirstEntry(s), 50),
      if |EntriesOf(s)| > 0 then "active" else "resolved",
      Conversations.FormatTimeAgo(s.localAge),
      |EntriesOf(s)| > 5,
      Flatten(EntriesOf(s)))
  }

  function ConversationsOf(sessions: seq<Session>): (cs: seq<LegacyConversation>)
    ensures |cs| == |sessions|
    ensures forall i :: 0 <= i < |cs| ==> cs[i] == ToConversation(sessions[i], i)
  {
    seq(|sessions|, i requires 0 <= i < |sessions| => ToConversation(sessions[i], i))
  }

  /** The search: title or preview contains the query, ignoring case. */
  predicate Visible(c: LegacyConversation, query: string)
  {
    ContainsCI(c.title, query) || ContainsCI(c.preview, query)
  }

  function FilteredConversations(cs: seq<LegacyConversation>, query: string): (r: seq<LegacyConversation>)
    ensures |r| <= |cs|
    ensures forall c :: c in r <==> c in cs && Visible(c, query)
  {
    if cs == [] then []
    else (if Visible(cs[0], query) then [cs[0]] else []) + FilteredConversations(cs[1..], query)
  }

  /**
   * `filter` keeps the order and the multiplicity of what it keeps: filtering a
   * concatenation filters each part and concatenates the results.
   */
  lemma {:induction false} FilteredConversationsAppend(a: seq<LegacyConversation>, b: seq<LegacyConversation>, query: string)
    ensures FilteredConversations(a + b, query) == FilteredConversations(a, query) + FilteredConversations(b, query)
  {
    if a == [] {
      assert a + b == b;
    } else {
      var h, ft, fb := (if Visible(a[0], query) then [a[0]] else []), FilteredConversations(a[1..], query), FilteredConversations(b, query);
      calc {
        FilteredConversations(a + b, query);
        { FilteredConversationsUnfold(a + b, query); ConsAppend(a, b); }
        h + FilteredConversations(a[1..] + b, query);
        { FilteredConversationsAppend(a[1..], b, query); }
        h + (ft + fb);
        { AppendAssoc(h, ft, fb); }
        (h + ft) + fb;
        { FilteredConversationsUnfold(a, query); }
        FilteredConversations(a, query) + fb;
      }
    }
  }

  lemma FilteredConversationsUnfold(a: seq<LegacyConversation>, query: string)
    requires a != []
    ensures FilteredConversations(a, query) == (if Visible(a[0], query) then [a[0]] else []) + FilteredConversations(a[1..], query)
  {
  }

  /** `convos.find(c => c.id === id)`. */
  function FindById(cs: seq<LegacyConversation>, id: Value): (r: Option<LegacyConversation>)
    ensures r.Some? ==> r.value in cs && StrictEquals(r.value.id, id)
    ensures r.None? ==> forall i :: 0 <= i < |cs| ==> !StrictEquals(cs[i].id, id)
  {
    if cs == [] then None
    else if StrictEquals(cs[0].id, id) then Some(cs[0])
    else FindById(cs[1..], id)
  }

  /** The selection after a fetch with the given `targetId`. */
  function NextSelection(cs: seq<LegacyConversation>, targetId: Value, selected: Option<LegacyConversation>): (r: Option<LegacyConversation>)
    ensures Truthy(targetId) && (exists i :: 0 <= i < |cs| && StrictEquals(cs[i].id, targetId)) ==>
              r.Some? && r.value in cs && StrictEquals(r.value.id, targetId)
    ensures Truthy(targetId) && (forall i :: 0 <= i < |cs| ==> !StrictEquals(cs[i].id, targetId)) ==> r == selected
    ensures !Truthy(targetId) && selected.None? ==> r == (if cs == [] then None else Some(cs[0]))
    ensures !Truthy(targetId) && selected.Some? && (exists i :: 0 <= i < |cs| && StrictEquals(cs[i].id, selected.value.id)) ==>
              r.Some? && r.value in cs && r.value.id == selected.value.id
    ensures !Truthy(targetId) && selected.Some? && (forall i :: 0 <= i < |cs| ==> !StrictEquals(cs[i].id, selected.value.id)) ==>
              r == selected
    ensures selected.Some? ==> r.Some?
  {
    if Truthy(targetId) then
      var found := FindById(cs, targetId);
      if found.Some? then found else selected
    else if cs != [] && selected.None? then Some(cs[0])
    else if selected.Some? then
      var found := FindById(cs, selected.value.id);
      if found.Some? then found else selected
    else selected
  }

  // ---------------------------------------------------------------------
  // The page

  class LegacyPage {
    var conversations: seq<LegacyConversation>
    var selected: Option<LegacyConversation>
    var messageInput: string

    constructor ()
      ensures conversations == [] && selected.None? && messageInput == ""
    {
      conversations, selected, messageInput := [], None, "";
    }

    /** `fetchConversations(targetId)`; `sessions` is `None` when the request failed. */
    method Fetch(sessions: Option<seq<Session>>, targetId: Value)
      modifies this
      ensures sessions.Some? ==> conversations == ConversationsOf(sessions.value) &&
                                 selected == NextSelection(conversations, targetId, old(selected))
      ensures sessions.None? ==> conversations == old(conversations) && selected == old(selected)
      ensures messageInput == old(messageInput)
    {
      if sessions.Some? {
        conversations := ConversationsOf(sessions.value);
        selected := NextSelection(conversations, targetId, selected);
      }
    }

    /**
     * `handleTriggerAI`. Returns the WhatsApp id and prompt handed to the
     * AI, if any; `succeeded` is that call's outcome and `refreshed` the
     * sessions fetched after it.
     */
    method TriggerAI(succeeded: bool, refreshed: Option<seq<Session>>) returns (call: Option<(string, string)>)
      modifies this
      ensures call.Some? <==> old(selected).Some? && !IsBlank(old(messageInput)) && Present(old(selected).value.waId)
      ensures call.Some? ==> call.value == (old(selected).value.waId.value, old(messageInput)) && messageInput == ""
      ensures call.None? ==> conversations == old(conversations) && selected == old(selected) && messageInput == old(messageInput)
      ensures call.Some? && succeeded && refreshed.Some? ==>
                conversations == ConversationsOf(refreshed.value) &&
                selected == NextSelection(conversations, old(selected).value.id, old(selected))
      ensures call.Some? && !(succeeded && refreshed.Some?) ==>
                conversations == old(conversations) && selected == old(selected)
    {
      TrimEmptyIffBlank(messageInput);
      if selected.None? || Trim(messageInput) == "" {
        return None;
      }
      var input := messageInput;
      var waId := selected.value.waId;
      if !Present(waId) {
        return None;
      }
      messageInput := "";
      call := Some((waId.value, input));
      if succeeded {
        Fetch(refreshed, selected.value.id);
      }
    }
  }
}

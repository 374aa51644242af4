/**
 * The first conversations page (src/components/admin/ConversationsPage.jsx):
 * every session listed, each entry shown as one message, and the first
 * conversation selected after loading.
 */
module EarliestConversations {
  import opened Js
  import opened ChatSession
  import Conversations

  /** A message as this page renders it: the entry's own text and direction, possibly absent. */
  datatype RawMessage = RawMessage(text: Option<string>, direction: Option<string>)

  /** `session.conversation?.map(msg => ...) || []`. */
  function MessagesOf(entries: seq<Entry>): (ms: seq<RawMessage>)
    ensures |ms| == |entries|
    ensures forall i :: 0 <= i < |ms| ==> ms[i].text == entries[i].text && ms[i].direction == entries[i].direction
  {
    if entries == [] then []
    else [RawMessage(entries[0].text, entries[0].direction)] + MessagesOf(entries[1..])
  }

  /** A conversation of this page (cost and message times aside). */
  datatype EarlyConversation = EarlyConversation(
    id: Value, title: string, preview: string, status: string, time: string, unread: bool,
    messages: seq<RawMessage>)

  /** `session.conversation?.[0]?.text?.substring(0, 50) || 'No messages'`: the user prompt is not consulted. */
  function Preview(s: Session): (p: string)
    ensures |EntriesOf(s)| > 0 && Present(EntriesOf(s)[0].text) ==> p == Take(EntriesOf(s)[0].text.value, 50)
    ensures |EntriesOf(s)| == 0 || !Present(EntriesOf(s)[0].text) ==> p == "No messages"
  {
    var es := EntriesOf(s);
    if |es| > 0 && Present(es[0].text) then Take(es[0].text.value, 50) else "No messages"
  }

  /** One session as a conversation; the time label parses the stamp as it stands. */
  function ToConversation(s: Session, index: nat): (c: EarlyConversation)
    ensures c.status == "active" <==> |EntriesOf(s)| > 0
    ensures c.status == "active" || c.status == "resolved"
    ensures c.unread <==> |EntriesOf(s)| > 5
    ensures Present(s.name) ==> c.title == s.name.value
    ensures !Present(s.name) && Present(s.whatsapp) ==> c.title == s.whatsapp.value
    ensures !Present(s.name) && !Present(s.whatsapp) && Present(s.email) ==> c.title == s.email.value
    ensures !Present(s.name) && !Present(s.whatsapp) && !Present(s.email) ==> c.title == "Conversation #" + NatToString(index + 1)
    ensures |c.messages| == |EntriesOf(s)|
  {
    FirstOfThree(s.name, s.whatsapp, s.email, "Conversation #" + NatToString(index + 1));
    EarlyConversation(
      Or(s.id, Num(index)),
      FirstPresent([s.name, s.whatsapp, s.email], "Conversation #" + NatToString(index + 1)),
      Preview(s),
      if |EntriesOf(s)| > 0 then "active" else "resolved",
      Conversations.FormatTimeAgo(s.localAge),
      |EntriesOf(s)| > 5,
      MessagesOf(EntriesOf(s)))
  }

  function ConversationsOf(sessions: seq<Session>): (cs: seq<EarlyConversation>)
    ensures |cs| == |sessions|
    ensures forall i :: 0 <= i < |cs| ==> cs[i] == ToConversation(sessions[i], i)
  {
    seq(|sessions|, i requires 0 <= i < |sessions| => ToConversation(sessions[i], i))
  }

  /** The search: title or preview contains the query, ignoring case. */
  function FilteredConversations(cs: seq<EarlyConversation>, query: string): (r: seq<EarlyConversation>)
    ensures |r| <= |cs|
    ensures forall c :: c in r <==> c in cs && (ContainsCI(c.title, query) || ContainsCI(c.preview, query))
  {
    if cs == [] then []
    else (if ContainsCI(cs[0].title, query) || ContainsCI(cs[0].preview, query) then [cs[0]] else []) +
         FilteredConversations(cs[1..], query)
  }

  /**
   * `filter` keeps the order and the multiplicity of what it keeps: filtering a
   * concatenation filters each part and concatenates the results.
   */
  lemma {:induction false} FilteredConversationsAppend(a: seq<EarlyConversation>, b: seq<EarlyConversation>, query: string)
    ensures FilteredConversations(a + b, query) == FilteredConversations(a, query) + FilteredConversations(b, query)
  {
    if a == [] {
      assert a + b == b;
    } else {
      var h, ft, fb := (if ContainsCI(a[0].title, query) || ContainsCI(a[0].preview, query) then [a[0]] else []), FilteredConversations(a[1..], query), FilteredConversations(b, query);
      calc {
        FilteredConversations(a + b, query);
        { FilteredConversationsUnfold(a + b, query); ConsAppend(a, b); }
        h + FilteredConversations(a[1..] + b, query);
        { FilteredConversationsAppend(a[1..], b, query); }
        h + (ft + fb);
        { AppendAssoc(h, ft, fb); }
        (h + ft) + fb;
        { FilteredConversationsUnfold(a, query); }
        FilteredConversations(a, query) + fb;
      }
    }
  }

  lemma FilteredConversationsUnfold(a: seq<EarlyConversation>, query: string)
    requires a != []
    ensures FilteredConversations(a, query) == (if ContainsCI(a[0].title, query) || ContainsCI(a[0].preview, query) then [a[0]] else []) + FilteredConversations(a[1..], query)
  {
  }

  class EarlyPage {
    var conversations: seq<EarlyConversation>
    var selected: Option<EarlyConversation>

    constructor ()
      ensures conversations == [] && selected.None?
    {
      conversations, selected := [], None;
    }

    /** The mount-time fetch; `sessions` is `None` when the request failed. */
    method Load(sessions: Option<seq<Session>>)
      modifies this
      ensures sessions.Some? ==> conversations == ConversationsOf(sessions.value)
      ensures sessions.Some? && |sessions.value| > 0 ==> selected == Some(conversations[0])
      ensures sessions.None? || |sessions.value| == 0 ==> selected == old(selected)
      ensures sessions.None? ==> conversations == old(conversations)
    {
      if sessions.Some? {
        conversations := ConversationsOf(sessions.value);
        if |conversations| > 0 {
          selected := Some(conversations[0]);
        }
      }
    }
  }
}

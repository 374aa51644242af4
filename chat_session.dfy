/**
 * What the conversation pages share: a chat session as the backend lists
 * it, the entries of its `conversation` array, the leads that decide which
 * sessions are shown, and the digits-only phone key that links the two
 * (src/modules/admin/conversations/ConversationsPage.jsx and
 * src/modules/admin/pending-conversations/PendingConversationsPage.jsx).
 */
module ChatSession {
  import opened Js
  import Dict

  /** A string field that is present and non-empty, i.e. truthy. */
  predicate Present(s: Option<string>)
  {
    s.Some? && s.value != ""
  }

  /**
   * One entry of a session's `conversation`: a turn (`user` prompt and
   * `bot` reply), a WhatsApp message (`text` and `direction`) or a log line
   * (`role` and `text`).
   */
  datatype Entry = Entry(
    user: Option<string>, bot: Option<string>, text: Option<string>, direction: Option<string>,
    role: Option<string>, botSenderType: Option<string>, agentId: Value)

  /**
   * A chat session. `age` is the time since its `updated_at || created_at`,
   * measured against the caller's clock with a stamp that has no zone read
   * as UTC; `localAge` is the same difference with the stamp parsed as it
   * stands (local time). `index` is the session's own `index` property, and
   * `updatedAt`/`createdAt` are its truthy stamps in milliseconds (`None`
   * when absent or empty).
   */
  datatype Session = Session(
    id: Value, whatsapp: Option<string>, waId: Option<string>, name: Option<string>, email: Option<string>,
    status: Value, closedAt: Value, assignedAgentId: Value, conversation: Option<seq<Entry>>,
    age: Elapsed, localAge: Elapsed, index: Value, updatedAt: Option<int>, createdAt: Option<int>)

  /** A rendered message with only its text and direction (the pending and older pages). */
  datatype Message = Message(text: string, direction: Option<string>)

  /** A lead, as far as the pages use it. */
  datatype Lead = Lead(
    phoneNumber: Option<string>, name: Option<string>, status: Value, assignedAgentId: Value,
    isReported: Value, productInterest: Option<string>)

  /** `phone.replace(/\D/g, '')` for a truthy phone number: the key a lead is filed under. */
  function LeadKey(l: Lead): (k: Option<string>)
    ensures k.Some? <==> Present(l.phoneNumber)
    ensures k.Some? ==> k.value == DigitsOf(l.phoneNumber.value)
  {
    if Present(l.phoneNumber) then Some(DigitsOf(l.phoneNumber.value)) else None
  }

  /** The `forEach` that files the leads, continued from the map `d`. */
  function LeadsInto(d: Dict.Dict<Lead>, leads: seq<Lead>): Dict.Dict<Lead>
    decreases leads
  {
    if leads == [] then d
    else
      var k := LeadKey(leads[0]);
      LeadsInto(if k.Some? then Dict.Put(d, k.value, leads[0]) else d, leads[1..])
  }

  /** `leadsMap`: digits-only phone number to lead. */
  function LeadsMap(leads: seq<Lead>): Dict.Dict<Lead>
  {
    LeadsInto(Dict.Empty(), leads)
  }

  /** The reference reading of the map: the last lead filed under `k`. */
  function LastLeadWith(leads: seq<Lead>, k: string): (r: Option<Lead>)
    ensures r.Some? ==> r.value in leads && LeadKey(r.value) == Some(k)
    ensures r.None? ==> forall i :: 0 <= i < |leads| ==> LeadKey(leads[i]) != Some(k)
  {
    if leads == [] then None
    else
      var rest := LastLeadWith(leads[1..], k);
      if rest.Some? then rest
      else if LeadKey(leads[0]) == Some(k) then Some(leads[0])
      else None
  }

  /** Filing leads one after another leaves each key with the last lead filed under it. */
  lemma {:induction false} LeadsIntoGet(d: Dict.Dict<Lead>, leads: seq<Lead>, k: string)
    ensures Dict.Get(LeadsInto(d, leads), k) ==
            (if LastLeadWith(leads, k).Some? then LastLeadWith(leads, k) else Dict.Get(d, k))
    decreases leads
  {
    if leads != [] {
      var key := LeadKey(leads[0]);
      var d' := if key.Some? then Dict.Put(d, key.value, leads[0]) else d;
      LeadsIntoGet(d', leads[1..], k);
      if key.Some? {
        Dict.PutGet(d, key.value, leads[0], k);
      }
    }
  }

  /** A key of the leads map names the last lead with that digits-only phone number. */
  lemma LeadsMapGet(leads: seq<Lead>, k: string)
    ensures Dict.Get(LeadsMap(leads), k) == LastLeadWith(leads, k)
  {
    LeadsIntoGet(Dict.Empty(), leads, k);
  }

  /** `leadsMap[key] !== undefined`: some lead's phone number has exactly these digits. */
  lemma LeadsMapHasKey(leads: seq<Lead>, k: string)
    ensures Dict.HasKey(LeadsMap(leads), k) <==> exists i :: 0 <= i < |leads| && LeadKey(leads[i]) == Some(k)
  {
    LeadsMapGet(leads, k);
    var r := LastLeadWith(leads, k);
    if r.Some? {
      var i :| 0 <= i < |leads| && leads[i] == r.value;
    }
  }

  /** The imperative `forEach` that fills `leadsMap`. */
  method BuildLeadsMap(leads: seq<Lead>) returns (m: Dict.Dict<Lead>)
    ensures m == LeadsMap(leads)
  {
    m := Dict.Empty();
    var i := 0;
    while i < |leads|
      invariant 0 <= i <= |leads|
      invariant LeadsInto(m, leads[i..]) == LeadsMap(leads)
    {
      assert leads[i..][1..] == leads[i + 1..];
      var l := leads[i];
      if Present(l.phoneNumber) {
        m := Dict.Put(m, DigitsOf(l.phoneNumber.value), l);
      }
      i := i + 1;
    }
  }

  /** The lead of a digits-only key, if any. */
  function LeadFor(leadsMap: Dict.Dict<Lead>, phone: Option<string>): Option<Lead>
  {
    Dict.Get(leadsMap, if Present(phone) then DigitsOf(phone.value) else "")
  }

  /** `a || b || ...` over optional strings: the first present one, else `fallback`. */
  function FirstPresent(candidates: seq<Option<string>>, fallback: string): (r: string)
    ensures (exists i :: 0 <= i < |candidates| && Present(candidates[i])) ==> r != "" && Some(r) in candidates
    ensures (forall i :: 0 <= i < |candidates| ==> !Present(candidates[i])) ==> r == fallback
  {
    if candidates == [] then fallback
    else if Present(candidates[0]) then candidates[0].value
    else
      assert forall i :: 1 <= i < |candidates| ==> candidates[1..][i - 1] == candidates[i];
      FirstPresent(candidates[1..], fallback)
  }

  /** `a || b || c || fallback`, case by case. */
  lemma FirstOfThree(a: Option<string>, b: Option<string>, c: Option<string>, fallback: string)
    ensures Present(a) ==> FirstPresent([a, b, c], fallback) == a.value
    ensures !Present(a) && Present(b) ==> FirstPresent([a, b, c], fallback) == b.value
    ensures !Present(a) && !Present(b) && Present(c) ==> FirstPresent([a, b, c], fallback) == c.value
    ensures !Present(a) && !Present(b) && !Present(c) ==> FirstPresent([a, b, c], fallback) == fallback
  {
    assert [a, b, c][1..] == [b, c];
    assert [b, c][1..] == [c];
    assert [c][1..] == [];
    assert FirstPresent([c], fallback) == if Present(c) then c.value else FirstPresent([], fallback);
    assert FirstPresent([b, c], fallback) == if Present(b) then b.value else FirstPresent([c], fallback);
    assert FirstPresent([a, b, c], fallback) == if Present(a) then a.value else FirstPresent([b, c], fallback);
  }

  /** `lastMsg?.text?.substring(0, n) || lastMsg?.user?.substring(0, n) || 'No messages'`. */
  function PreviewOf(e: Option<Entry>, n: nat): (p: string)
    requires n > 0
    ensures e.Some? && Present(e.value.text) ==> p == Take(e.value.text.value, n)
    ensures e.Some? && !Present(e.value.text) && Present(e.value.user) ==> p == Take(e.value.user.value, n)
    ensures e.None? || (!Present(e.value.text) && !Present(e.value.user)) ==> p == "No messages"
  {
    if e.Some? && Present(e.value.text) then Take(e.value.text.value, n)
    else if e.Some? && Present(e.value.user) then Take(e.value.user.value, n)
    else "No messages"
  }

  /** `session.conversation?.[session.conversation.length - 1]`. */
  function LastEntry(s: Session): (e: Option<Entry>)
    ensures e.Some? <==> s.conversation.Some? && |s.conversation.value| > 0
    ensures e.Some? ==> e.value == s.conversation.value[|s.conversation.value| - 1]
  {
    if s.conversation.Some? && |s.conversation.value| > 0 then Some(s.conversation.value[|s.conversation.value| - 1])
    else None
  }

  /** `session.conversation || []`. */
  function EntriesOf(s: Session): seq<Entry>
  {
    if s.conversation.Some? then s.conversation.value else []
  }

  /**
   * The time since a date string, as the pages see it: absent (falsy),
   * unparsable (`NaN`), or a number of milliseconds (the clock is a
   * parameter of the model).
   */
  datatype Elapsed = NoDate | InvalidDate | ElapsedMs(ms: int)

  /** `Math.floor(a / b)` for a positive `b` (Dafny's `/` floors when `b > 0`). */
  function FloorDiv(a: int, b: int): (q: int)
    requires b > 0
    ensures q * b <= a < q * b + b
  {
    a / b
  }

  /** Flooring to minutes, then to hours, then to days gives the whole hours and whole days of the difference. */
  lemma NestedFloors(ms: int)
    ensures FloorDiv(FloorDiv(ms, 60000), 60) == FloorDiv(ms, 3600000)
    ensures FloorDiv(FloorDiv(FloorDiv(ms, 60000), 60), 24) == FloorDiv(ms, 86400000)
  {
    var m := FloorDiv(ms, 60000);
    var h := FloorDiv(m, 60);
    var d := FloorDiv(h, 24);
    assert h * 3600000 <= ms < h * 3600000 + 3600000 by {
      assert m * 60000 <= ms < m * 60000 + 60000;
      assert h * 60 <= m < h * 60 + 60;
      assert h * 3600000 == (h * 60) * 60000;
      assert (h * 60 + 60) * 60000 == h * 3600000 + 3600000;
    }
    assert d * 86400000 <= ms < d * 86400000 + 86400000 by {
      assert d * 24 <= h < d * 24 + 24;
      assert d * 86400000 == (d * 24) * 3600000;
      assert (d * 24 + 24) * 3600000 == d * 86400000 + 86400000;
    }
  }
}

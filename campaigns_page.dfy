/**
 * The campaigns page (src/modules/admin/campaigns/CampaignsPage.jsx): the
 * create dialog's checks and payload, its contact selection, the contact
 * panel's paging, and the campaign list's filter, order and delete.
 */
module CampaignsPage {
  import opened Js
  import Sorting

  datatype MessageType = Custom | Template

  /** The body of the create and quick-send calls; `None` is `null`. */
  datatype CampaignData = CampaignData(name: string, messageType: MessageType, messageContent: Option<string>,
                                       templateId: Option<string>, category: string)

  const NameRequired := "Campaign name is required"
  const MessageRequired := "Message content is required"
  const TemplateRequired := "Please select a template"
  const ContactsRequired := "Please select at least one contact from the right panel"

  /** `validateForm`: the first failing check's alert, in order name, message, template. */
  function FormError(name: string, messageType: MessageType, customMessage: string, selectedTemplate: string): (e: Option<string>)
    ensures e.None? <==> Trim(name) != "" && (messageType == Custom ==> Trim(customMessage) != "") &&
                         (messageType == Template ==> selectedTemplate != "")
    ensures Trim(name) == "" ==> e == Some(NameRequired)
    ensures Trim(name) != "" && messageType == Custom && Trim(customMessage) == "" ==> e == Some(MessageRequired)
    ensures Trim(name) != "" && messageType == Template && selectedTemplate == "" ==> e == Some(TemplateRequired)
  {
    if Trim(name) == "" then Some(NameRequired)
    else if messageType == Custom && Trim(customMessage) == "" then Some(MessageRequired)
    else if messageType == Template && selectedTemplate == "" then Some(TemplateRequired)
    else None
  }

  /** `getCampaignData`: the trimmed name, and only the content that matches the message type. */
  function DataOf(name: string, messageType: MessageType, customMessage: string, selectedTemplate: string, category: string): (d: CampaignData)
    ensures d.name == Trim(name) && d.messageType == messageType && d.category == category
    ensures d.messageContent.Some? <==> messageType == Custom
    ensures d.templateId.Some? <==> messageType == Template
    ensures d.messageContent.Some? ==> d.messageContent.value == customMessage
    ensures d.templateId.Some? ==> d.templateId.value == selectedTemplate
  {
    CampaignData(Trim(name), messageType,
                 if messageType == Custom then Some(customMessage) else None,
                 if messageType == Template then Some(selectedTemplate) else None,
                 category)
  }

  /** A checked form sends a name with something besides spaces. */
  lemma ValidDataHasName(name: string, messageType: MessageType, customMessage: string, selectedTemplate: string, category: string)
    requires FormError(name, messageType, customMessage, selectedTemplate).None?
    ensures DataOf(name, messageType, customMessage, selectedTemplate, category).name != ""
  {
  }

  /** The contact toggle: an id in the set is removed, any other is added. */
  function Toggled(selected: set<int>, id: int): (r: set<int>)
    ensures id in r <==> id !in selected
    ensures forall x :: x != id ==> (x in r <==> x in selected)
  {
    if id in selected then selected - {id} else selected + {id}
  }

  /** Toggling the same contact twice restores the selection. */
  lemma ToggleTwice(selected: set<int>, id: int)
    ensures Toggled(Toggled(selected, id), id) == selected
  {
  }

  /** How a create or quick-send call ended; `sentCount` is the reply's `stats.sent` (`None` or 0 when missing). */
  datatype CallResult = CallOk(sentCount: Option<nat>) | CallFailed(message: string)

  /** The request a save sends. */
  datatype Request = CreateDraft(data: CampaignData) | QuickSend(data: CampaignData, contactIds: set<int>)

  datatype View = FormView | ContactsView

  class CreateCampaignModal {
    var view: View
    var selectedContacts: set<int>
    var name: string
    var messageType: MessageType
    var customMessage: string
    var selectedTemplate: string
    var category: string
    /** Whether the dialog is open (`onClose` closes it). */
    var isOpen: bool

    /** The form fields as they are after `resetForm`. */
    predicate FormReset()
      reads this
    {
      view == FormView && name == "" && messageType == Custom && customMessage == "" &&
      selectedTemplate == "" && category == "marketing"
    }

    /** The view and the form fields, which a refused or failed save leaves as they were. */
    function Form(): (View, string, MessageType, string, string, string)
      reads this
    {
      (view, name, messageType, customMessage, selectedTemplate, category)
    }

    constructor ()
      ensures FormReset() && selectedContacts == {} && isOpen
    {
      view, selectedContacts := FormView, {};
      name, messageType, customMessage, selectedTemplate, category := "", Custom, "", "", "marketing";
      isOpen := true;
    }

    method ToggleContact(id: int)
      modifies this
      ensures selectedContacts == Toggled(old(selectedContacts), id)
      ensures view == old(view) && name == old(name) && messageType == old(messageType) && customMessage == old(customMessage)
      ensures selectedTemplate == old(selectedTemplate) && category == old(category) && isOpen == old(isOpen)
    {
      selectedContacts := Toggled(selectedContacts, id);
    }

    /** `resetForm`: every field back to its default; the selected contacts are kept. */
    method ResetForm()
      modifies this
      ensures FormReset() && selectedContacts == old(selectedContacts) && isOpen == old(isOpen)
    {
      view := FormView;
      name, messageType, customMessage, selectedTemplate, category := "", Custom, "", "", "marketing";
    }

    /** `handleSaveDraft`: a checked form is created; success closes and resets, failure alerts. */
    method SaveDraft(result: CallResult) returns (request: Option<Request>, alert: Option<string>)
      modifies this
      ensures var e := FormError(old(name), old(messageType), old(customMessage), old(selectedTemplate));
              if e.Some? then
                request.None? && alert == e && isOpen == old(isOpen) && Form() == old(Form())
              else
                request == Some(CreateDraft(DataOf(old(name), old(messageType), old(customMessage), old(selectedTemplate), old(category)))) &&
                (result.CallOk? ==> alert.None? && !isOpen && FormReset()) &&
                (result.CallFailed? ==> alert == Some("Failed to create campaign") && isOpen == old(isOpen) && Form() == old(Form()))
      ensures selectedContacts == old(selectedContacts)
    {
      var e := FormError(name, messageType, customMessage, selectedTemplate);
      if e.Some? {
        return None, e;
      }
      request := Some(CreateDraft(DataOf(name, messageType, customMessage, selectedTemplate, category)));
      alert := None;
      if result.CallOk? {
        isOpen := false;
        ResetForm();
      } else {
        alert := Some("Failed to create campaign");
      }
    }

    /**
     * `handleSaveAndSend`: a checked form with at least one selected
     * contact is sent in one call; success reports the queued count and
     * closes, failure alerts with the error's message.
     */
    method SaveAndSend(result: CallResult) returns (request: Option<Request>, alert: string)
      modifies this
      ensures var e := FormError(old(name), old(messageType), old(customMessage), old(selectedTemplate));
              if e.Some? then request.None? && alert == e.value && isOpen == old(isOpen) && Form() == old(Form())
              else if old(selectedContacts) == {} then request.None? && alert == ContactsRequired && isOpen == old(isOpen) && Form() == old(Form())
              else
                request == Some(QuickSend(DataOf(old(name), old(messageType), old(customMessage), old(selectedTemplate), old(category)),
                                          old(selectedContacts))) &&
                match result
                case CallOk(sent) =>
                  !isOpen && FormReset() &&
                  alert == "Campaign sent! " + NatToString(if sent.Some? && sent.value != 0 then sent.value else |old(selectedContacts)|) + " messages queued."
                case CallFailed(m) =>
                  isOpen == old(isOpen) && Form() == old(Form()) &&
                  alert == "Failed to send campaign: " + (if m != "" then m else "Unknown error")
      ensures selectedContacts == old(selectedContacts)
    {
      var e := FormError(name, messageType, customMessage, selectedTemplate);
      if e.Some? {
        return None, e.value;
      }
      if |selectedContacts| == 0 {
        return None, ContactsRequired;
      }
      request := Some(QuickSend(DataOf(name, messageType, customMessage, selectedTemplate, category), selectedContacts));
      match result
      case CallOk(sent) =>
        var count := if sent.Some? && sent.value != 0 then sent.value else |selectedContacts|;
        alert := "Campaign sent! " + NatToString(count) + " messages queued.";
        isOpen := false;
        ResetForm();
      case CallFailed(m) =>
        alert := "Failed to send campaign: " + (if m != "" then m else "Unknown error");
    }
  }

  /** Query parameter `key` appears in `q`. */
  predicate HasKey(q: seq<(string, string)>, key: string)
  {
    exists i :: 0 <= i < |q| && q[i].0 == key
  }

  lemma HasKeyAppend(a: seq<(string, string)>, b: seq<(string, string)>, key: string)
    ensures HasKey(a + b, key) <==> HasKey(a, key) || HasKey(b, key)
  {
    if HasKey(a + b, key) {
      var i :| 0 <= i < |a + b| && (a + b)[i].0 == key;
      if i >= |a| {
        assert b[i - |a|] == (a + b)[i];
      }
    }
    if HasKey(a, key) {
      var i :| 0 <= i < |a| && a[i].0 == key;
      assert (a + b)[i] == a[i];
    }
    if HasKey(b, key) {
      var i :| 0 <= i < |b| && b[i].0 == key;
      assert (a + b)[|a| + i] == b[i];
    }
  }

  /** A key that only `mid` may hold is present in the query exactly when `mid` holds it, wherever `other` sits. */
  lemma QueryKeyOnce(head: seq<(string, string)>, mid: seq<(string, string)>, other: seq<(string, string)>,
                     tail: seq<(string, string)>, key: string)
    requires !HasKey(head, key) && !HasKey(other, key) && !HasKey(tail, key)
    ensures HasKey(head + mid + other + tail, key) <==> HasKey(mid, key)
    ensures HasKey(head + other + mid + tail, key) <==> HasKey(mid, key)
  {
    HasKeyAppend(head, mid, key);
    HasKeyAppend(head + mid, other, key);
    HasKeyAppend(head + mid + other, tail, key);
    HasKeyAppend(head, other, key);
    HasKeyAppend(head + other, mid, key);
    HasKeyAppend(head + other + mid, tail, key);
  }

  /** The parameters of the contact fetch, in the order they are appended. */
  function FetchQuery(page: nat, searchQuery: string, statusFilter: string, sortBy: string): seq<(string, string)>
  {
    [("skip", NatToString(page * Limit)), ("limit", NatToString(Limit))]
      + (if searchQuery != "" then [("search", searchQuery)] else [])
      + (if statusFilter != "all" then [("status", statusFilter)] else [])
      + [("sort_by", sortBy)]
  }

  lemma QueryShape(page: nat, searchQuery: string, statusFilter: string, sortBy: string)
    ensures var q := FetchQuery(page, searchQuery, statusFilter, sortBy);
      |q| == 3 + (if searchQuery != "" then 1 else 0) + (if statusFilter != "all" then 1 else 0) &&
      q[0] == ("skip", NatToString(page * Limit)) && q[1] == ("limit", NatToString(Limit)) &&
      q[|q| - 1] == ("sort_by", sortBy)
  {
  }

  lemma QueryKeys(page: nat, searchQuery: string, statusFilter: string, sortBy: string)
    ensures HasKey(FetchQuery(page, searchQuery, statusFilter, sortBy), "search") <==> searchQuery != ""
    ensures HasKey(FetchQuery(page, searchQuery, statusFilter, sortBy), "status") <==> statusFilter != "all"
  {
    var head := [("skip", NatToString(page * Limit)), ("limit", NatToString(Limit))];
    var search := if searchQuery != "" then [("search", searchQuery)] else [];
    var status := if statusFilter != "all" then [("status", statusFilter)] else [];
    var tail := [("sort_by", sortBy)];
    assert "skip"[1] != "search"[1] && "limit"[0] != "search"[0] && "sort_by"[1] != "search"[1] && "status"[1] != "search"[1];
    assert "skip"[1] != "status"[1] && "limit"[0] != "status"[0] && "sort_by"[1] != "status"[1];
    assert HasKey(search, "search") <==> searchQuery != "" by {
      if searchQuery != "" { assert search[0].0 == "search"; }
    }
    assert HasKey(status, "status") <==> statusFilter != "all" by {
      if statusFilter != "all" { assert status[0].0 == "status"; }
    }
    QueryKeyOnce(head, search, status, tail, "search");
    QueryKeyOnce(head, status, search, tail, "status");
  }

  /** The contact panel's page size. */
  const Limit := 20

  /** The contact panel's paging and filters. */
  class ContactPanel {
    var page: nat
    var searchQuery: string
    var statusFilter: string
    var sortBy: string
    /** The `total` of the last response (`data.total || 0`). */
    var total: int

    constructor ()
      ensures page == 0 && searchQuery == "" && statusFilter == "all" && sortBy == "desc" && total == 0
    {
      page, searchQuery, statusFilter, sortBy, total := 0, "", "all", "desc", 0;
    }

    /** Next is disabled once this page reaches the total. */
    predicate NextDisabled()
      reads this
    {
      (page + 1) * Limit >= total
    }

    /** The query of the fetch: skip, limit, the search when typed, the status unless `all`, and the order. */
    function Query(): (q: seq<(string, string)>)
      reads this
      ensures |q| == 3 + (if searchQuery != "" then 1 else 0) + (if statusFilter != "all" then 1 else 0)
      ensures q[0] == ("skip", NatToString(page * Limit)) && q[1] == ("limit", NatToString(Limit))
      ensures q[|q| - 1] == ("sort_by", sortBy)
      ensures (exists i :: 0 <= i < |q| && q[i].0 == "search") <==> searchQuery != ""
      ensures (exists i :: 0 <= i < |q| && q[i].0 == "status") <==> statusFilter != "all"
    {
      QueryShape(page, searchQuery, statusFilter, sortBy);
      QueryKeys(page, searchQuery, statusFilter, sortBy);
      FetchQuery(page, searchQuery, statusFilter, sortBy)
    }

    /** Typing a search goes back to the first page. */
    method Search(q: string)
      modifies this
      ensures searchQuery == q && page == 0
      ensures statusFilter == old(statusFilter) && sortBy == old(sortBy) && total == old(total)
    {
      searchQuery := q;
      page := 0;
    }

    /** Choosing a status goes back to the first page. */
    method ChooseStatus(v: string)
      modifies this
      ensures statusFilter == v && page == 0
      ensures searchQuery == old(searchQuery) && sortBy == old(sortBy) && total == old(total)
    {
      statusFilter, page := v, 0;
    }

    /** Choosing an order goes back to the first page. */
    method ChooseSort(v: string)
      modifies this
      ensures sortBy == v && page == 0
      ensures searchQuery == old(searchQuery) && statusFilter == old(statusFilter) && total == old(total)
    {
      sortBy, page := v, 0;
    }

    /** Previous: `Math.max(0, page - 1)`. */
    method Previous()
      modifies this
      ensures page == if old(page) == 0 then 0 else old(page) - 1
      ensures searchQuery == old(searchQuery) && statusFilter == old(statusFilter) && sortBy == old(sortBy) && total == old(total)
    {
      if page > 0 {
        page := page - 1;
      }
    }

    /** Next: a click on the disabled button does nothing. */
    method Next()
      modifies this
      ensures page == if old(NextDisabled()) then old(page) else old(page) + 1
      ensures searchQuery == old(searchQuery) && statusFilter == old(statusFilter) && sortBy == old(sortBy) && total == old(total)
    {
      if !NextDisabled() {
        page := page + 1;
      }
    }
  }

  datatype Campaign = Campaign(id: int, name: Option<string>, createdAt: Option<int>)

  function CampaignCreated(c: Campaign): Option<int>
  {
    c.createdAt
  }

  /** `c.name?.toLowerCase().includes(query.toLowerCase())`: a campaign without a name never matches. */
  predicate NameMatches(c: Campaign, query: string)
  {
    c.name.Some? && ContainsCI(c.name.value, query)
  }

  function MatchingCampaigns(cs: seq<Campaign>, query: string): (r: seq<Campaign>)
    ensures |r| <= |cs|
    ensures forall c :: c in r <==> c in cs && NameMatches(c, query)
    ensures multiset(r) <= multiset(cs)
  {
    if cs == [] then []
    else
      assert cs == [cs[0]] + cs[1..];
      (if NameMatches(cs[0], query) then [cs[0]] else []) + MatchingCampaigns(cs[1..], query)
  }

  /**
   * `filter` keeps the order and the multiplicity of what it keeps: filtering a
   * concatenation filters each part and concatenates the results.
   */
  lemma {:induction false} MatchingCampaignsAppend(a: seq<Campaign>, b: seq<Campaign>, query: string)
    ensures MatchingCampaigns(a + b, query) == MatchingCampaigns(a, query) + MatchingCampaigns(b, query)
  {
    if a == [] {
      assert a + b == b;
    } else {
      var h, ft, fb := (if NameMatches(a[0], query) then [a[0]] else []), MatchingCampaigns(a[1..], query), MatchingCampaigns(b, query);
      calc {
        MatchingCampaigns(a + b, query);
        { MatchingCampaignsUnfold(a + b, query); ConsAppend(a, b); }
        h + MatchingCampaigns(a[1..] + b, query);
        { MatchingCampaignsAppend(a[1..], b, query); }
        h + (ft + fb);
        { AppendAssoc(h, ft, fb); }
        (h + ft) + fb;
        { MatchingCampaignsUnfold(a, query); }
        MatchingCampaigns(a, query) + fb;
      }
    }
  }

  lemma MatchingCampaignsUnfold(a: seq<Campaign>, query: string)
    requires a != []
    ensures MatchingCampaigns(a, query) == (if NameMatches(a[0], query) then [a[0]] else []) + MatchingCampaigns(a[1..], query)
  {
  }

  /** The list shown: the matching campaigns, newest first for `newest` and oldest first otherwise. */
  function ShownCampaigns(cs: seq<Campaign>, query: string, sortOrder: string): (r: seq<Campaign>)
    ensures multiset(r) == multiset(MatchingCampaigns(cs, query))
    ensures forall c :: c in r <==> c in cs && NameMatches(c, query)
    ensures Sorting.Sorted(CampaignCreated, sortOrder == "newest", r)
  {
    var m := MatchingCampaigns(cs, query);
    var r := Sorting.SortBy(CampaignCreated, sortOrder == "newest", m);
    assert forall c :: c in r <==> c in multiset(m);
    r
  }

  /** A successful delete: `prev.filter(c => c.id !== id)`. */
  function WithoutCampaign(cs: seq<Campaign>, id: int): (r: seq<Campaign>)
    ensures |r| <= |cs|
    ensures forall c :: c in r <==> c in cs && c.id != id
  {
    if cs == [] then []
    else
      assert forall c :: c in cs <==> c == cs[0] || c in cs[1..];
      (if cs[0].id != id then [cs[0]] else []) + WithoutCampaign(cs[1..], id)
  }

  /**
   * `filter` keeps the order and the multiplicity of what it keeps: filtering a
   * concatenation filters each part and concatenates the results.
   */
  lemma {:induction false} WithoutCampaignAppend(a: seq<Campaign>, b: seq<Campaign>, id: int)
    ensures WithoutCampaign(a + b, id) == WithoutCampaign(a, id) + WithoutCampaign(b, id)
  {
    if a == [] {
      assert a + b == b;
    } else {
      var h, ft, fb := (if a[0].id != id then [a[0]] else []), WithoutCampaign(a[1..], id), WithoutCampaign(b, id);
      calc {
        WithoutCampaign(a + b, id);
        { WithoutCampaignUnfold(a + b, id); ConsAppend(a, b); }
        h + WithoutCampaign(a[1..] + b, id);
        { WithoutCampaignAppend(a[1..], b, id); }
        h + (ft + fb);
        { AppendAssoc(h, ft, fb); }
        (h + ft) + fb;
        { WithoutCampaignUnfold(a, id); }
        WithoutCampaign(a, id) + fb;
      }
    }
  }

  lemma WithoutCampaignUnfold(a: seq<Campaign>, id: int)
    requires a != []
    ensures WithoutCampaign(a, id) == (if a[0].id != id then [a[0]] else []) + WithoutCampaign(a[1..], id)
  {
  }
}

/**
 * The dashboard header (src/components/admin/dashboard/DashboardHeader.jsx):
 * the section search, the notification list and the local workspace list.
 */
module DashboardHeader {
  import opened Js

  /** A searchable dashboard section. */
  datatype Section = Section(id: string, name: string, description: string)

  const Sections: seq<Section> := [
    Section("hero-cards", "Wallet & Costs", "Wallet balance, LLM and WhatsApp costs"),
    Section("metrics-grid", "Metrics Overview", "Conversations, users, delivery success"),
    Section("conversation-volume", "Conversation Volume", "Weekly bar chart comparison"),
    Section("resolution-breakdown", "Resolution Breakdown", "AI resolved, human handled, escalated"),
    Section("delivery-overview", "Message Delivery", "Sent, delivered, read, failed stats"),
    Section("recent-conversations", "Recent Conversations", "Latest chat interactions"),
    Section("hourly-activity", "Hourly Activity", "Messages per hour chart"),
    Section("template-performance", "Template Performance", "Template analytics and rates")]

  /** The lower-cased name or description contains the lower-cased query (the query is not trimmed). */
  predicate SectionMatches(s: Section, query: string)
  {
    ContainsCI(s.name, query) || ContainsCI(s.description, query)
  }

  /** `sections.filter(...)`, in order. */
  function MatchingSections(sections: seq<Section>, query: string): (r: seq<Section>)
    ensures |r| <= |sections|
    ensures forall s :: s in r <==> s in sections && SectionMatches(s, query)
  {
    if sections == [] then []
    else
      var rest := MatchingSections(sections[1..], query);
      assert forall s :: s in sections <==> s == sections[0] || s in sections[1..];
      (if SectionMatches(sections[0], query) then [sections[0]] else []) + rest
  }

  /**
   * `filter` keeps the order and the multiplicity of what it keeps: filtering a
   * concatenation filters each part and concatenates the results.
   */
  lemma {:induction false} MatchingSectionsAppend(a: seq<Section>, b: seq<Section>, query: string)
    ensures MatchingSections(a + b, query) == MatchingSections(a, query) + MatchingSections(b, query)
  {
    if a == [] {
      assert a + b == b;
    } else {
      var h, ft, fb := (if SectionMatches(a[0], query) then [a[0]] else []), MatchingSections(a[1..], query), MatchingSections(b, query);
      calc {
        MatchingSections(a + b, query);
        { MatchingSectionsUnfold(a + b, query); ConsAppend(a, b); }
        h + MatchingSections(a[1..] + b, query);
        { MatchingSectionsAppend(a[1..], b, query); }
        h + (ft + fb);
        { AppendAssoc(h, ft, fb); }
        (h + ft) + fb;
        { MatchingSectionsUnfold(a, query); }
        MatchingSections(a, query) + fb;
      }
    }
  }

  lemma MatchingSectionsUnfold(a: seq<Section>, query: string)
    requires a != []
    ensures MatchingSections(a, query) == (if SectionMatches(a[0], query) then [a[0]] else []) + MatchingSections(a[1..], query)
  {
  }

  /** A section's own name finds it. */
  lemma NameFindsSection(i: nat)
    requires i < |Sections|
    ensures Sections[i] in MatchingSections(Sections, Sections[i].name)
  {
    var n := Lower(Sections[i].name);
    assert StartsWith(n[0..], n);
  }

  datatype Workspace = Workspace(id: int, name: string)

  datatype Notification = Notification(id: int, text: string)

  /** `notifications.filter(n => n.id !== id)`. */
  function WithoutNotification(ns: seq<Notification>, id: int): (r: seq<Notification>)
    ensures |r| <= |ns|
    ensures forall n :: n in r <==> n in ns && n.id != id
  {
    if ns == [] then []
    else
      var rest := WithoutNotification(ns[1..], id);
      assert forall n :: n in ns <==> n == ns[0] || n in ns[1..];
      (if ns[0].id != id then [ns[0]] else []) + rest
  }

  /**
   * `filter` keeps the order and the multiplicity of what it keeps: filtering a
   * concatenation filters each part and concatenates the results.
   */
  lemma {:induction false} WithoutNotificationAppend(a: seq<Notification>, b: seq<Notification>, id: int)
    ensures WithoutNotification(a + b, id) == WithoutNotification(a, id) + WithoutNotification(b, id)
  {
    if a == [] {
      assert a + b == b;
    } else {
      var h, ft, fb := (if a[0].id != id then [a[0]] else []), WithoutNotification(a[1..], id), WithoutNotification(b, id);
      calc {
        WithoutNotification(a + b, id);
        { WithoutNotificationUnfold(a + b, id); ConsAppend(a, b); }
        h + WithoutNotification(a[1..] + b, id);
        { WithoutNotificationAppend(a[1..], b, id); }
        h + (ft + fb);
        { AppendAssoc(h, ft, fb); }
        (h + ft) + fb;
        { WithoutNotificationUnfold(a, id); }
        WithoutNotification(a, id) + fb;
      }
    }
  }

  lemma WithoutNotificationUnfold(a: seq<Notification>, id: int)
    requires a != []
    ensures WithoutNotification(a, id) == (if a[0].id != id then [a[0]] else []) + WithoutNotification(a[1..], id)
  {
  }

  const DefaultWorkspace := Workspace(1, "Default Workspace")

  class Header {
    /** The sections the box searches (the page's constant list). */
    var sections: seq<Section>
    var workspaces: seq<Workspace>
    var active: Workspace
    var showWorkspaceDropdown: bool
    var showCreateWorkspace: bool
    var newWorkspaceName: string
    var notifications: seq<Notification>
    var showNotifications: bool
    var searchQuery: string
    var searchResults: seq<Section>
    var showSearchResults: bool

    /** The active workspace is one of the list, and the results are sections of the dashboard. */
    predicate Valid()
      reads this
    {
      active in workspaces && forall s :: s in searchResults ==> s in sections
    }

    constructor ()
      ensures Valid() && sections == Sections
      ensures workspaces == [DefaultWorkspace] && active == DefaultWorkspace && newWorkspaceName == ""
      ensures notifications == [] && !showNotifications && !showWorkspaceDropdown && !showCreateWorkspace
      ensures searchQuery == "" && searchResults == [] && !showSearchResults
    {
      sections := Sections;
      workspaces, active := [DefaultWorkspace], DefaultWorkspace;
      showWorkspaceDropdown, showCreateWorkspace, newWorkspaceName := false, false, "";
      notifications, showNotifications := [], false;
      searchQuery, searchResults, showSearchResults := "", [], false;
    }

    /** `handleSearch`: a query with something besides spaces lists the matching sections; otherwise nothing is shown. */
    method Search(query: string)
      requires Valid()
      modifies this
      ensures Valid() && sections == old(sections)
      ensures searchQuery == query
      ensures Trim(query) != "" ==> searchResults == MatchingSections(sections, query) && showSearchResults
      ensures Trim(query) == "" ==> searchResults == [] && !showSearchResults
      ensures workspaces == old(workspaces) && active == old(active) && notifications == old(notifications)
      ensures newWorkspaceName == old(newWorkspaceName) && showNotifications == old(showNotifications)
      ensures showWorkspaceDropdown == old(showWorkspaceDropdown) && showCreateWorkspace == old(showCreateWorkspace)
    {
      var matching := if Trim(query) != "" then MatchingSections(sections, query) else [];
      searchQuery, searchResults, showSearchResults := query, matching, Trim(query) != "";
    }

    /** Focusing the box: an empty query lists all eight sections. */
    method Focus()
      requires Valid()
      modifies this
      ensures Valid() && sections == old(sections) && showSearchResults
      ensures searchQuery == "" ==> searchResults == sections
      ensures searchQuery != "" ==> searchResults == old(searchResults)
      ensures searchQuery == old(searchQuery) && workspaces == old(workspaces) && active == old(active)
      ensures notifications == old(notifications) && newWorkspaceName == old(newWorkspaceName)
      ensures showNotifications == old(showNotifications)
      ensures showWorkspaceDropdown == old(showWorkspaceDropdown) && showCreateWorkspace == old(showCreateWorkspace)
    {
      if searchQuery == "" {
        searchResults := sections;
      }
      showSearchResults := true;
    }

    /** `handleSectionClick`: the query is cleared, the results hidden, and the section is scrolled to. */
    method SectionClick(sectionId: string) returns (scrollTo: string)
      requires Valid()
      modifies this
      ensures Valid() && sections == old(sections) && scrollTo == sectionId
      ensures searchQuery == "" && !showSearchResults && searchResults == old(searchResults)
      ensures workspaces == old(workspaces) && active == old(active) && notifications == old(notifications)
      ensures newWorkspaceName == old(newWorkspaceName) && showNotifications == old(showNotifications)
      ensures showWorkspaceDropdown == old(showWorkspaceDropdown) && showCreateWorkspace == old(showCreateWorkspace)
    {
      showSearchResults := false;
      searchQuery := "";
      scrollTo := sectionId;
    }

    method MarkAllRead()
      requires Valid()
      modifies this
      ensures Valid() && sections == old(sections) && notifications == [] && !showNotifications
      ensures workspaces == old(workspaces) && active == old(active) && newWorkspaceName == old(newWorkspaceName)
      ensures searchQuery == old(searchQuery) && searchResults == old(searchResults)
      ensures showSearchResults == old(showSearchResults)
      ensures showWorkspaceDropdown == old(showWorkspaceDropdown) && showCreateWorkspace == old(showCreateWorkspace)
    {
      notifications := [];
      showNotifications := false;
    }

    method DismissNotification(id: int)
      requires Valid()
      modifies this
      ensures Valid() && sections == old(sections) && notifications == WithoutNotification(old(notifications), id)
      ensures showNotifications == old(showNotifications)
      ensures workspaces == old(workspaces) && active == old(active) && newWorkspaceName == old(newWorkspaceName)
      ensures searchQuery == old(searchQuery) && searchResults == old(searchResults)
      ensures showSearchResults == old(showSearchResults)
      ensures showWorkspaceDropdown == old(showWorkspaceDropdown) && showCreateWorkspace == old(showCreateWorkspace)
    {
      notifications := WithoutNotification(notifications, id);
    }

    /**
     * `createWorkspace`; `freshId` stands for `Date.now()`. A name with
     * something besides spaces is trimmed, appended and made active, and the
     * input is cleared; otherwise nothing changes.
     */
    method CreateWorkspace(freshId: int)
      requires Valid()
      modifies this
      ensures Valid() && sections == old(sections)
      ensures var name := Trim(old(newWorkspaceName));
              if name != "" then
                workspaces == old(workspaces) + [Workspace(freshId, name)] && active == Workspace(freshId, name) &&
                newWorkspaceName == "" && !showCreateWorkspace && !showWorkspaceDropdown
              else
                workspaces == old(workspaces) && active == old(active) && newWorkspaceName == old(newWorkspaceName) &&
                showCreateWorkspace == old(showCreateWorkspace) && showWorkspaceDropdown == old(showWorkspaceDropdown)
      ensures notifications == old(notifications) && showNotifications == old(showNotifications)
      ensures searchQuery == old(searchQuery) && searchResults == old(searchResults)
      ensures showSearchResults == old(showSearchResults)
    {
      var name := Trim(newWorkspaceName);
      if name != "" {
        var w := Workspace(freshId, name);
        var ws := workspaces + [w];
        assert ws[|ws| - 1] == w;
        workspaces, active, newWorkspaceName, showCreateWorkspace, showWorkspaceDropdown := ws, w, "", false, false;
      }
    }
  }
}

/**
 * The knowledge base page over content groups
 * (src/modules/admin/knowledge-base/KnowledgeBasePage.jsx): the search
 * filter, the date sort, the category list and the optimistic delete that
 * rolls back when the call fails.
 */
module KnowledgeGroups {
  import opened Js
  import Sorting

  /** A group as the page reads it; `None` fields are missing. */
  datatype Group = Group(groupId: int, title: Option<string>, contentPreview: Option<string>, url: Option<string>,
                         category: Option<string>, createdAt: Option<int>)

  /** What `getKnowledgeGroups` answers; `None` parts are missing from the body. */
  datatype GroupsResponse = GroupsResponse(groups: Option<seq<Group>>, totalGroups: Option<int>)

  /** `field?.toLowerCase().includes(query.toLowerCase())`: a missing field never matches. */
  predicate FieldMatches(field: Option<string>, query: string)
  {
    field.Some? && ContainsCI(field.value, query)
  }

  /** The search test: the title, the content preview or the url contains the query, ignoring case. */
  predicate Matches(g: Group, query: string)
  {
    FieldMatches(g.title, query) || FieldMatches(g.contentPreview, query) || FieldMatches(g.url, query)
  }

  function Filtered(groups: seq<Group>, query: string): (r: seq<Group>)
    ensures |r| <= |groups|
    ensures forall g :: g in r <==> g in groups && Matches(g, query)
    ensures multiset(r) <= multiset(groups)
  {
    if groups == [] then []
    else
      assert groups == [groups[0]] + groups[1..];
      (if Matches(groups[0], query) then [groups[0]] else []) + Filtered(groups[1..], query)
  }

  /**
   * `filter` keeps the order and the multiplicity of what it keeps: filtering a
   * concatenation filters each part and concatenates the results.
   */
  lemma {:induction false} FilteredAppend(a: seq<Group>, b: seq<Group>, query: string)
    ensures Filtered(a + b, query) == Filtered(a, query) + Filtered(b, query)
  {
    if a == [] {
      assert a + b == b;
    } else {
      var h, ft, fb := (if Matches(a[0], query) then [a[0]] else []), Filtered(a[1..], query), Filtered(b, query);
      calc {
        Filtered(a + b, query);
        { FilteredUnfold(a + b, query); ConsAppend(a, b); }
        h + Filtered(a[1..] + b, query);
        { FilteredAppend(a[1..], b, query); }
        h + (ft + fb);
        { AppendAssoc(h, ft, fb); }
        (h + ft) + fb;
        { FilteredUnfold(a, query); }
        Filtered(a, query) + fb;
      }
    }
  }

  lemma FilteredUnfold(a: seq<Group>, query: string)
    requires a != []
    ensures Filtered(a, query) == (if Matches(a[0], query) then [a[0]] else []) + Filtered(a[1..], query)
  {
  }

  function GroupCreated(g: Group): Option<int>
  {
    g.createdAt
  }

  /** The list shown: the matching groups, newest first for `'newest'` and oldest first for any other order. */
  function Shown(groups: seq<Group>, query: string, sortOrder: string): (r: seq<Group>)
    ensures multiset(r) == multiset(Filtered(groups, query))
    ensures forall g :: g in r <==> g in groups && Matches(g, query)
    ensures Sorting.Sorted(GroupCreated, sortOrder == "newest", r)
  {
    var m := Filtered(groups, query);
    var r := Sorting.SortBy(GroupCreated, sortOrder == "newest", m);
    assert forall g :: g in r <==> g in multiset(m);
    r
  }

  /** The two sort orders put the same pair of dated groups the opposite way round. */
  lemma OrdersOpposite(groups: seq<Group>, query: string, a: Group, b: Group)
    requires a.createdAt.Some? && b.createdAt.Some? && a.createdAt.value < b.createdAt.value
    requires a in groups && b in groups && Matches(a, query) && Matches(b, query)
    ensures var newest := Shown(groups, query, "newest");
            exists i, j :: 0 <= i < j < |newest| && newest[i] == b && newest[j] == a
    ensures var oldest := Shown(groups, query, "oldest");
            exists i, j :: 0 <= i < j < |oldest| && oldest[i] == a && oldest[j] == b
  {
    var newest := Shown(groups, query, "newest");
    var i, j := Sorting.Separated(GroupCreated, true, newest, b, a);
    var oldest := Shown(groups, query, "oldest");
    i, j := Sorting.Separated(GroupCreated, false, oldest, a, b);
  }

  /** `prev.filter(g => g.group_id !== id)`. */
  function WithoutGroup(groups: seq<Group>, id: int): (r: seq<Group>)
    ensures |r| <= |groups|
    ensures forall g :: g in r <==> g in groups && g.groupId != id
    ensures (forall g :: g in groups ==> g.groupId != id) ==> r == groups
  {
    if groups == [] then []
    else
      assert groups == [groups[0]] + groups[1..];
      (if groups[0].groupId != id then [groups[0]] else []) + WithoutGroup(groups[1..], id)
  }

  /**
   * `filter` keeps the order and the multiplicity of what it keeps: filtering a
   * concatenation filters each part and concatenates the results.
   */
  lemma {:induction false} WithoutGroupAppend(a: seq<Group>, b: seq<Group>, id: int)
    ensures WithoutGroup(a + b, id) == WithoutGroup(a, id) + WithoutGroup(b, id)
  {
    if a == [] {
      assert a + b == b;
    } else {
      var h, ft, fb := (if a[0].groupId != id then [a[0]] else []), WithoutGroup(a[1..], id), WithoutGroup(b, id);
      calc {
        WithoutGroup(a + b, id);
        { WithoutGroupUnfold(a + b, id); ConsAppend(a, b); }
        h + WithoutGroup(a[1..] + b, id);
        { WithoutGroupAppend(a[1..], b, id); }
        h + (ft + fb);
        { AppendAssoc(h, ft, fb); }
        (h + ft) + fb;
        { WithoutGroupUnfold(a, id); }
        WithoutGroup(a, id) + fb;
      }
    }
  }

  lemma WithoutGroupUnfold(a: seq<Group>, id: int)
    requires a != []
    ensures WithoutGroup(a, id) == (if a[0].groupId != id then [a[0]] else []) + WithoutGroup(a[1..], id)
  {
  }

  /** `data.groups?.map(g => g.category).filter(Boolean)`, de-duplicated; a missing list gives none. */
  function CategoriesOf(data: GroupsResponse): (r: seq<string>)
    ensures data.groups.None? ==> r == []
    ensures data.groups.Some? ==>
              forall c :: c in r <==> c != "" && exists g :: g in data.groups.value && g.category == Some(c)
    ensures forall i, j :: 0 <= i < j < |r| ==> r[i] != r[j]
    ensures data.groups.Some? ==> InFirstAppearanceOrder(TruthyCategories(data.groups.value), r)
  {
    if data.groups.None? then [] else Unique(TruthyCategories(data.groups.value))
  }

  function TruthyCategories(groups: seq<Group>): (r: seq<string>)
    ensures forall c :: c in r <==> c != "" && exists g :: g in groups && g.category == Some(c)
  {
    if groups == [] then []
    else
      var g := groups[0];
      assert forall x :: x in groups <==> x == g || x in groups[1..];
      (if g.category.Some? && g.category.value != "" then [g.category.value] else []) + TruthyCategories(groups[1..])
  }

  /** The categories are listed group by group: the list over two runs of groups is each run's list in turn. */
  lemma {:induction false} TruthyCategoriesAppend(a: seq<Group>, b: seq<Group>)
    ensures TruthyCategories(a + b) == TruthyCategories(a) + TruthyCategories(b)
  {
    if a == [] {
      assert a + b == b;
    } else {
      var x, t := a[0], a[1..];
      var h, ft, fb := (if x.category.Some? && x.category.value != "" then [x.category.value] else []), TruthyCategories(t), TruthyCategories(b);
      calc {
        TruthyCategories(a + b);
        { TruthyCategoriesUnfold(a + b); ConsAppend(a, b); }
        h + TruthyCategories(t + b);
        { TruthyCategoriesAppend(t, b); }
        h + (ft + fb);
        { AppendAssoc(h, ft, fb); }
        (h + ft) + fb;
        { TruthyCategoriesUnfold(a); }
        TruthyCategories(a) + fb;
      }
    }
  }

  lemma TruthyCategoriesUnfold(a: seq<Group>)
    requires a != []
    ensures TruthyCategories(a) == (if a[0].category.Some? && a[0].category.value != "" then [a[0].category.value] else []) + TruthyCategories(a[1..])
  {
  }

  /** The page's state. */
  class KnowledgeGroupsState {
    var groups: seq<Group>
    var totalGroups: int
    var categories: seq<string>
    var searchQuery: string
    var sortOrder: string

    constructor ()
      ensures groups == [] && totalGroups == 0 && categories == [] && searchQuery == "" && sortOrder == "newest"
    {
      groups, totalGroups, categories, searchQuery, sortOrder := [], 0, [], "", "newest";
    }

    /** The cards rendered. */
    function Visible(): (r: seq<Group>)
      reads this
      ensures forall g :: g in r <==> g in groups && Matches(g, searchQuery)
      ensures Sorting.Sorted(GroupCreated, sortOrder == "newest", r)
    {
      Shown(groups, searchQuery, sortOrder)
    }

    /** A fetch that answered: `data.groups || []`, `data.total_groups || 0` and the categories. */
    method Loaded(data: GroupsResponse)
      modifies this
      ensures groups == (if data.groups.Some? then data.groups.value else [])
      ensures totalGroups == (if data.totalGroups.Some? then data.totalGroups.value else 0)
      ensures categories == CategoriesOf(data)
      ensures searchQuery == old(searchQuery) && sortOrder == old(sortOrder)
    {
      groups := if data.groups.Some? then data.groups.value else [];
      totalGroups := if data.totalGroups.Some? then data.totalGroups.value else 0;
      categories := CategoriesOf(data);
    }

    /** The optimistic step: the list is snapshotted, the group removed and the total lowered before the call. */
    method RemoveOptimistically(id: int) returns (previous: seq<Group>)
      modifies this
      ensures previous == old(groups)
      ensures groups == WithoutGroup(old(groups), id) && totalGroups == old(totalGroups) - 1
      ensures categories == old(categories) && searchQuery == old(searchQuery) && sortOrder == old(sortOrder)
    {
      previous := groups;
      groups := WithoutGroup(groups, id);
      totalGroups := totalGroups - 1;
    }

    /** The rollback: the snapshot comes back and the total is raised again. */
    method Rollback(previous: seq<Group>)
      modifies this
      ensures groups == previous && totalGroups == old(totalGroups) + 1
      ensures categories == old(categories) && searchQuery == old(searchQuery) && sortOrder == old(sortOrder)
    {
      groups := previous;
      totalGroups := totalGroups + 1;
    }

    /**
     * `handleDelete` after the confirmation; `failed` is whether the call
     * threw. A success leaves the optimistic state; a failure leaves no net
     * change.
     */
    method Delete(id: int, failed: bool)
      modifies this
      ensures !failed ==> groups == WithoutGroup(old(groups), id) && totalGroups == old(totalGroups) - 1
      ensures failed ==> groups == old(groups) && totalGroups == old(totalGroups)
      ensures categories == old(categories) && searchQuery == old(searchQuery) && sortOrder == old(sortOrder)
    {
      var previous := RemoveOptimistically(id);
      if failed {
        Rollback(previous);
      }
    }
  }
}

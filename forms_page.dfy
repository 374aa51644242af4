/**
 * The admin forms list (src/modules/admin/forms/FormsPage.jsx): the search
 * and status filter, the sort and "Clear all filters".
 */
module FormsPage {
  import opened Js
  import Sorting

  /** A form as the list reads it. */
  datatype Form = Form(name: string, description: Option<string>, status: string, createdAt: Option<int>)

  /** The list's controls: `searchQuery`, `statusFilter` and `sortBy`. */
  datatype Filters = Filters(searchQuery: string, statusFilter: string, sortBy: string)

  const InitialFilters := Filters("", "all", "newest")

  /** The search test: the name, or a non-empty description, contains the query, ignoring case. */
  predicate MatchesSearch(f: Form, query: string)
  {
    ContainsCI(f.name, query) || (f.description.Some? && f.description.value != "" && ContainsCI(f.description.value, query))
  }

  predicate MatchesStatus(f: Form, statusFilter: string)
  {
    statusFilter == "all" || f.status == statusFilter
  }

  /** The `filter` step: a form is kept exactly when it matches the search and the status. */
  function Filtered(forms: seq<Form>, c: Filters): (r: seq<Form>)
    ensures |r| <= |forms|
    ensures forall f :: f in r <==> f in forms && MatchesSearch(f, c.searchQuery) && MatchesStatus(f, c.statusFilter)
    ensures multiset(r) <= multiset(forms)
  {
    if forms == [] then []
    else
      assert forms == [forms[0]] + forms[1..];
      var keep := MatchesSearch(forms[0], c.searchQuery) && MatchesStatus(forms[0], c.statusFilter);
      (if keep then [forms[0]] else []) + Filtered(forms[1..], c)
  }

  /**
   * `filter` keeps the order and the multiplicity of what it keeps: filtering a
   * concatenation filters each part and concatenates the results.
   */
  lemma {:induction false} FilteredAppend(a: seq<Form>, b: seq<Form>, c: Filters)
    ensures Filtered(a + b, c) == Filtered(a, c) + Filtered(b, c)
  {
    if a == [] {
      assert a + b == b;
    } else {
      var h, ft, fb := (if MatchesSearch(a[0], c.searchQuery) && MatchesStatus(a[0], c.statusFilter) then [a[0]] else []), Filtered(a[1..], c), Filtered(b, c);
      calc {
        Filtered(a + b, c);
        { FilteredUnfold(a + b, c); ConsAppend(a, b); }
        h + Filtered(a[1..] + b, c);
        { FilteredAppend(a[1..], b, c); }
        h + (ft + fb);
        { AppendAssoc(h, ft, fb); }
        (h + ft) + fb;
        { FilteredUnfold(a, c); }
        Filtered(a, c) + fb;
      }
    }
  }

  lemma FilteredUnfold(a: seq<Form>, c: Filters)
    requires a != []
    ensures Filtered(a, c) == (if MatchesSearch(a[0], c.searchQuery) && MatchesStatus(a[0], c.statusFilter) then [a[0]] else []) + Filtered(a[1..], c)
  {
  }

  // ---------------------------------------------------------------------
  // Name order

  /**
   * `a.localeCompare(b) <= 0`, with the locale's collation taken as the
   * order of character codes.
   */
  predicate NameLe(a: string, b: string)
  {
    a == [] || (b != [] && (a[0] < b[0] || (a[0] == b[0] && NameLe(a[1..], b[1..]))))
  }

  /** Any two names compare one way or the other. */
  lemma {:induction false} NameLeTotal(a: string, b: string)
    ensures NameLe(a, b) || NameLe(b, a)
  {
    if a != [] && b != [] && a[0] == b[0] {
      NameLeTotal(a[1..], b[1..]);
    }
  }

  predicate SortedByName(s: seq<Form>)
  {
    forall i :: 0 <= i < |s| - 1 ==> NameLe(s[i].name, s[i + 1].name)
  }

  /** Inserting `x` in front of the first form whose name it does not exceed. */
  function InsertByName(x: Form, s: seq<Form>): (r: seq<Form>)
    ensures |r| == |s| + 1
    ensures multiset(r) == multiset(s) + multiset{x}
    ensures r[0] == x || (s != [] && r[0] == s[0])
  {
    if s == [] || NameLe(x.name, s[0].name) then [x] + s
    else
      var rest := InsertByName(x, s[1..]);
      assert s == [s[0]] + s[1..];
      assert multiset([s[0]] + rest) == multiset{s[0]} + multiset(rest);
      [s[0]] + rest
  }

  lemma {:induction false} InsertByNameSorted(x: Form, s: seq<Form>)
    requires SortedByName(s)
    ensures SortedByName(InsertByName(x, s))
  {
    if s != [] && !NameLe(x.name, s[0].name) {
      var rest := InsertByName(x, s[1..]);
      assert SortedByName(s[1..]);
      InsertByNameSorted(x, s[1..]);
      NameLeTotal(x.name, s[0].name);
      var r := [s[0]] + rest;
      assert NameLe(s[0].name, rest[0].name) by {
        if rest[0] != x {
          assert rest[0] == s[1];
        }
      }
      assert forall i :: 1 <= i < |r| ==> r[i] == rest[i - 1];
    }
  }

  /** The `name` sort: a stable sort by name. */
  function SortByName(s: seq<Form>): (r: seq<Form>)
    ensures |r| == |s|
    ensures multiset(r) == multiset(s)
    ensures SortedByName(r)
  {
    if s == [] then []
    else
      assert s == [s[0]] + s[1..];
      InsertByNameSorted(s[0], SortByName(s[1..]));
      InsertByName(s[0], SortByName(s[1..]))
  }

  /** A name compares as not exceeding itself. */
  lemma {:induction false} NameLeReflexive(a: string)
    ensures NameLe(a, a)
  {
    if a != [] {
      NameLeReflexive(a[1..]);
    }
  }

  /** The forms named `n`, in their order. */
  function WithName(n: string, s: seq<Form>): (r: seq<Form>)
    ensures |r| <= |s|
    ensures forall i :: 0 <= i < |r| ==> r[i].name == n && r[i] in s
  {
    if s == [] then []
    else (if s[0].name == n then [s[0]] else []) + WithName(n, s[1..])
  }

  lemma WithNameCons(n: string, x: Form, t: seq<Form>)
    ensures WithName(n, [x] + t) == (if x.name == n then [x] else []) + WithName(n, t)
  {
    assert ([x] + t)[1..] == t;
  }

  /** `x` lands in front of every form with its name, and among the others nothing moves. */
  lemma {:induction false} InsertByNameWithName(x: Form, s: seq<Form>, n: string)
    ensures WithName(n, InsertByName(x, s)) == (if x.name == n then [x] else []) + WithName(n, s)
  {
    if s == [] || NameLe(x.name, s[0].name) {
      WithNameCons(n, x, s);
    } else {
      var y, t := s[0], s[1..];
      NameLeReflexive(x.name);
      assert y.name != x.name;
      assert s == [y] + t;
      InsertByNameWithName(x, t, n);
      WithNameCons(n, y, InsertByName(x, t));
      WithNameCons(n, y, t);
    }
  }

  /** The name sort is stable: forms sharing a name keep their relative order. */
  lemma {:induction false} SortByNameStable(s: seq<Form>, n: string)
    ensures WithName(n, SortByName(s)) == WithName(n, s)
  {
    if s != [] {
      SortByNameStable(s[1..], n);
      InsertByNameWithName(s[0], SortByName(s[1..]), n);
    }
  }

  // ---------------------------------------------------------------------
  // The list shown

  function FormCreated(f: Form): Option<int>
  {
    f.createdAt
  }

  /**
   * `filteredForms`: the kept forms, newest first, oldest first or by
   * name; for any other sort key the comparator answers 0 and the
   * filtered order stays.
   */
  function Shown(forms: seq<Form>, c: Filters): (r: seq<Form>)
    ensures multiset(r) == multiset(Filtered(forms, c))
    ensures c.sortBy == "newest" ==> Sorting.Sorted(FormCreated, true, r)
    ensures c.sortBy == "oldest" ==> Sorting.Sorted(FormCreated, false, r)
    ensures c.sortBy == "name" ==> SortedByName(r)
    ensures c.sortBy !in {"newest", "oldest", "name"} ==> r == Filtered(forms, c)
  {
    var kept := Filtered(forms, c);
    if c.sortBy == "newest" then Sorting.SortBy(FormCreated, true, kept)
    else if c.sortBy == "oldest" then Sorting.SortBy(FormCreated, false, kept)
    else if c.sortBy == "name" then SortByName(kept)
    else kept
  }

  /** A form is listed exactly when it passes both tests, whatever the order. */
  lemma ListedIffKept(forms: seq<Form>, c: Filters, f: Form)
    ensures f in Shown(forms, c) <==> f in forms && MatchesSearch(f, c.searchQuery) && MatchesStatus(f, c.statusFilter)
  {
    assert f in Shown(forms, c) <==> f in multiset(Filtered(forms, c));
  }

  /** "Clear all filters": the query and the status go back to their defaults; the sort key stays. */
  function ClearFilters(c: Filters): (r: Filters)
    ensures r.searchQuery == InitialFilters.searchQuery && r.statusFilter == InitialFilters.statusFilter
    ensures r.sortBy == c.sortBy
  {
    c.(searchQuery := "", statusFilter := "all")
  }

  /** After clearing, every form is listed again. */
  lemma ClearedListsEveryForm(forms: seq<Form>, c: Filters)
    ensures multiset(Shown(forms, ClearFilters(c))) == multiset(forms)
  {
    var cleared := ClearFilters(c);
    forall f | f in forms
      ensures MatchesSearch(f, cleared.searchQuery)
    {
      ContainsEmpty(Lower(f.name));
    }
    FilterKeepsAll(forms, cleared);
  }

  lemma {:induction false} FilterKeepsAll(forms: seq<Form>, c: Filters)
    requires forall f :: f in forms ==> MatchesSearch(f, c.searchQuery) && MatchesStatus(f, c.statusFilter)
    ensures Filtered(forms, c) == forms
  {
    if forms != [] {
      FilterKeepsAll(forms[1..], c);
      assert forms == [forms[0]] + forms[1..];
    }
  }

  /** Under an unknown sort key two kept forms keep their relative order. */
  lemma UnknownKeyKeepsOrder(forms: seq<Form>)
    requires forall f :: f in forms ==> f.status == "active"
    ensures Shown(forms, Filters("", "active", "popular")) == forms
  {
    var c := Filters("", "active", "popular");
    forall f | f in forms
      ensures MatchesSearch(f, "")
    {
      ContainsEmpty(Lower(f.name));
    }
    FilterKeepsAll(forms, c);
  }
}

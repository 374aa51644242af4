/**
 * The knowledge base page over single entries
 * (src/components/admin/KnowledgeBasePage.jsx): the search filter, the date
 * sort, delete, the per-category counters and the category list.
 */
module KnowledgeBase {
  import opened Js
  import Sorting

  /** An entry as the page reads it; `None` fields are missing. */
  datatype Entry = Entry(id: int, title: Option<string>, content: Option<string>, url: Option<string>,
                         category: Option<string>, createdAt: Option<int>)

  /** What `getKnowledgeBase` answers; `None` parts are missing from the body. */
  datatype EntriesResponse = EntriesResponse(entries: Option<seq<Entry>>, total: Option<int>)

  /** `field?.toLowerCase().includes(query.toLowerCase())`: a missing field never matches. */
  predicate FieldMatches(field: Option<string>, query: string)
  {
    field.Some? && ContainsCI(field.value, query)
  }

  /** The search test: the title, the content or the url contains the query, ignoring case. */
  predicate Matches(e: Entry, query: string)
  {
    FieldMatches(e.title, query) || FieldMatches(e.content, query) || FieldMatches(e.url, query)
  }

  /** `entries.filter(...)` with the search test. */
  function Filtered(entries: seq<Entry>, query: string): (r: seq<Entry>)
    ensures |r| <= |entries|
    ensures forall e :: e in r <==> e in entries && Matches(e, query)
    ensures multiset(r) <= multiset(entries)
  {
    if entries == [] then []
    else
      assert entries == [entries[0]] + entries[1..];
      (if Matches(entries[0], query) then [entries[0]] else []) + Filtered(entries[1..], query)
  }

  /**
   * `filter` keeps the order and the multiplicity of what it keeps: filtering a
   * concatenation filters each part and concatenates the results.
   */
  lemma {:induction false} FilteredAppend(a: seq<Entry>, b: seq<Entry>, query: string)
    ensures Filtered(a + b, query) == Filtered(a, query) + Filtered(b, query)
  {
    if a == [] {
      assert a + b == b;
    } else {
      var h, ft, fb := (if Matches(a[0], query) then [a[0]] else []), Filtered(a[1..], query), Filtered(b, query);
      calc {
        Filtered(a + b, query);
        { FilteredUnfold(a + b, query); ConsAppend(a, b); }
        h + Filtered(a[1..] + b, query);
        { FilteredAppend(a[1..], b, query); }
        h + (ft + fb);
        { AppendAssoc(h, ft, fb); }
        (h + ft) + fb;
        { FilteredUnfold(a, query); }
        Filtered(a, query) + fb;
      }
    }
  }

  lemma FilteredUnfold(a: seq<Entry>, query: string)
    requires a != []
    ensures Filtered(a, query) == (if Matches(a[0], query) then [a[0]] else []) + Filtered(a[1..], query)
  {
  }

  function EntryCreated(e: Entry): Option<int>
  {
    e.createdAt
  }

  /** The list shown: the matching entries, newest first for `'newest'` and oldest first for any other order. */
  function Shown(entries: seq<Entry>, query: string, sortOrder: string): (r: seq<Entry>)
    ensures multiset(r) == multiset(Filtered(entries, query))
    ensures forall e :: e in r <==> e in entries && Matches(e, query)
    ensures Sorting.Sorted(EntryCreated, sortOrder == "newest", r)
  {
    var m := Filtered(entries, query);
    var r := Sorting.SortBy(EntryCreated, sortOrder == "newest", m);
    assert forall e :: e in r <==> e in multiset(m);
    r
  }

  /** An empty query keeps only entries that have a title, a content or a url. */
  lemma EmptyQueryNeedsAField(e: Entry)
    ensures Matches(e, "") <==> e.title.Some? || e.content.Some? || e.url.Some?
  {
    forall s: string ensures ContainsCI(s, "") {
      assert StartsWith(Lower(s)[0..], "");
    }
  }

  /** A successful delete: `prev.filter(e => e.id !== id)`. */
  function WithoutEntry(entries: seq<Entry>, id: int): (r: seq<Entry>)
    ensures |r| <= |entries|
    ensures forall e :: e in r <==> e in entries && e.id != id
    ensures (forall e :: e in entries ==> e.id != id) ==> r == entries
  {
    if entries == [] then []
    else
      assert entries == [entries[0]] + entries[1..];
      (if entries[0].id != id then [entries[0]] else []) + WithoutEntry(entries[1..], id)
  }

  /**
   * `filter` keeps the order and the multiplicity of what it keeps: filtering a
   * concatenation filters each part and concatenates the results.
   */
  lemma {:induction false} WithoutEntryAppend(a: seq<Entry>, b: seq<Entry>, id: int)
    ensures WithoutEntry(a + b, id) == WithoutEntry(a, id) + WithoutEntry(b, id)
  {
    if a == [] {
      assert a + b == b;
    } else {
      var h, ft, fb := (if a[0].id != id then [a[0]] else []), WithoutEntry(a[1..], id), WithoutEntry(b, id);
      calc {
        WithoutEntry(a + b, id);
        { WithoutEntryUnfold(a + b, id); ConsAppend(a, b); }
        h + WithoutEntry(a[1..] + b, id);
        { WithoutEntryAppend(a[1..], b, id); }
        h + (ft + fb);
        { AppendAssoc(h, ft, fb); }
        (h + ft) + fb;
        { WithoutEntryUnfold(a, id); }
        WithoutEntry(a, id) + fb;
      }
    }
  }

  lemma WithoutEntryUnfold(a: seq<Entry>, id: int)
    requires a != []
    ensures WithoutEntry(a, id) == (if a[0].id != id then [a[0]] else []) + WithoutEntry(a[1..], id)
  {
  }

  /** `data.entries?.map(e => e.category).filter(Boolean)`: the non-empty categories, in list order. */
  function TruthyCategories(entries: seq<Entry>): (r: seq<string>)
    ensures forall c :: c in r <==> c != "" && exists e :: e in entries && e.category == Some(c)
  {
    if entries == [] then []
    else
      var e := entries[0];
      assert forall x :: x in entries <==> x == e || x in entries[1..];
      (if e.category.Some? && e.category.value != "" then [e.category.value] else []) + TruthyCategories(entries[1..])
  }

  /** The categories are listed entry by entry: the list over two runs of entries is each run's list in turn. */
  lemma {:induction false} TruthyCategoriesAppend(a: seq<Entry>, b: seq<Entry>)
    ensures TruthyCategories(a + b) == TruthyCategories(a) + TruthyCategories(b)
  {
    if a == [] {
      assert a + b == b;
    } else {
      var x, t := a[0], a[1..];
      var h, ft, fb := (if x.category.Some? && x.category.value != "" then [x.category.value] else []), TruthyCategories(t), TruthyCategories(b);
      calc {
        TruthyCategories(a + b);
        { TruthyCategoriesUnfold(a + b); ConsAppend(a, b); }
        h + TruthyCategories(t + b);
        { TruthyCategoriesAppend(t, b); }
        h + (ft + fb);
        { AppendAssoc(h, ft, fb); }
        (h + ft) + fb;
        { TruthyCategoriesUnfold(a); }
        TruthyCategories(a) + fb;
      }
    }
  }

  lemma TruthyCategoriesUnfold(a: seq<Entry>)
    requires a != []
    ensures TruthyCategories(a) == (if a[0].category.Some? && a[0].category.value != "" then [a[0].category.value] else []) + TruthyCategories(a[1..])
  {
  }

  /** `[...new Set(...)]` of the truthy categories; a missing entry list gives no categories. */
  function CategoriesOf(data: EntriesResponse): (r: seq<string>)
    ensures data.entries.None? ==> r == []
    ensures data.entries.Some? ==>
              forall c :: c in r <==> c != "" && exists e :: e in data.entries.value && e.category == Some(c)
    ensures forall i, j :: 0 <= i < j < |r| ==> r[i] != r[j]
    ensures data.entries.Some? ==> InFirstAppearanceOrder(TruthyCategories(data.entries.value), r)
  {
    if data.entries.None? then [] else Unique(TruthyCategories(data.entries.value))
  }

  /** How many entries carry category `c`. */
  function CategoryCount(entries: seq<Entry>, c: string): (n: nat)
    ensures n <= |entries|
  {
    if entries == [] then 0
    else CategoryCount(entries[..|entries| - 1], c) + (if entries[|entries| - 1].category == Some(c) then 1 else 0)
  }

  /** A category is counted exactly when some entry carries it. */
  lemma {:induction false} CountedIffPresent(entries: seq<Entry>, c: string)
    ensures CategoryCount(entries, c) > 0 <==> exists e :: e in entries && e.category == Some(c)
  {
    if entries != [] {
      var init := entries[..|entries| - 1];
      assert forall x :: x in entries <==> x == entries[|entries| - 1] || x in init;
      CountedIffPresent(init, c);
    }
  }

  /** Counting one more entry of a prefix adds one to its own category only. */
  lemma CountStep(entries: seq<Entry>, i: nat)
    requires i < |entries|
    ensures forall c :: CategoryCount(entries[..i + 1], c) ==
                        CategoryCount(entries[..i], c) + (if entries[i].category == Some(c) then 1 else 0)
  {
    assert entries[..i + 1][..i] == entries[..i];
  }

  /** How many entries have a category in `cats`. */
  function CountIn(entries: seq<Entry>, cats: seq<string>): (n: nat)
    ensures n <= |entries|
  {
    if entries == [] then 0
    else
      var last := entries[|entries| - 1];
      CountIn(entries[..|entries| - 1], cats) + (if last.category.Some? && last.category.value in cats then 1 else 0)
  }

  /** The counters of `cats` added up. */
  function SumCounts(entries: seq<Entry>, cats: seq<string>): nat
  {
    if cats == [] then 0 else CategoryCount(entries, cats[0]) + SumCounts(entries, cats[1..])
  }

  /** Counting a category in front of others it is not among splits the count. */
  lemma {:induction false} CountInCons(entries: seq<Entry>, c: string, rest: seq<string>)
    requires c !in rest
    ensures CountIn(entries, [c] + rest) == CategoryCount(entries, c) + CountIn(entries, rest)
  {
    if entries != [] {
      CountInCons(entries[..|entries| - 1], c, rest);
    }
  }

  /** Over distinct categories the counters add up to the entries in one of them. */
  lemma {:induction false} SumCountsIsCountIn(entries: seq<Entry>, cats: seq<string>)
    requires forall i, j :: 0 <= i < j < |cats| ==> cats[i] != cats[j]
    ensures SumCounts(entries, cats) == CountIn(entries, cats)
  {
    if cats == [] {
      CountInNone(entries);
    } else {
      assert cats == [cats[0]] + cats[1..];
      assert cats[0] !in cats[1..];
      SumCountsIsCountIn(entries, cats[1..]);
      CountInCons(entries, cats[0], cats[1..]);
    }
  }

  lemma {:induction false} CountInNone(entries: seq<Entry>)
    ensures CountIn(entries, []) == 0
  {
    if entries != [] {
      CountInNone(entries[..|entries| - 1]);
    }
  }

  /** The category counters added up never exceed the number of entries: entries without a category are not counted. */
  lemma CountsAtMostEntries(entries: seq<Entry>)
    ensures SumCounts(entries, Unique(TruthyCategories(entries))) <= |entries|
  {
    SumCountsIsCountIn(entries, Unique(TruthyCategories(entries)));
  }

  /** The categories that get a counter are exactly those of the category list. */
  lemma CountedAreListed(entries: seq<Entry>, c: string)
    ensures c != "" && CategoryCount(entries, c) > 0 <==> c in Unique(TruthyCategories(entries))
  {
    CountedIffPresent(entries, c);
  }

  /** The page's state. */
  class KnowledgeBaseState {
    var entries: seq<Entry>
    var total: int
    var categories: seq<string>
    var searchQuery: string
    var sortOrder: string

    constructor ()
      ensures entries == [] && total == 0 && categories == [] && searchQuery == "" && sortOrder == "newest"
    {
      entries, total, categories, searchQuery, sortOrder := [], 0, [], "", "newest";
    }

    /** The cards rendered. */
    function Visible(): (r: seq<Entry>)
      reads this
      ensures forall e :: e in r <==> e in entries && Matches(e, searchQuery)
      ensures Sorting.Sorted(EntryCreated, sortOrder == "newest", r)
    {
      Shown(entries, searchQuery, sortOrder)
    }

    /** A fetch that answered: `data.entries || []`, `data.total || 0` and the categories. */
    method Loaded(data: EntriesResponse)
      modifies this
      ensures entries == (if data.entries.Some? then data.entries.value else [])
      ensures total == (if data.total.Some? then data.total.value else 0)
      ensures categories == CategoriesOf(data)
      ensures searchQuery == old(searchQuery) && sortOrder == old(sortOrder)
    {
      entries := if data.entries.Some? then data.entries.value else [];
      total := if data.total.Some? then data.total.value else 0;
      categories := CategoriesOf(data);
    }

    /** `handleDelete`; `deleted` is whether the call succeeded. Only a success removes the id and lowers the total. */
    method Delete(id: int, deleted: bool)
      modifies this
      ensures deleted ==> entries == WithoutEntry(old(entries), id) && total == old(total) - 1
      ensures !deleted ==> entries == old(entries) && total == old(total)
      ensures categories == old(categories) && searchQuery == old(searchQuery) && sortOrder == old(sortOrder)
    {
      if deleted {
        entries := WithoutEntry(entries, id);
        total := total - 1;
      }
    }

    /**
     * `getCategoryCounts`: one counter per non-empty category, holding
     * the number of entries that carry it.
     */
    method CategoryCounts() returns (counts: map<string, nat>)
      ensures forall c :: c in counts <==> c != "" && CategoryCount(entries, c) > 0
      ensures forall c :: c in counts ==> counts[c] == CategoryCount(entries, c)
    {
      counts := CountCategories(entries);
    }
  }

  /** The `forEach` of `getCategoryCounts` over a list of entries. */
  method CountCategories(entries: seq<Entry>) returns (counts: map<string, nat>)
    ensures forall c :: c in counts <==> c != "" && CategoryCount(entries, c) > 0
    ensures forall c :: c in counts ==> counts[c] == CategoryCount(entries, c)
  {
    counts := map[];
    var i := 0;
    while i < |entries|
      invariant 0 <= i <= |entries|
      invariant forall c :: c in counts <==> c != "" && CategoryCount(entries[..i], c) > 0
      invariant forall c :: c in counts ==> counts[c] == CategoryCount(entries[..i], c)
    {
      CountStep(entries, i);
      var e := entries[i];
      if e.category.Some? && e.category.value != "" {
        var c := e.category.value;
        counts := counts[c := (if c in counts then counts[c] else 0) + 1];
      }
      i := i + 1;
    }
    assert entries[..i] == entries;
  }
}

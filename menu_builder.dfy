/**
 * The super-admin menu builder (src/modules/superadmin/MenuBuilderPage.jsx):
 * the editable menu tree, drag-and-drop reordering of modules and screens,
 * saving an edited or new item, the payload sent to the backend and the
 * counters shown on the page. Clock values and generated ids are
 * parameters.
 */
module MenuBuilder {
  import opened Js
  import Dict
  import opened AuthSlice
  import opened AuthRoutes
  import Layout
  import Api

  /** A screen as the builder keeps it (`actions` is `None` when absent). */
  datatype Screen = Screen(
    id: Value, name: Option<string>, route: Option<string>, icon: Option<string>,
    isActive: Value, actions: Option<seq<Value>>)

  /** A module as the builder keeps it: its screens are always a list. */
  datatype Module = Module(
    id: Value, name: Option<string>, route: Option<string>, icon: Option<string>,
    isActive: Value, screens: seq<Screen>)

  // ---------------------------------------------------------------------
  // Sequence surgery

  /** `xs.splice(i, 1)` for an index inside the list. */
  function RemoveAt<T>(xs: seq<T>, i: nat): (r: seq<T>)
    requires i < |xs|
    ensures |r| == |xs| - 1
  {
    xs[..i] + xs[i + 1..]
  }

  /** `xs.splice(i, 0, x)` for an index inside or just past the list. */
  function InsertAt<T>(xs: seq<T>, i: nat, x: T): (r: seq<T>)
    requires i <= |xs|
    ensures |r| == |xs| + 1 && r[i] == x
  {
    xs[..i] + [x] + xs[i..]
  }

  /** Removing what was just inserted gives the list back. */
  lemma RemoveInserted<T>(xs: seq<T>, i: nat, x: T)
    requires i <= |xs|
    ensures RemoveAt(InsertAt(xs, i, x), i) == xs
  {
    var ys := InsertAt(xs, i, x);
    assert ys[..i] == xs[..i];
    assert ys[i + 1..] == xs[i..];
  }

  /** Putting a removed element back where it was gives the list back. */
  lemma InsertRemoved<T>(xs: seq<T>, i: nat)
    requires i < |xs|
    ensures InsertAt(RemoveAt(xs, i), i, xs[i]) == xs
  {
    var ys := RemoveAt(xs, i);
    assert ys[..i] == xs[..i];
    assert ys[i..] == xs[i + 1..];
  }

  /** Removal takes exactly the removed element out of the multiset. */
  lemma RemoveMultiset<T>(xs: seq<T>, i: nat)
    requires i < |xs|
    ensures multiset(RemoveAt(xs, i)) + multiset{xs[i]} == multiset(xs)
  {
    assert xs == xs[..i] + [xs[i]] + xs[i + 1..];
  }

  /** Insertion adds exactly the inserted element to the multiset. */
  lemma InsertMultiset<T>(xs: seq<T>, i: nat, x: T)
    requires i <= |xs|
    ensures multiset(InsertAt(xs, i, x)) == multiset(xs) + multiset{x}
  {
    assert xs == xs[..i] + xs[i..];
  }

  /** dnd-kit's `arrayMove(xs, from, to)`: remove at `from`, insert the element at `to`. */
  function ArrayMove<T>(xs: seq<T>, from: nat, to: nat): (r: seq<T>)
    requires from < |xs| && to < |xs|
    ensures |r| == |xs|
  {
    InsertAt(RemoveAt(xs, from), to, xs[from])
  }

  /**
   * The moved element ends at `to`, the others keep their relative order,
   * and the list is a permutation of the old one.
   */
  lemma ArrayMoveSpec<T>(xs: seq<T>, from: nat, to: nat)
    requires from < |xs| && to < |xs|
    ensures ArrayMove(xs, from, to)[to] == xs[from]
    ensures RemoveAt(ArrayMove(xs, from, to), to) == RemoveAt(xs, from)
    ensures multiset(ArrayMove(xs, from, to)) == multiset(xs)
  {
    var ys := RemoveAt(xs, from);
    RemoveInserted(ys, to, xs[from]);
    RemoveMultiset(xs, from);
    InsertMultiset(ys, to, xs[from]);
  }

  /** Moving back undoes a move. */
  lemma ArrayMoveInverse<T>(xs: seq<T>, from: nat, to: nat)
    requires from < |xs| && to < |xs|
    ensures ArrayMove(ArrayMove(xs, from, to), to, from) == xs
  {
    ArrayMoveSpec(xs, from, to);
    InsertRemoved(xs, from);
  }

  // ---------------------------------------------------------------------
  // Counters

  /** The number of screens over all modules. */
  function TotalScreens(menu: seq<Module>): nat
  {
    if menu == [] then 0 else |menu[0].screens| + TotalScreens(menu[1..])
  }

  lemma {:induction false} TotalScreensAppend(a: seq<Module>, b: seq<Module>)
    ensures TotalScreens(a + b) == TotalScreens(a) + TotalScreens(b)
  {
    if a == [] {
      assert a + b == b;
    } else {
      TotalScreensAppend(a[1..], b);
      assert (a + b)[1..] == a[1..] + b;
    }
  }

  /** Replacing one module changes the count by the difference of their screen counts. */
  lemma TotalScreensUpdate(menu: seq<Module>, i: nat, m: Module)
    requires i < |menu|
    ensures TotalScreens(menu[i := m]) + |menu[i].screens| == TotalScreens(menu) + |m.screens|
  {
    assert menu == menu[..i] + [menu[i]] + menu[i + 1..];
    assert menu[i := m] == menu[..i] + [m] + menu[i + 1..];
    TotalScreensAppend(menu[..i] + [menu[i]], menu[i + 1..]);
    TotalScreensAppend(menu[..i], [menu[i]]);
    TotalScreensAppend(menu[..i] + [m], menu[i + 1..]);
    TotalScreensAppend(menu[..i], [m]);
  }

  /** Removing a module takes its screens out of the count. */
  lemma TotalScreensRemove(menu: seq<Module>, i: nat)
    requires i < |menu|
    ensures TotalScreens(RemoveAt(menu, i)) + |menu[i].screens| == TotalScreens(menu)
  {
    assert menu == menu[..i] + [menu[i]] + menu[i + 1..];
    TotalScreensAppend(menu[..i] + [menu[i]], menu[i + 1..]);
    TotalScreensAppend(menu[..i], [menu[i]]);
    TotalScreensAppend(menu[..i], menu[i + 1..]);
  }

  /** Inserting a module adds its screens to the count. */
  lemma TotalScreensInsert(menu: seq<Module>, i: nat, m: Module)
    requires i <= |menu|
    ensures TotalScreens(InsertAt(menu, i, m)) == TotalScreens(menu) + |m.screens|
  {
    assert menu == menu[..i] + menu[i..];
    TotalScreensAppend(menu[..i] + [m], menu[i..]);
    TotalScreensAppend(menu[..i], [m]);
    TotalScreensAppend(menu[..i], menu[i..]);
  }

  /** Reordering modules keeps the number of screens. */
  lemma TotalScreensArrayMove(menu: seq<Module>, from: nat, to: nat)
    requires from < |menu| && to < |menu|
    ensures TotalScreens(ArrayMove(menu, from, to)) == TotalScreens(menu)
  {
    TotalScreensRemove(menu, from);
    TotalScreensInsert(RemoveAt(menu, from), to, menu[from]);
  }

  /** `menu.reduce((acc, m) => acc + 1 + (m.screens?.length || 0), acc)`. */
  function CountFrom(acc: nat, menu: seq<Module>): nat
    decreases |menu|
  {
    if menu == [] then acc else CountFrom(acc + 1 + |menu[0].screens|, menu[1..])
  }

  /** `totalMenus`. */
  function TotalMenus(menu: seq<Module>): nat
  {
    CountFrom(0, menu)
  }

  lemma {:induction false} CountFromSum(acc: nat, menu: seq<Module>)
    ensures CountFrom(acc, menu) == acc + |menu| + TotalScreens(menu)
    decreases |menu|
  {
    if menu != [] {
      CountFromSum(acc + 1 + |menu[0].screens|, menu[1..]);
    }
  }

  /** `totalMenus` counts every module and every screen once. */
  lemma TotalMenusCount(menu: seq<Module>)
    ensures TotalMenus(menu) == |menu| + TotalScreens(menu)
  {
    CountFromSum(0, menu);
  }

  // ---------------------------------------------------------------------
  // Loading

  /**
   * `fetchData`'s processing of `getMenuCreator()`: a module or screen
   * without an id gets a generated `module-…`/`screen-…` id (the clock and
   * random parts are `moduleStamp`/`screenStamp`).
   */
  function FetchedMenu(rows: seq<Api.ModuleRow>, moduleStamp: nat -> string, screenStamp: (nat, nat) -> string): (menu: seq<Module>)
    ensures |menu| == |rows|
    ensures forall i :: 0 <= i < |menu| ==> menu[i] == FetchedModule(rows[i], i, moduleStamp, screenStamp)
  {
    seq(|rows|, i requires 0 <= i < |rows| => FetchedModule(rows[i], i, moduleStamp, screenStamp))
  }

  /** Module `i` of the loaded menu: every id is truthy, and a truthy backend id is kept. */
  function FetchedModule(m: Api.ModuleRow, i: nat, moduleStamp: nat -> string, screenStamp: (nat, nat) -> string): (r: Module)
    ensures Truthy(r.id) && (Truthy(m.id) ==> r.id == m.id)
    ensures r.name == m.name && r.route == m.route && r.isActive == m.isActive
    ensures |r.screens| == |Api.RowScreens(m)|
    ensures forall j :: 0 <= j < |r.screens| ==> r.screens[j] == FetchedScreen(Api.RowScreens(m)[j], screenStamp(i, j))
  {
    var scs := Api.RowScreens(m);
    Module(Or(m.id, Str("module-" + moduleStamp(i))), m.name, m.route, m.icon, m.isActive,
      seq(|scs|, j requires 0 <= j < |scs| => FetchedScreen(scs[j], screenStamp(i, j))))
  }

  /** A loaded screen: its id, or a generated one. */
  function FetchedScreen(s: Api.ScreenRow, stamp: string): (r: Screen)
    ensures Truthy(r.id) && (Truthy(s.id) ==> r.id == s.id)
    ensures r.name == s.name && r.route == s.route && r.actions == s.actions
  {
    Screen(Or(s.id, Str("screen-" + stamp)), s.name, s.route, s.icon, s.isActive, s.actions)
  }

  // ---------------------------------------------------------------------
  // Drag and drop

  /** One end of a drag: the sortable id and `data.current?.type`. */
  datatype DragItem = DragItem(id: Value, kind: Option<string>)

  /** `{active, over}`; `over` is `None` when dropped outside any target. */
  datatype DragEvent = DragEvent(active: DragItem, over: Option<DragItem>)

  /** `m.screens.some(s => s.id === id)`. */
  predicate HasScreen(m: Module, id: Value)
  {
    exists k :: 0 <= k < |m.screens| && StrictEquals(m.screens[k].id, id)
  }

  /** `xs.findIndex(p)`: the first index satisfying `p`, or -1. */
  function FindIndex<T>(xs: seq<T>, p: T -> bool): (i: int)
    ensures -1 <= i < |xs|
    ensures 0 <= i ==> p(xs[i]) && forall k :: 0 <= k < i ==> !p(xs[k])
    ensures i == -1 ==> forall k :: 0 <= k < |xs| ==> !p(xs[k])
  {
    if xs == [] then -1
    else if p(xs[0]) then 0
    else
      var i := FindIndex(xs[1..], p);
      assert forall k :: 1 <= k < |xs| ==> xs[k] == xs[1..][k - 1];
      if i == -1 then -1 else i + 1
  }

  /** The index of the first module with id `id`. */
  function ModuleIndex(menu: seq<Module>, id: Value): int
  {
    FindIndex(menu, (m: Module) => StrictEquals(m.id, id))
  }

  /** The index of the first module holding a screen with id `id`. */
  function HolderIndex(menu: seq<Module>, id: Value): (i: int)
    ensures -1 <= i < |menu|
    ensures 0 <= i ==> HasScreen(menu[i], id)
  {
    FindIndex(menu, (m: Module) => HasScreen(m, id))
  }

  /** The index of the first screen with id `id` in a list that holds one. */
  function ScreenIndex(m: Module, id: Value): (j: nat)
    requires HasScreen(m, id)
    ensures j < |m.screens| && StrictEquals(m.screens[j].id, id)
  {
    var j := FindIndex(m.screens, (s: Screen) => StrictEquals(s.id, id));
    assert j != -1 by {
      var k :| 0 <= k < |m.screens| && StrictEquals(m.screens[k].id, id);
    }
    j
  }

  /**
   * The menu after `handleDragEnd(event)`. The dragged and the hovered ids
   * come from the rendered menu (`items={menu.map(m => m.id)}`), so both
   * `findIndex` calls find them. An id missing from the menu cannot arise.
   * For one, `arrayMove(items, -1, j)` would move the last element, and the
   * model leaves the menu unchanged instead.
   */
  function DragResult(menu: seq<Module>, ev: DragEvent): seq<Module>
  {
    if ev.over.None? then menu
    else
      var active, over := ev.active, ev.over.value;
      if active.kind == Some("module") && over.kind == Some("module") then
        if StrictEquals(active.id, over.id) then menu
        else
          var from, to := ModuleIndex(menu, active.id), ModuleIndex(menu, over.id);
          if 0 <= from && 0 <= to then ArrayMove(menu, from, to) else menu
      else if active.kind == Some("screen") then
        var src, tgt := HolderIndex(menu, active.id), HolderIndex(menu, over.id);
        if src == -1 || tgt == -1 then menu
        else if src == tgt then
          var i, j := ScreenIndex(menu[src], active.id), ScreenIndex(menu[src], over.id);
          if i != j then menu[src := menu[src].(screens := ArrayMove(menu[src].screens, i, j))] else menu
        else
          var i, j := ScreenIndex(menu[src], active.id), ScreenIndex(menu[tgt], over.id);
          var moved := menu[src].screens[i];
          var cut := menu[src := menu[src].(screens := RemoveAt(menu[src].screens, i))];
          cut[tgt := cut[tgt].(screens := InsertAt(cut[tgt].screens, j, moved))]
      else menu
  }

  /** Reordering one module's screens keeps the counts. */
  lemma ScreenMoveWithinCounts(menu: seq<Module>, src: nat, i: nat, j: nat)
    requires src < |menu| && i < |menu[src].screens| && j < |menu[src].screens|
    ensures TotalScreens(menu[src := menu[src].(screens := ArrayMove(menu[src].screens, i, j))]) == TotalScreens(menu)
  {
    TotalScreensUpdate(menu, src, menu[src].(screens := ArrayMove(menu[src].screens, i, j)));
  }

  /** Moving a screen between two modules keeps the counts. */
  lemma ScreenMoveAcrossCounts(menu: seq<Module>, src: nat, tgt: nat, i: nat, j: nat)
    requires src < |menu| && tgt < |menu| && src != tgt && i < |menu[src].screens| && j < |menu[tgt].screens|
    ensures var cut := menu[src := menu[src].(screens := RemoveAt(menu[src].screens, i))];
      TotalScreens(cut[tgt := cut[tgt].(screens := InsertAt(cut[tgt].screens, j, menu[src].screens[i]))]) == TotalScreens(menu)
  {
    var cut := menu[src := menu[src].(screens := RemoveAt(menu[src].screens, i))];
    TotalScreensUpdate(menu, src, cut[src]);
    TotalScreensUpdate(cut, tgt, cut[tgt].(screens := InsertAt(cut[tgt].screens, j, menu[src].screens[i])));
  }

  /** No drag changes the number of modules or of screens. */
  lemma DragPreservesScreens(menu: seq<Module>, ev: DragEvent)
    ensures |DragResult(menu, ev)| == |menu|
    ensures TotalScreens(DragResult(menu, ev)) == TotalScreens(menu)
  {
    if ev.over.Some? {
      var active, over := ev.active, ev.over.value;
      if active.kind == Some("module") && over.kind == Some("module") {
        var from, to := ModuleIndex(menu, active.id), ModuleIndex(menu, over.id);
        if !StrictEquals(active.id, over.id) && 0 <= from && 0 <= to {
          TotalScreensArrayMove(menu, from, to);
        }
      } else if active.kind == Some("screen") {
        var src, tgt := HolderIndex(menu, active.id), HolderIndex(menu, over.id);
        if src != -1 && tgt != -1 {
          if src == tgt {
            ScreenMoveWithinCounts(menu, src, ScreenIndex(menu[src], active.id), ScreenIndex(menu[src], over.id));
          } else {
            ScreenMoveAcrossCounts(menu, src, tgt, ScreenIndex(menu[src], active.id), ScreenIndex(menu[tgt], over.id));
          }
        }
      }
    }
  }

  /** `totalMenus` is the same before and after any drag. */
  lemma DragPreservesTotal(menu: seq<Module>, ev: DragEvent)
    ensures TotalMenus(DragResult(menu, ev)) == TotalMenus(menu)
  {
    DragPreservesScreens(menu, ev);
    TotalMenusCount(menu);
    TotalMenusCount(DragResult(menu, ev));
  }

  /**
   * A module dropped on another module lands at that module's index, and
   * the other modules keep their relative order.
   */
  lemma DragModuleLands(menu: seq<Module>, ev: DragEvent)
    requires ev.over.Some? && ev.active.kind == Some("module") && ev.over.value.kind == Some("module")
    requires !StrictEquals(ev.active.id, ev.over.value.id)
    requires 0 <= ModuleIndex(menu, ev.active.id) && 0 <= ModuleIndex(menu, ev.over.value.id)
    ensures var from, to := ModuleIndex(menu, ev.active.id), ModuleIndex(menu, ev.over.value.id);
      DragResult(menu, ev)[to] == menu[from] && RemoveAt(DragResult(menu, ev), to) == RemoveAt(menu, from)
      && multiset(DragResult(menu, ev)) == multiset(menu)
  {
    ArrayMoveSpec(menu, ModuleIndex(menu, ev.active.id), ModuleIndex(menu, ev.over.value.id));
  }

  /** A screen dragged within its module reorders only that module's screens. */
  lemma DragScreenWithin(menu: seq<Module>, ev: DragEvent)
    requires ev.over.Some? && ev.active.kind == Some("screen") && ev.over.value.kind != Some("module")
    requires 0 <= HolderIndex(menu, ev.active.id) == HolderIndex(menu, ev.over.value.id)
    ensures var src := HolderIndex(menu, ev.active.id); var r := DragResult(menu, ev);
      (forall k :: 0 <= k < |menu| && k != src ==> r[k] == menu[k]) &&
      r[src].id == menu[src].id && r[src].name == menu[src].name &&
      multiset(r[src].screens) == multiset(menu[src].screens) &&
      r[src].screens[ScreenIndex(menu[src], ev.over.value.id)] == menu[src].screens[ScreenIndex(menu[src], ev.active.id)]
  {
    var src := HolderIndex(menu, ev.active.id);
    ArrayMoveSpec(menu[src].screens, ScreenIndex(menu[src], ev.active.id), ScreenIndex(menu[src], ev.over.value.id));
  }

  /**
   * A screen dragged onto a screen of another module leaves its module and
   * takes the target screen's index there; no other module changes.
   */
  lemma DragScreenAcross(menu: seq<Module>, ev: DragEvent)
    requires ev.over.Some? && ev.active.kind == Some("screen") && ev.over.value.kind != Some("module")
    requires 0 <= HolderIndex(menu, ev.active.id) && 0 <= HolderIndex(menu, ev.over.value.id)
    requires HolderIndex(menu, ev.active.id) != HolderIndex(menu, ev.over.value.id)
    ensures var src, tgt := HolderIndex(menu, ev.active.id), HolderIndex(menu, ev.over.value.id);
      var i, j := ScreenIndex(menu[src], ev.active.id), ScreenIndex(menu[tgt], ev.over.value.id);
      var r := DragResult(menu, ev);
      (forall k :: 0 <= k < |menu| && k != src && k != tgt ==> r[k] == menu[k]) &&
      r[src].screens == RemoveAt(menu[src].screens, i) &&
      r[tgt].screens == InsertAt(menu[tgt].screens, j, menu[src].screens[i]) &&
      |r[src].screens| + 1 == |menu[src].screens| && |r[tgt].screens| == |menu[tgt].screens| + 1
  {
  }

  // ---------------------------------------------------------------------
  // Editing

  /** The editor's form. */
  datatype FormData = FormData(name: string, key: string, route: string, icon: string, isActive: Value)

  /** `{name: '', key: '', route: '', icon: '', isActive: true}`. */
  const EmptyForm := FormData("", "", "", "", Bool(true))

  /**
   * What is being edited: a module or a screen, its module index, its
   * screen index (`None` for a module) and the id of the item being edited
   * (`Undefined` for a new one).
   */
  datatype EditingItem = EditingItem(isModule: bool, pIndex: nat, cIndex: Option<nat>, dataId: Value)

  /** `itemData.id`: the edited item's id, or a generated one stamped with the clock. */
  function ItemId(item: EditingItem, now: nat): Value
  {
    Or(item.dataId, Str((if item.isModule then "module-" else "screen-") + NatToString(now)))
  }

  /** The menu after `handleSaveItem()`. */
  function SavedMenu(menu: seq<Module>, form: FormData, item: EditingItem, now: nat): (r: seq<Module>)
    ensures form.name == "" ==> r == menu
    ensures |r| == if form.name != "" && item.isModule && item.pIndex >= |menu| then |menu| + 1 else |menu|
  {
    if form.name == "" then menu
    else
      var id := ItemId(item, now);
      if item.isModule then
        if item.pIndex < |menu| then
          menu[item.pIndex := menu[item.pIndex].(name := Some(form.name), id := id, route := Some(form.route),
                                                 icon := Some(form.icon), isActive := form.isActive)]
        else menu + [Module(id, Some(form.name), Some(form.route), Some(form.icon), form.isActive, [])]
      else if item.pIndex < |menu| then
        var m := menu[item.pIndex];
        if item.cIndex.Some? && item.cIndex.value < |m.screens| then
          var c := item.cIndex.value;
          menu[item.pIndex := m.(screens := m.screens[c := m.screens[c].(name := Some(form.name), id := id,
                              route := Some(form.route), icon := Some(form.icon), isActive := form.isActive)])]
        else
          menu[item.pIndex := m.(screens := m.screens + [Screen(id, Some(form.name), Some(form.route), Some(form.icon), form.isActive, None)])]
      else menu
  }

  /**
   * Saving adds a screen exactly when a screen is created in an existing
   * module, keeps every other module's screens, and writes the form's name
   * onto the edited or created item.
   */
  lemma SavedMenuEffect(menu: seq<Module>, form: FormData, item: EditingItem, now: nat)
    requires form.name != ""
    ensures var r := SavedMenu(menu, form, item, now);
      var added := !item.isModule && item.pIndex < |menu| &&
                   !(item.cIndex.Some? && item.cIndex.value < |menu[item.pIndex].screens|);
      TotalScreens(r) == TotalScreens(menu) + (if added then 1 else 0) &&
      (forall k :: 0 <= k < |menu| && k != item.pIndex ==> r[k] == menu[k]) &&
      (item.isModule ==> r[if item.pIndex < |menu| then item.pIndex else |menu|].name == Some(form.name)) &&
      (added ==> r[item.pIndex].screens[|menu[item.pIndex].screens|].name == Some(form.name)) &&
      (item.isModule && item.pIndex >= |menu| ==> r[|menu|].screens == [])
  {
    var r := SavedMenu(menu, form, item, now);
    if item.isModule {
      if item.pIndex < |menu| {
        TotalScreensUpdate(menu, item.pIndex, r[item.pIndex]);
      } else {
        TotalScreensAppend(menu, [r[|menu|]]);
        assert TotalScreens([r[|menu|]]) == 0;
      }
    } else if item.pIndex < |menu| {
      TotalScreensUpdate(menu, item.pIndex, r[item.pIndex]);
    }
  }

  // ---------------------------------------------------------------------
  // The save payload

  datatype ScreenPayload = ScreenPayload(
    screenId: Value, screenName: Option<string>, screenRoute: Option<string>,
    orderIndex: nat, isActive: Value, actions: seq<Value>)

  datatype ModulePayload = ModulePayload(
    moduleId: Value, moduleName: Option<string>, kind: string, moduleRoute: Option<string>,
    orderIndex: nat, isActive: Value, screens: seq<ScreenPayload>)

  /** The actions a screen without any is saved with. */
  const DefaultActions: seq<Value> := [Num(1), Num(2), Num(3)]

  /** A generated id (`module-…` / `screen-…`) is sent as undefined; any other id as it is. */
  function SentId(id: Value, prefix: string): (r: Value)
    ensures r == Undefined || r == id
    ensures Truthy(id) && !StartsWith(ToStr(id), prefix) ==> r == id
  {
    if Truthy(id) && StartsWith(ToStr(id), prefix) then Undefined else id
  }

  function ScreenPayloadOf(s: Screen, j: nat): ScreenPayload
  {
    ScreenPayload(SentId(s.id, "screen-"), s.name, s.route, j, s.isActive,
      if s.actions.Some? then s.actions.value else DefaultActions)
  }

  function ModulePayloadOf(m: Module, i: nat): (p: ModulePayload)
    ensures |p.screens| == |m.screens|
    ensures forall j :: 0 <= j < |p.screens| ==> p.screens[j] == ScreenPayloadOf(m.screens[j], j)
  {
    ModulePayload(SentId(m.id, "module-"), m.name, "module", Api.OrOpt(m.route, None), i, m.isActive,
      seq(|m.screens|, j requires 0 <= j < |m.screens| => ScreenPayloadOf(m.screens[j], j)))
  }

  /** `dispatchSave(data)`'s payload. */
  function SavePayload(menu: seq<Module>): (p: seq<ModulePayload>)
    ensures |p| == |menu|
    ensures forall i :: 0 <= i < |p| ==> p[i] == ModulePayloadOf(menu[i], i)
  {
    seq(|menu|, i requires 0 <= i < |menu| => ModulePayloadOf(menu[i], i))
  }

  /**
   * Order indices are positions, names are carried over, and a screen
   * without actions is saved with read, create and update.
   */
  lemma SavePayloadOrder(menu: seq<Module>, i: nat, j: nat)
    requires i < |menu| && j < |menu[i].screens|
    ensures var p := SavePayload(menu);
      p[i].orderIndex == i && p[i].moduleName == menu[i].name && p[i].kind == "module" &&
      p[i].screens[j].orderIndex == j && p[i].screens[j].screenName == menu[i].screens[j].name &&
      (menu[i].screens[j].actions.None? ==> p[i].screens[j].actions == DefaultActions) &&
      (menu[i].screens[j].actions.Some? ==> p[i].screens[j].actions == menu[i].screens[j].actions.value)
  {
  }

  /** Generated ids never reach the backend: a freshly loaded module without an id is sent without one. */
  lemma FetchedTempIdsNotSent(rows: seq<Api.ModuleRow>, moduleStamp: nat -> string, screenStamp: (nat, nat) -> string, i: nat)
    requires i < |rows| && !Truthy(rows[i].id)
    ensures SavePayload(FetchedMenu(rows, moduleStamp, screenStamp))[i].moduleId == Undefined
  {
    var p := "module-";
    assert (p + moduleStamp(i))[..|p|] == p;
  }

  /** A module loaded with a backend id is saved back under that id, at its position. */
  lemma FetchedIdsRoundTrip(rows: seq<Api.ModuleRow>, moduleStamp: nat -> string, screenStamp: (nat, nat) -> string, i: nat)
    requires i < |rows| && Truthy(rows[i].id) && !StartsWith(ToStr(rows[i].id), "module-")
    ensures var p := SavePayload(FetchedMenu(rows, moduleStamp, screenStamp))[i];
      p.moduleId == rows[i].id && p.moduleName == rows[i].name && p.orderIndex == i
  {
  }

  /** A module created in the editor is sent without an id, at the end of the list. */
  lemma NewModuleSentWithoutId(menu: seq<Module>, form: FormData, now: nat)
    requires form.name != ""
    ensures var p := SavePayload(SavedMenu(menu, form, EditingItem(true, |menu|, None, Undefined), now));
      |p| == |menu| + 1 && p[|menu|].moduleId == Undefined && p[|menu|].orderIndex == |menu| && p[|menu|].screens == []
  {
    var pre := "module-";
    assert (pre + NatToString(now))[..|pre|] == pre;
  }

  // ---------------------------------------------------------------------
  // Permission

  /** `permissions['/menu-builder']?.update || permissions['menu-builder']?.update || false`. */
  predicate HasUpdatePermission(perms: Permissions)
  {
    var a, b := Dict.Get(perms, "/menu-builder"), Dict.Get(perms, "menu-builder");
    (a.Some? && Truthy(a.value.update)) || (b.Some? && Truthy(b.value.update))
  }

  /** The layout's derived permissions let the builder save once the menu lists its screen. */
  lemma DerivedPermissionsAllowSave(items: seq<Layout.MenuModule>, i: nat)
    requires i < |Layout.AllScreens(items)| && Layout.RouteKey(Layout.AllScreens(items)[i]) == "menu-builder"
    ensures HasUpdatePermission(Layout.DerivedPermissions(items))
  {
    Layout.DerivedGet(items, "menu-builder");
  }

  // ---------------------------------------------------------------------
  // The page

  class MenuBuilderPage {
    var menu: seq<Module>
    var loading: bool
    var modalOpen: bool
    var editing: Option<EditingItem>
    var form: FormData

    constructor ()
      ensures menu == [] && loading && !modalOpen && editing.None? && form == EmptyForm
    {
      menu, loading, modalOpen, editing, form := [], true, false, None, EmptyForm;
    }

    /** `totalMenus` for the current menu. */
    function Total(): (n: nat)
      reads this
      ensures n == |menu| + TotalScreens(menu)
    {
      TotalMenusCount(menu);
      TotalMenus(menu)
    }

    /** `fetchData()` once the request settled: `None` when it failed. */
    method FetchData(result: Option<seq<Api.ModuleRow>>, moduleStamp: nat -> string, screenStamp: (nat, nat) -> string)
      modifies this
      ensures result.Some? ==> menu == FetchedMenu(result.value, moduleStamp, screenStamp)
      ensures result.None? ==> menu == old(menu)
      ensures !loading && modalOpen == old(modalOpen) && editing == old(editing) && form == old(form)
    {
      loading := true;
      if result.Some? {
        menu := FetchedMenu(result.value, moduleStamp, screenStamp);
      }
      loading := false;
    }

    /** `handleDragEnd(event)`. */
    method HandleDragEnd(ev: DragEvent)
      modifies this
      ensures menu == DragResult(old(menu), ev)
      ensures loading == old(loading) && modalOpen == old(modalOpen) && editing == old(editing) && form == old(form)
    {
      if ev.over.None? {
        return;
      }
      var active, over := ev.active, ev.over.value;
      if active.kind == Some("module") && over.kind == Some("module") {
        if !StrictEquals(active.id, over.id) {
          var oldIndex := ModuleIndex(menu, active.id);
          var newIndex := ModuleIndex(menu, over.id);
          if 0 <= oldIndex && 0 <= newIndex {
            menu := ArrayMove(menu, oldIndex, newIndex);
          }
        }
        return;
      }
      if active.kind == Some("screen") {
        var sourceModuleIndex := HolderIndex(menu, active.id);
        var targetModuleIndex := HolderIndex(menu, over.id);
        if sourceModuleIndex != -1 && targetModuleIndex != -1 && sourceModuleIndex == targetModuleIndex {
          var moduleIndex := sourceModuleIndex;
          var screens := menu[moduleIndex].screens;
          var oldIndex := ScreenIndex(menu[moduleIndex], active.id);
          var newIndex := ScreenIndex(menu[moduleIndex], over.id);
          if oldIndex != newIndex {
            var newMenu := menu;
            newMenu := newMenu[moduleIndex := newMenu[moduleIndex].(screens := ArrayMove(screens, oldIndex, newIndex))];
            menu := newMenu;
          }
        } else if sourceModuleIndex != -1 && targetModuleIndex != -1 {
          var sourceScreenIndex := ScreenIndex(menu[sourceModuleIndex], active.id);
          var targetScreenIndex := ScreenIndex(menu[targetModuleIndex], over.id);
          var newMenu := menu;
          var movedScreen := newMenu[sourceModuleIndex].screens[sourceScreenIndex];
          newMenu := newMenu[sourceModuleIndex := newMenu[sourceModuleIndex].(
                       screens := RemoveAt(newMenu[sourceModuleIndex].screens, sourceScreenIndex))];
          newMenu := newMenu[targetModuleIndex := newMenu[targetModuleIndex].(
                       screens := InsertAt(newMenu[targetModuleIndex].screens, targetScreenIndex, movedScreen))];
          menu := newMenu;
        }
      }
    }

    /** `handleCreateMenu()`: a new module at the end, with an empty form. */
    method HandleCreateMenu()
      modifies this
      ensures editing == Some(EditingItem(true, |menu|, None, Undefined)) && form == EmptyForm && modalOpen
      ensures menu == old(menu) && loading == old(loading)
    {
      editing := Some(EditingItem(true, |menu|, None, Undefined));
      form := EmptyForm;
      modalOpen := true;
    }

    /**
     * `handleSaveItem()` at clock `now`: returns the payload dispatched to
     * the backend, or `None` when the empty name stops the save.
     */
    method HandleSaveItem(now: nat) returns (sent: Option<seq<ModulePayload>>)
      requires editing.Some?
      modifies this
      ensures menu == SavedMenu(old(menu), old(form), old(editing).value, now)
      ensures form.name == "" ==> sent.None? && modalOpen == old(modalOpen)
      ensures form.name != "" ==> sent == Some(SavePayload(menu)) && !modalOpen
      ensures form == old(form) && editing == old(editing) && loading == old(loading)
    {
      if form.name == "" {
        return None;
      }
      menu := SavedMenu(menu, form, editing.value, now);
      modalOpen := false;
      sent := Some(SavePayload(menu));
    }
  }
}

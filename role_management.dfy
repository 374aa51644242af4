/**
 * The super-admin role editor (src/modules/superadmin/RoleManagementPage.jsx):
 * the screen list of the permission matrix, toggling one cell of the
 * matrix, the permission payload sent when a role is saved, the role
 * search and the role counters.
 */
module RoleManagement {
  import opened Js
  import Dict
  import Api

  // ---------------------------------------------------------------------
  // The screen list

  /** One row of the permission matrix: keyed by the screen's route. */
  datatype SystemScreen = SystemScreen(key: Option<string>, realId: Value, caption: Option<string>, moduleName: Option<string>)

  /** The row pushed for screen `scr` of module `mod`. */
  function ScreenEntry(mod: Api.ModuleRow, scr: Api.ScreenRow): (e: SystemScreen)
    ensures e.key == scr.route && e.caption == scr.name && e.moduleName == mod.name
    ensures Truthy(scr.id) ==> e.realId == scr.id
    ensures !Truthy(scr.id) ==> e.realId == scr.screenId
  {
    SystemScreen(scr.route, Or(scr.id, scr.screenId), scr.name, mod.name)
  }

  /** The rows of one module, in screen order (none when `screens` is absent). */
  function ModuleEntries(mod: Api.ModuleRow): (r: seq<SystemScreen>)
    ensures |r| == |Api.RowScreens(mod)|
    ensures forall j :: 0 <= j < |r| ==> r[j] == ScreenEntry(mod, Api.RowScreens(mod)[j])
  {
    var scs := Api.RowScreens(mod);
    seq(|scs|, j requires 0 <= j < |scs| => ScreenEntry(mod, scs[j]))
  }

  /** The matrix rows of a menu: module after module, screen after screen. */
  function SystemScreens(mods: seq<Api.ModuleRow>): seq<SystemScreen>
  {
    if mods == [] then [] else ModuleEntries(mods[0]) + SystemScreens(mods[1..])
  }

  /** The number of screens of a menu. */
  function ScreenCount(mods: seq<Api.ModuleRow>): nat
  {
    if mods == [] then 0 else |Api.RowScreens(mods[0])| + ScreenCount(mods[1..])
  }

  /** One row per screen. */
  lemma {:induction false} SystemScreensCount(mods: seq<Api.ModuleRow>)
    ensures |SystemScreens(mods)| == ScreenCount(mods)
  {
    if mods != [] {
      SystemScreensCount(mods[1..]);
    }
  }

  /** The rows of two menus in a row are the rows of the first, then those of the second. */
  lemma {:induction false} SystemScreensAppend(a: seq<Api.ModuleRow>, b: seq<Api.ModuleRow>)
    ensures SystemScreens(a + b) == SystemScreens(a) + SystemScreens(b)
  {
    if a == [] {
      assert a + b == b;
    } else {
      var x, t := a[0], a[1..];
      calc {
        SystemScreens(a + b);
        { assert a + b == [x] + (t + b); SystemScreensCons(x, t + b); }
        ModuleEntries(x) + SystemScreens(t + b);
        { SystemScreensAppend(t, b); }
        ModuleEntries(x) + (SystemScreens(t) + SystemScreens(b));
        { AppendAssoc(ModuleEntries(x), SystemScreens(t), SystemScreens(b)); }
        (ModuleEntries(x) + SystemScreens(t)) + SystemScreens(b);
        { assert a == [x] + t; SystemScreensCons(x, t); }
        SystemScreens(a) + SystemScreens(b);
      }
    }
  }

  lemma SystemScreensCons(x: Api.ModuleRow, t: seq<Api.ModuleRow>)
    ensures SystemScreens([x] + t) == ModuleEntries(x) + SystemScreens(t)
  {
    assert ([x] + t)[1..] == t;
  }

  /** Every row comes from some screen of some module, keyed by that screen's route. */
  lemma {:induction false} SystemScreensFromMenu(mods: seq<Api.ModuleRow>, k: nat)
    requires k < |SystemScreens(mods)|
    ensures exists i, j :: 0 <= i < |mods| && 0 <= j < |Api.RowScreens(mods[i])| &&
              SystemScreens(mods)[k] == ScreenEntry(mods[i], Api.RowScreens(mods[i])[j])
  {
    var first := ModuleEntries(mods[0]);
    if k < |first| {
      assert SystemScreens(mods)[k] == ScreenEntry(mods[0], Api.RowScreens(mods[0])[k]);
    } else {
      SystemScreensFromMenu(mods[1..], k - |first|);
      var i, j :| 0 <= i < |mods[1..]| && 0 <= j < |Api.RowScreens(mods[1..][i])| &&
                  SystemScreens(mods[1..])[k - |first|] == ScreenEntry(mods[1..][i], Api.RowScreens(mods[1..][i])[j]);
      assert mods[1..][i] == mods[i + 1];
    }
  }

  /** The inner `forEach` of `fetchData`: push the rows of one module. */
  method PushModuleEntries(screens: seq<SystemScreen>, mod: Api.ModuleRow) returns (r: seq<SystemScreen>)
    ensures r == screens + ModuleEntries(mod)
  {
    r := screens;
    if mod.screens.Some? {
      var scs := mod.screens.value;
      var j := 0;
      while j < |scs|
        invariant 0 <= j <= |scs|
        invariant r == screens + ModuleEntries(mod)[..j]
      {
        assert ModuleEntries(mod)[..j + 1] == ModuleEntries(mod)[..j] + [ScreenEntry(mod, scs[j])];
        r := r + [SystemScreen(scs[j].route, Or(scs[j].id, scs[j].screenId), scs[j].name, mod.name)];
        j := j + 1;
      }
      assert ModuleEntries(mod)[..j] == ModuleEntries(mod);
    }
  }

  /** The nested `forEach` of `fetchData` that fills the screen list. */
  method BuildSystemScreens(menuData: seq<Api.ModuleRow>) returns (screens: seq<SystemScreen>)
    ensures screens == SystemScreens(menuData)
  {
    screens := [];
    var m := 0;
    while m < |menuData|
      invariant 0 <= m <= |menuData|
      invariant screens + SystemScreens(menuData[m..]) == SystemScreens(menuData)
    {
      var next := PushModuleEntries(screens, menuData[m]);
      calc {
        next + SystemScreens(menuData[m + 1..]);
        (screens + ModuleEntries(menuData[m])) + SystemScreens(menuData[m + 1..]);
        { AppendAssoc(screens, ModuleEntries(menuData[m]), SystemScreens(menuData[m + 1..])); }
        screens + (ModuleEntries(menuData[m]) + SystemScreens(menuData[m + 1..]));
        { assert menuData[m..][0] == menuData[m] && menuData[m..][1..] == menuData[m + 1..]; }
        screens + SystemScreens(menuData[m..]);
      }
      screens := next;
      m := m + 1;
    }
  }

  // ---------------------------------------------------------------------
  // The matrix

  /** One screen's cells: action key to whatever was stored (booleans from the editor). */
  type ActionFlags = Dict.Dict<Value>

  /** Screen key to its cells, in key order. */
  type Matrix = Dict.Dict<ActionFlags>

  /** `formData.permissions[screenId] || {}`. */
  function CellsOf(perms: Matrix, screenId: string): ActionFlags
  {
    var c := Dict.Get(perms, screenId);
    if c.Some? then c.value else Dict.Empty()
  }

  /** `!!permissions[screenId]?.[actionKey]`: the box is ticked. */
  predicate Checked(perms: Matrix, screenId: string, actionKey: string)
  {
    var v := Dict.Get(CellsOf(perms, screenId), actionKey);
    v.Some? && Truthy(v.value)
  }

  /** `togglePermission(screenId, actionKey)`. */
  function Toggle(perms: Matrix, screenId: string, actionKey: string): Matrix
  {
    var current := CellsOf(perms, screenId);
    Dict.Put(perms, screenId, Dict.Put(current, actionKey, Bool(!Checked(perms, screenId, actionKey))))
  }

  /** Toggling flips exactly one cell: every other cell of every screen keeps its value. */
  lemma ToggleFlips(perms: Matrix, screenId: string, actionKey: string, s: string, a: string)
    ensures Checked(Toggle(perms, screenId, actionKey), screenId, actionKey) == !Checked(perms, screenId, actionKey)
    ensures s != screenId ==> Dict.Get(Toggle(perms, screenId, actionKey), s) == Dict.Get(perms, s)
    ensures a != actionKey ==>
              Dict.Get(CellsOf(Toggle(perms, screenId, actionKey), screenId), a) == Dict.Get(CellsOf(perms, screenId), a)
  {
    var current := CellsOf(perms, screenId);
    var cells := Dict.Put(current, actionKey, Bool(!Checked(perms, screenId, actionKey)));
    Dict.PutGet(perms, screenId, cells, screenId);
    Dict.PutGet(perms, screenId, cells, s);
    Dict.PutGet(current, actionKey, Bool(!Checked(perms, screenId, actionKey)), actionKey);
    Dict.PutGet(current, actionKey, Bool(!Checked(perms, screenId, actionKey)), a);
  }

  /** Toggling the same cell twice restores whether it is ticked. */
  lemma ToggleTwice(perms: Matrix, screenId: string, actionKey: string)
    ensures Checked(Toggle(Toggle(perms, screenId, actionKey), screenId, actionKey), screenId, actionKey)
            == Checked(perms, screenId, actionKey)
  {
    ToggleFlips(perms, screenId, actionKey, screenId, actionKey);
    ToggleFlips(Toggle(perms, screenId, actionKey), screenId, actionKey, screenId, actionKey);
  }

  // ---------------------------------------------------------------------
  // The save payload

  /** `ACTION_MAP[key]`: the four known actions; `approve` and every other key have no id. */
  function ActionId(key: string): Option<string>
  {
    match key
    case "read" => Some("1")
    case "create" => Some("2")
    case "update" => Some("3")
    case "delete" => Some("4")
    case _ => None
  }

  /** One of the four action ids `"1"` to `"4"`. */
  predicate KnownActionId(id: string)
  {
    |id| == 1 && '1' <= id[0] <= '4'
  }

  /** The ids of the ticked, known actions of one screen, in key order. */
  function ActionIds(cells: seq<(string, Value)>): (ids: seq<string>)
    ensures |ids| <= |cells|
    ensures forall i :: 0 <= i < |ids| ==> KnownActionId(ids[i])
  {
    if cells == [] then []
    else
      var id := ActionId(cells[0].0);
      (if Truthy(cells[0].1) && id.Some? then [id.value] else []) + ActionIds(cells[1..])
  }

  /** An action's id is sent exactly when some cell with that action's key is ticked. */
  lemma {:induction false} ActionIdsSelected(cells: seq<(string, Value)>, key: string)
    requires ActionId(key).Some?
    ensures ActionId(key).value in ActionIds(cells) <==> exists i :: 0 <= i < |cells| && cells[i].0 == key && Truthy(cells[i].1)
  {
    if cells != [] {
      ActionIdsSelected(cells[1..], key);
      if exists i :: 0 <= i < |cells[1..]| && cells[1..][i].0 == key && Truthy(cells[1..][i].1) {
        var i :| 0 <= i < |cells[1..]| && cells[1..][i].0 == key && Truthy(cells[1..][i].1);
        assert cells[i + 1] == cells[1..][i];
      }
      if exists i :: 0 <= i < |cells| && cells[i].0 == key && Truthy(cells[i].1) {
        var i :| 0 <= i < |cells| && cells[i].0 == key && Truthy(cells[i].1);
        if i > 0 {
          assert cells[1..][i - 1] == cells[i];
        }
      }
    }
  }

  lemma {:induction false} ActionIdsAppend(a: seq<(string, Value)>, b: seq<(string, Value)>)
    ensures ActionIds(a + b) == ActionIds(a) + ActionIds(b)
  {
    if a == [] {
      assert a + b == b;
    } else {
      var head := if Truthy(a[0].1) && ActionId(a[0].0).Some? then [ActionId(a[0].0).value] else [];
      calc {
        ActionIds(a + b);
        { assert (a + b)[0] == a[0] && (a + b)[1..] == a[1..] + b; }
        head + ActionIds(a[1..] + b);
        { ActionIdsAppend(a[1..], b); }
        head + (ActionIds(a[1..]) + ActionIds(b));
        (head + ActionIds(a[1..])) + ActionIds(b);
      }
    }
  }

  /** Ticking `approve` sends nothing: the action has no id. */
  lemma ApproveDropped(cells: seq<(string, Value)>, v: Value)
    ensures ActionIds(cells + [("approve", v)]) == ActionIds(cells)
  {
    var tail: seq<(string, Value)> := [("approve", v)];
    assert ActionId("approve") == None;
    assert ActionIds(tail) == [] + ActionIds(tail[1..]);
    ActionIdsAppend(cells, tail);
  }

  /** `systemScreens.find(s => s.id === key)`. */
  function FindScreen(screens: seq<SystemScreen>, key: string): (r: Option<SystemScreen>)
    ensures r.Some? ==> r.value in screens && r.value.key == Some(key)
    ensures r.None? ==> forall i :: 0 <= i < |screens| ==> screens[i].key != Some(key)
  {
    if screens == [] then None
    else if screens[0].key == Some(key) then Some(screens[0])
    else FindScreen(screens[1..], key)
  }

  /** The screen id sent for a matrix key: the row's real id, else the key read as an integer. */
  function ResolveScreenId(screens: seq<SystemScreen>, key: string): Value
  {
    var found := FindScreen(screens, key);
    var realId := if found.Some? then found.value.realId else Undefined;
    if !Truthy(realId) && ParseInt(key).Some? then Num(ParseInt(key).value) else realId
  }

  /** `{screenId, actionIds}`. */
  datatype ScreenGrant = ScreenGrant(screenId: Value, actionIds: seq<string>)

  /**
   * The `map` step for one matrix entry: `null` when no screen id resolves,
   * else the id with the sent action ids (possibly none).
   */
  function Draft(entry: (string, ActionFlags), screens: seq<SystemScreen>): (d: Option<ScreenGrant>)
    ensures d.Some? <==> Truthy(ResolveScreenId(screens, entry.0))
    ensures d.Some? ==> d.value == ScreenGrant(ResolveScreenId(screens, entry.0), ActionIds(entry.1.entries))
  {
    var id := ResolveScreenId(screens, entry.0);
    if Truthy(id) then Some(ScreenGrant(id, ActionIds(entry.1.entries))) else None
  }

  /** The `map` over all entries, in key order. */
  function Drafts(entries: seq<(string, ActionFlags)>, screens: seq<SystemScreen>): (ds: seq<Option<ScreenGrant>>)
    ensures |ds| == |entries|
    ensures forall i :: 0 <= i < |ds| ==> ds[i] == Draft(entries[i], screens)
  {
    seq(|entries|, i requires 0 <= i < |entries| => Draft(entries[i], screens))
  }

  /** Every grant names a screen and at least one action. */
  predicate GrantsValid(p: seq<ScreenGrant>)
  {
    forall i :: 0 <= i < |p| ==> Truthy(p[i].screenId) && |p[i].actionIds| > 0
  }

  /** `.filter(p => p && p.screenId && p.actionIds.length > 0)`. */
  function KeepGrants(ds: seq<Option<ScreenGrant>>): (p: seq<ScreenGrant>)
    ensures |p| <= |ds|
    ensures GrantsValid(p)
  {
    if ds == [] then []
    else
      var d := ds[0];
      (if d.Some? && Truthy(d.value.screenId) && |d.value.actionIds| > 0 then [d.value] else []) + KeepGrants(ds[1..])
  }

  /** The filter keeps exactly the drafts that name a screen and some action. */
  lemma {:induction false} KeepGrantsMembers(ds: seq<Option<ScreenGrant>>, g: ScreenGrant)
    ensures g in KeepGrants(ds) <==> Some(g) in ds && Truthy(g.screenId) && |g.actionIds| > 0
  {
    if ds != [] {
      KeepGrantsMembers(ds[1..], g);
      assert ds == [ds[0]] + ds[1..];
    }
  }

  lemma {:induction false} KeepGrantsAppend(a: seq<Option<ScreenGrant>>, b: seq<Option<ScreenGrant>>)
    ensures KeepGrants(a + b) == KeepGrants(a) + KeepGrants(b)
  {
    if a == [] {
      assert a + b == b;
    } else {
      var d, t := a[0], a[1..];
      var head := if d.Some? && Truthy(d.value.screenId) && |d.value.actionIds| > 0 then [d.value] else [];
      calc {
        KeepGrants(a + b);
        { assert a + b == [d] + (t + b); KeepGrantsCons(d, t + b); }
        head + KeepGrants(t + b);
        { KeepGrantsAppend(t, b); }
        head + (KeepGrants(t) + KeepGrants(b));
        { AppendAssoc(head, KeepGrants(t), KeepGrants(b)); }
        (head + KeepGrants(t)) + KeepGrants(b);
        { assert a == [d] + t; KeepGrantsCons(d, t); }
        KeepGrants(a) + KeepGrants(b);
      }
    }
  }

  lemma KeepGrantsCons(d: Option<ScreenGrant>, t: seq<Option<ScreenGrant>>)
    ensures KeepGrants([d] + t) ==
      (if d.Some? && Truthy(d.value.screenId) && |d.value.actionIds| > 0 then [d.value] else []) + KeepGrants(t)
  {
    assert ([d] + t)[1..] == t;
  }

  /** `permissionsPayload`: one grant per resolvable matrix key with at least one sent action. */
  function PermissionsPayload(entries: seq<(string, ActionFlags)>, screens: seq<SystemScreen>): (p: seq<ScreenGrant>)
    ensures |p| <= |entries|
    ensures GrantsValid(p)
  {
    KeepGrants(Drafts(entries, screens))
  }

  /** The payload of entries added one after another is the payloads in a row. */
  lemma PermissionsPayloadAppend(a: seq<(string, ActionFlags)>, b: seq<(string, ActionFlags)>, screens: seq<SystemScreen>)
    ensures PermissionsPayload(a + b, screens) == PermissionsPayload(a, screens) + PermissionsPayload(b, screens)
  {
    DraftsAppend(a, b, screens);
    KeepGrantsAppend(Drafts(a, screens), Drafts(b, screens));
  }

  lemma DraftsAppend(a: seq<(string, ActionFlags)>, b: seq<(string, ActionFlags)>, screens: seq<SystemScreen>)
    ensures Drafts(a + b, screens) == Drafts(a, screens) + Drafts(b, screens)
  {
    var l, r := Drafts(a + b, screens), Drafts(a, screens) + Drafts(b, screens);
    assert |l| == |r|;
    forall i | 0 <= i < |l|
      ensures l[i] == r[i]
    {
      DraftAt(a, b, screens, i);
    }
  }

  lemma DraftAt(a: seq<(string, ActionFlags)>, b: seq<(string, ActionFlags)>, screens: seq<SystemScreen>, i: nat)
    requires i < |a| + |b|
    ensures Drafts(a + b, screens)[i] == (Drafts(a, screens) + Drafts(b, screens))[i]
  {
    var da, db, ab := Drafts(a, screens), Drafts(b, screens), a + b;
    var e := ab[i];
    assert Drafts(ab, screens)[i] == Draft(e, screens);
    if i < |a| {
      assert e == a[i];
      assert da[i] == Draft(e, screens);
      assert (da + db)[i] == da[i];
    } else {
      assert e == b[i - |a|];
      assert db[i - |a|] == Draft(e, screens);
      assert (da + db)[i] == db[i - |a|];
    }
  }

  /** A key naming a matrix row with a real id is sent under that id with its ticked actions. */
  lemma RowKeySentWithRealId(entries: seq<(string, ActionFlags)>, key: string, cells: ActionFlags, screens: seq<SystemScreen>)
    requires FindScreen(screens, key).Some? && Truthy(FindScreen(screens, key).value.realId)
    requires ActionIds(cells.entries) != []
    ensures PermissionsPayload(entries + [(key, cells)], screens) ==
            PermissionsPayload(entries, screens) + [ScreenGrant(FindScreen(screens, key).value.realId, ActionIds(cells.entries))]
  {
    PermissionsPayloadAppend(entries, [(key, cells)], screens);
  }

  /** A key that is neither a row with a real id nor an integer is dropped, whatever is ticked. */
  lemma UnresolvedKeyDropped(entries: seq<(string, ActionFlags)>, key: string, cells: ActionFlags, screens: seq<SystemScreen>)
    requires FindScreen(screens, key).None? || !Truthy(FindScreen(screens, key).value.realId)
    requires ParseInt(key).None?
    ensures PermissionsPayload(entries + [(key, cells)], screens) == PermissionsPayload(entries, screens)
  {
    PermissionsPayloadAppend(entries, [(key, cells)], screens);
  }

  /** A key that names no row with a real id but reads as a non-zero integer is sent under that number. */
  lemma NumericKeyFallback(entries: seq<(string, ActionFlags)>, key: string, cells: ActionFlags, screens: seq<SystemScreen>)
    requires FindScreen(screens, key).None? || !Truthy(FindScreen(screens, key).value.realId)
    requires ParseInt(key).Some? && ParseInt(key).value != 0
    requires ActionIds(cells.entries) != []
    ensures PermissionsPayload(entries + [(key, cells)], screens) ==
            PermissionsPayload(entries, screens) + [ScreenGrant(Num(ParseInt(key).value), ActionIds(cells.entries))]
  {
    var g := ScreenGrant(Num(ParseInt(key).value), ActionIds(cells.entries));
    assert PermissionsPayload([(key, cells)], screens) == [g] by {
      assert ResolveScreenId(screens, key) == Num(ParseInt(key).value);
      assert Drafts([(key, cells)], screens) == [Some(g)];
      assert KeepGrants([Some(g)]) == [g] + KeepGrants([]);
    }
    PermissionsPayloadAppend(entries, [(key, cells)], screens);
  }

  /** A screen with no ticked known action is dropped. */
  lemma NothingTickedDropped(entries: seq<(string, ActionFlags)>, key: string, cells: ActionFlags, screens: seq<SystemScreen>)
    requires ActionIds(cells.entries) == []
    ensures PermissionsPayload(entries + [(key, cells)], screens) == PermissionsPayload(entries, screens)
  {
    PermissionsPayloadAppend(entries, [(key, cells)], screens);
  }

  /** The role editor's form. */
  datatype RoleForm = RoleForm(name: string, description: string, isAgent: Value, permissions: Matrix)

  /** `{name: '', description: '', isAgent: false, permissions: {}}`. */
  const EmptyRoleForm := RoleForm("", "", Bool(false), Dict.Empty())

  /** A role as listed by the backend. */
  datatype RoleRow = RoleRow(id: Value, name: string, description: Option<string>, isAgent: Value, isSystem: Value, permissions: Option<Matrix>)

  datatype RolePayload = RolePayload(name: string, description: string, isAgent: Value, permissions: seq<ScreenGrant>)

  /** What `handleSave` does: refuse an empty name, or create or update the role. */
  datatype SaveRequest = NameRequired | CreateRole(payload: RolePayload) | UpdateRole(id: Value, payload: RolePayload)

  function SaveRequestFor(form: RoleForm, editing: Option<RoleRow>, screens: seq<SystemScreen>): (r: SaveRequest)
    ensures r == NameRequired <==> form.name == ""
    ensures r.CreateRole? <==> form.name != "" && editing.None?
    ensures !r.NameRequired? ==> r.payload.name == form.name && r.payload.permissions == PermissionsPayload(form.permissions.entries, screens)
  {
    if form.name == "" then NameRequired
    else
      var payload := RolePayload(form.name, form.description, form.isAgent, PermissionsPayload(form.permissions.entries, screens));
      if editing.Some? then UpdateRole(editing.value.id, payload) else CreateRole(payload)
  }

  /** The form an edited role starts with. */
  function EditForm(role: RoleRow): (f: RoleForm)
    ensures f.name == role.name
    ensures f.description == (if role.description.Some? then role.description.value else "")
  {
    RoleForm(role.name, if role.description.Some? then role.description.value else "", Or(role.isAgent, Bool(false)),
      if role.permissions.Some? then role.permissions.value else Dict.Empty())
  }

  // ---------------------------------------------------------------------
  // Search and counters

  /** `roles.filter(r => r.name.toLowerCase().includes(searchTerm.toLowerCase()))`. */
  function FilteredRoles(roles: seq<RoleRow>, term: string): (r: seq<RoleRow>)
    ensures |r| <= |roles|
    ensures forall x :: x in r <==> x in roles && ContainsCI(x.name, term)
  {
    if roles == [] then []
    else (if ContainsCI(roles[0].name, term) then [roles[0]] else []) + FilteredRoles(roles[1..], term)
  }

  /**
   * `filter` keeps the order and the multiplicity of what it keeps: filtering a
   * concatenation filters each part and concatenates the results.
   */
  lemma {:induction false} FilteredRolesAppend(a: seq<RoleRow>, b: seq<RoleRow>, term: string)
    ensures FilteredRoles(a + b, term) == FilteredRoles(a, term) + FilteredRoles(b, term)
  {
    if a == [] {
      assert a + b == b;
    } else {
      var h, ft, fb := (if ContainsCI(a[0].name, term) then [a[0]] else []), FilteredRoles(a[1..], term), FilteredRoles(b, term);
      calc {
        FilteredRoles(a + b, term);
        { FilteredRolesUnfold(a + b, term); ConsAppend(a, b); }
        h + FilteredRoles(a[1..] + b, term);
        { FilteredRolesAppend(a[1..], b, term); }
        h + (ft + fb);
        { AppendAssoc(h, ft, fb); }
        (h + ft) + fb;
        { FilteredRolesUnfold(a, term); }
        FilteredRoles(a, term) + fb;
      }
    }
  }

  lemma FilteredRolesUnfold(a: seq<RoleRow>, term: string)
    requires a != []
    ensures FilteredRoles(a, term) == (if ContainsCI(a[0].name, term) then [a[0]] else []) + FilteredRoles(a[1..], term)
  {
  }

  /** An empty search lists every role. */
  lemma {:induction false} EmptySearchListsAll(roles: seq<RoleRow>)
    ensures FilteredRoles(roles, "") == roles
  {
    if roles != [] {
      ContainsEmpty(Lower(roles[0].name));
      assert Lower("") == "";
      EmptySearchListsAll(roles[1..]);
    }
  }

  /** `roles.filter(r => r.isSystem).length`. */
  function SystemRoles(roles: seq<RoleRow>): nat
  {
    if roles == [] then 0 else (if Truthy(roles[0].isSystem) then 1 else 0) + SystemRoles(roles[1..])
  }

  /** `totalRoles - systemRoles`. */
  function CustomRoles(roles: seq<RoleRow>): int
  {
    |roles| - SystemRoles(roles)
  }

  /** The roles that are not system roles, as the page would count them directly. */
  function NonSystemRoles(roles: seq<RoleRow>): nat
  {
    if roles == [] then 0 else (if Truthy(roles[0].isSystem) then 0 else 1) + NonSystemRoles(roles[1..])
  }

  /** The custom-role counter is exactly the number of non-system roles, so never negative. */
  lemma {:induction false} CustomRolesCount(roles: seq<RoleRow>)
    ensures CustomRoles(roles) == NonSystemRoles(roles) && CustomRoles(roles) >= 0
  {
    if roles != [] {
      CustomRolesCount(roles[1..]);
    }
  }

  // ---------------------------------------------------------------------
  // The page

  class RolePage {
    var roles: seq<RoleRow>
    var systemScreens: seq<SystemScreen>
    var form: RoleForm
    var editingRole: Option<RoleRow>
    var modalOpen: bool
    var loading: bool
    var searchTerm: string

    constructor ()
      ensures roles == [] && systemScreens == [] && form == EmptyRoleForm && editingRole.None?
      ensures !modalOpen && loading && searchTerm == ""
    {
      roles, systemScreens, form, editingRole := [], [], EmptyRoleForm, None;
      modalOpen, loading, searchTerm := false, true, "";
    }

    /**
     * `fetchData()`: `response` is `None` when either request failed, else
     * the role list (`None` when falsy) and the menu (`None` when not an array).
     */
    method FetchData(response: Option<(Option<seq<RoleRow>>, Option<seq<Api.ModuleRow>>)>)
      modifies this
      ensures response.Some? ==> roles == (if response.value.0.Some? then response.value.0.value else [])
      ensures response.Some? ==> systemScreens == (if response.value.1.Some? then SystemScreens(response.value.1.value) else [])
      ensures response.None? ==> roles == old(roles) && systemScreens == old(systemScreens)
      ensures !loading && form == old(form) && editingRole == old(editingRole) && modalOpen == old(modalOpen)
      ensures searchTerm == old(searchTerm)
    {
      loading := true;
      if response.Some? {
        var (rolesData, menuData) := response.value;
        roles := if rolesData.Some? then rolesData.value else [];
        var screens := [];
        if menuData.Some? {
          screens := BuildSystemScreens(menuData.value);
        }
        systemScreens := screens;
      }
      loading := false;
    }

    /** "Create role": an empty form for a new role. */
    method OpenCreate()
      modifies this
      ensures editingRole.None? && form == EmptyRoleForm && modalOpen
      ensures roles == old(roles) && systemScreens == old(systemScreens) && searchTerm == old(searchTerm) && loading == old(loading)
    {
      editingRole := None;
      form := EmptyRoleForm;
      modalOpen := true;
    }

    /** "Edit": the role's own values in the form. */
    method OpenEdit(role: RoleRow)
      modifies this
      ensures editingRole == Some(role) && form == EditForm(role) && modalOpen
      ensures roles == old(roles) && systemScreens == old(systemScreens) && searchTerm == old(searchTerm) && loading == old(loading)
    {
      editingRole := Some(role);
      form := EditForm(role);
      modalOpen := true;
    }

    /** `togglePermission(screenId, actionKey)`. */
    method TogglePermission(screenId: string, actionKey: string)
      modifies this
      ensures form == old(form).(permissions := Toggle(old(form).permissions, screenId, actionKey))
      ensures roles == old(roles) && systemScreens == old(systemScreens) && editingRole == old(editingRole)
      ensures modalOpen == old(modalOpen) && searchTerm == old(searchTerm) && loading == old(loading)
    {
      form := form.(permissions := Toggle(form.permissions, screenId, actionKey));
    }

    /**
     * `handleSave()`: the request made (if any); the modal closes when the
     * request `succeeded`.
     */
    method HandleSave(succeeded: bool) returns (request: SaveRequest)
      modifies this
      ensures request == SaveRequestFor(form, editingRole, systemScreens)
      ensures modalOpen == (old(modalOpen) && !(request != NameRequired && succeeded))
      ensures form == old(form) && editingRole == old(editingRole) && roles == old(roles)
      ensures systemScreens == old(systemScreens) && searchTerm == old(searchTerm) && loading == old(loading)
    {
      request := SaveRequestFor(form, editingRole, systemScreens);
      if request != NameRequired && succeeded {
        modalOpen := false;
      }
    }
  }
}

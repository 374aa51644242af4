/**
 * The admin shell (src/modules/admin/layout/Layout.jsx): it loads the
 * sidebar menu, derives a full-access permission entry for every menu
 * screen and hands the permissions to the authentication slice, and lists
 * the menu's paths as the allowed routes. The menu entities are shared with
 * the sidebar and with the menu normaliser of the API client.
 */
module Layout {
  import opened Js
  import Dict
  import opened AuthSlice
  import opened AuthRoutes

  /** One screen of the sidebar menu; `None` stands for an absent or null attribute. */
  datatype MenuScreen = MenuScreen(id: Value, caption: Option<string>, path: Option<string>, route: Option<string>, icon: Option<string>)

  /** One module of the sidebar menu, with its screens (`None` when absent). */
  datatype MenuModule = MenuModule(id: Value, caption: string, icon: Option<string>, screens: Option<seq<MenuScreen>>)

  /** What the menu request resolved to: an array, an object, or null. */
  datatype MenuData =
    | MenuList(items: seq<MenuModule>)
    | MenuObject(modules: Option<seq<MenuModule>>)
    | MenuNull

  /**
   * The module list the layout keeps: an array as it is, an object's
   * `modules` (or nothing when absent). `None` when reading `modules` of null
   * throws, which the layout catches without touching the menu.
   */
  function MenuItems(data: MenuData): Option<seq<MenuModule>>
  {
    match data
    case MenuList(items) => Some(items)
    case MenuObject(modules) => Some(if modules.Some? then modules.value else [])
    case MenuNull => None
  }

  /** `module.screens || []`. */
  function ScreensOf(m: MenuModule): seq<MenuScreen>
  {
    if m.screens.Some? then m.screens.value else []
  }

  /** Every screen, module after module. */
  function AllScreens(items: seq<MenuModule>): seq<MenuScreen>
  {
    if items == [] then [] else ScreensOf(items[0]) + AllScreens(items[1..])
  }

  /** `p.replace(/^\//, '')`: at most one leading slash is removed. */
  function StripOneSlash(p: string): (r: string)
    ensures |r| <= |p| && r == p[|p| - |r|..]
    ensures |p| - |r| <= 1
  {
    if |p| > 0 && p[0] == '/' then p[1..] else p
  }

  /** `screen.path?.replace(/^\//, '') || screen.id`: the screen's permission key. */
  function RouteKey(sc: MenuScreen): string
  {
    var p := if sc.path.Some? then StripOneSlash(sc.path.value) else "";
    if p != "" then p else ToStr(sc.id)
  }

  /** Keys come from the path without its slash, and from the id when that leaves nothing. */
  lemma RouteKeyCases(id: Value, caption: Option<string>, route: Option<string>, icon: Option<string>, k: string)
    requires k != ""
    ensures RouteKey(MenuScreen(id, caption, Some("/" + k), route, icon)) == k
    ensures RouteKey(MenuScreen(id, caption, Some(k), route, icon)) == (if k[0] == '/' then OrStr(k[1..], ToStr(id)) else k)
    ensures RouteKey(MenuScreen(id, caption, Some("/"), route, icon)) == ToStr(id)
    ensures RouteKey(MenuScreen(id, caption, None, route, icon)) == ToStr(id)
  {
    assert ("/" + k)[1..] == k;
  }

  /** Each screen's key written into `d` in turn, set to full access. */
  function DeriveInto(d: Permissions, scs: seq<MenuScreen>): Permissions
    decreases |scs|
  {
    if scs == [] then d else DeriveInto(Dict.Put(d, RouteKey(scs[0]), FullAccess), scs[1..])
  }

  /** `derivedPermissions` for a module list: every screen written into an empty object. */
  function DerivedPermissions(items: seq<MenuModule>): Permissions
  {
    DeriveInto(Dict.Empty(), AllScreens(items))
  }

  /** Some screen of `scs` has the permission key `k`. */
  predicate HasRouteKey(scs: seq<MenuScreen>, k: string)
  {
    exists i :: 0 <= i < |scs| && RouteKey(scs[i]) == k
  }

  /** A key written by some screen holds full access; every other key keeps what it had. */
  lemma {:induction false} DeriveIntoGet(d: Permissions, scs: seq<MenuScreen>, k: string)
    ensures Dict.Get(DeriveInto(d, scs), k) == if HasRouteKey(scs, k) then Some(FullAccess) else Dict.Get(d, k)
    decreases |scs|
  {
    if scs != [] {
      var d' := Dict.Put(d, RouteKey(scs[0]), FullAccess);
      DeriveIntoGet(d', scs[1..], k);
      Dict.PutGet(d, RouteKey(scs[0]), FullAccess, k);
      if HasRouteKey(scs[1..], k) {
        var i :| 0 <= i < |scs[1..]| && RouteKey(scs[1..][i]) == k;
        assert scs[i + 1] == scs[1..][i];
      }
      if HasRouteKey(scs, k) && RouteKey(scs[0]) != k {
        var i :| 0 <= i < |scs| && RouteKey(scs[i]) == k;
        assert scs[1..][i - 1] == scs[i];
      }
    }
  }

  /** The derived object holds full access for exactly the menu screens' keys. */
  lemma DerivedGet(items: seq<MenuModule>, k: string)
    ensures Dict.Get(DerivedPermissions(items), k) == if HasRouteKey(AllScreens(items), k) then Some(FullAccess) else None
  {
    DeriveIntoGet(Dict.Empty(), AllScreens(items), k);
  }

  /** Screens sharing a key collapse into one entry: the object never repeats a key. */
  lemma {:induction false} DeriveIntoWellFormed(d: Permissions, scs: seq<MenuScreen>)
    requires Dict.WellFormed(d)
    ensures Dict.WellFormed(DeriveInto(d, scs))
    decreases |scs|
  {
    if scs != [] {
      Dict.PutWellFormed(d, RouteKey(scs[0]), FullAccess);
      DeriveIntoWellFormed(Dict.Put(d, RouteKey(scs[0]), FullAccess), scs[1..]);
    }
  }

  /** The derived object is a well-formed permission object. */
  lemma DerivedWellFormed(items: seq<MenuModule>)
    ensures Dict.WellFormed(DerivedPermissions(items))
  {
    DeriveIntoWellFormed(Dict.Empty(), AllScreens(items));
  }

  /** Every menu screen is admitted by the route guard under the derived permissions. */
  lemma MenuScreensAdmitted(items: seq<MenuModule>, i: nat, isAgent: bool)
    requires i < |AllScreens(items)|
    ensures Guard(RouteKey(AllScreens(items)[i]), isAgent, DerivedPermissions(items)) == RenderPage
  {
    DerivedGet(items, RouteKey(AllScreens(items)[i]));
  }

  /** Writing a run that starts with `x` writes `x` first. */
  lemma DeriveIntoCons(d: Permissions, x: MenuScreen, t: seq<MenuScreen>)
    ensures DeriveInto(d, [x] + t) == DeriveInto(Dict.Put(d, RouteKey(x), FullAccess), t)
  {
    assert ([x] + t)[1..] == t;
  }

  /** Writing two runs of screens is writing their concatenation. */
  lemma {:induction false} DeriveIntoAppend(d: Permissions, a: seq<MenuScreen>, b: seq<MenuScreen>)
    ensures DeriveInto(DeriveInto(d, a), b) == DeriveInto(d, a + b)
    decreases |a|
  {
    if a == [] {
      assert a + b == b;
    } else {
      var x, t := a[0], a[1..];
      assert a == [x] + t && a + b == [x] + (t + b);
      DeriveIntoCons(d, x, t);
      DeriveIntoCons(d, x, t + b);
      DeriveIntoAppend(Dict.Put(d, RouteKey(x), FullAccess), t, b);
    }
  }

  /** The inner `forEach`: one module's screens written into the object in order. */
  method DeriveScreens(d0: Permissions, scs: seq<MenuScreen>) returns (d: Permissions)
    ensures d == DeriveInto(d0, scs)
  {
    d := d0;
    var j := 0;
    while j < |scs|
      invariant 0 <= j <= |scs|
      invariant DeriveInto(d, scs[j..]) == DeriveInto(d0, scs)
    {
      assert scs[j..][1..] == scs[j + 1..];
      d := Dict.Put(d, RouteKey(scs[j]), FullAccess);
      j := j + 1;
    }
  }

  /** The nested `forEach` that fills `derivedPermissions`. */
  method DerivePermissions(items: seq<MenuModule>) returns (d: Permissions)
    ensures d == DerivedPermissions(items)
  {
    d := Dict.Empty();
    var m := 0;
    assert items[0..] == items;
    while m < |items|
      invariant 0 <= m <= |items|
      invariant DeriveInto(d, AllScreens(items[m..])) == DerivedPermissions(items)
    {
      assert items[m..][1..] == items[m + 1..];
      DeriveIntoAppend(d, ScreensOf(items[m]), AllScreens(items[m + 1..]));
      d := DeriveScreens(d, ScreensOf(items[m]));
      m := m + 1;
    }
  }

  /** `allowedRoutes`: `flatMap` of every screen's path, module after module. */
  function AllowedRoutes(items: seq<MenuModule>): seq<Option<string>>
  {
    if items == [] then []
    else
      var scs := ScreensOf(items[0]);
      seq(|scs|, j requires 0 <= j < |scs| => scs[j].path) + AllowedRoutes(items[1..])
  }

  /** The allowed routes are the menu screens' paths, one per screen, in menu order. */
  lemma {:induction false} AllowedRoutesAreScreenPaths(items: seq<MenuModule>)
    ensures |AllowedRoutes(items)| == |AllScreens(items)|
    ensures forall i :: 0 <= i < |AllowedRoutes(items)| ==> AllowedRoutes(items)[i] == AllScreens(items)[i].path
  {
    if items != [] {
      AllowedRoutesAreScreenPaths(items[1..]);
    }
  }

  /** An allowed route whose key is not empty is readable in the derived permissions. */
  lemma AllowedRouteReadable(items: seq<MenuModule>, i: nat)
    requires i < |AllowedRoutes(items)|
    requires AllowedRoutes(items)[i].Some? && StripOneSlash(AllowedRoutes(items)[i].value) != ""
    ensures CanRead(DerivedPermissions(items), StripOneSlash(AllowedRoutes(items)[i].value))
  {
    AllowedRoutesAreScreenPaths(items);
    DerivedGet(items, RouteKey(AllScreens(items)[i]));
  }

  /** The layout's own state: the menu and the loading flag. */
  class LayoutView {
    var menuItems: seq<MenuModule>
    var loading: bool

    constructor ()
      ensures menuItems == [] && loading
    {
      menuItems, loading := [], true;
    }

    /**
     * `fetchMenu` after the request resolved to `data`: keep the menu and
     * hand the derived permissions to the slice, or (when the data is null)
     * change neither; the loading flag drops in both cases.
     */
    method FetchMenu(data: MenuData, auth: AuthStore)
      requires auth.Valid()
      modifies this, auth
      ensures auth.Valid() && !loading
      ensures MenuItems(data).Some? ==>
                menuItems == MenuItems(data).value && auth.permissions == DerivedPermissions(menuItems)
      ensures MenuItems(data).None? ==> menuItems == old(menuItems) && auth.permissions == old(auth.permissions)
      ensures auth.user == old(auth.user) && auth.token == old(auth.token) && auth.role == old(auth.role)
      ensures auth.isAuthenticated == old(auth.isAuthenticated) && auth.isAgent == old(auth.isAgent)
    {
      var items := MenuItems(data);
      if items.Some? {
        menuItems := items.value;
        var derived := DerivePermissions(items.value);
        auth.UpdatePermissions(derived);
      }
      loading := false;
    }
  }
}

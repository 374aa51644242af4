/**
 * The admin sidebar (src/modules/admin/layout/Sidebar.jsx): which modules
 * it lists, the icon each screen gets, whether a screen is highlighted for
 * the current location, and where a click navigates.
 */
module Sidebar {
  import opened Js
  import opened AuthSlice
  import opened Layout

  /** The icon components the sidebar can show. */
  datatype Icon =
    | LayoutDashboard | MessageSquare | Send | Users | FileText | Database | Shield
    | Settings | Circle | Phone | CreditCard | BarChart | FileClock | Inbox

  /** `iconMap[name]`: the backend's icon names and the lower-case aliases. */
  function IconTable(name: string): Option<Icon>
  {
    match name
    case "LayoutDashboard" => Some(LayoutDashboard)
    case "MessageSquare" => Some(MessageSquare)
    case "Send" => Some(Send)
    case "Users" => Some(Users)
    case "FileText" => Some(FileText)
    case "Database" => Some(Database)
    case "Shield" => Some(Shield)
    case "Settings" => Some(Settings)
    case "Circle" => Some(Circle)
    case "Phone" => Some(Phone)
    case "CreditCard" => Some(CreditCard)
    case "BarChart" => Some(BarChart)
    case "FileClock" => Some(FileClock)
    case "Inbox" => Some(Inbox)
    case "dashboard" => Some(LayoutDashboard)
    case "conversations" => Some(MessageSquare)
    case "campaigns" => Some(Send)
    case "knowledge_base" => Some(Database)
    case "knowledgebase" => Some(Database)
    case "contacts" => Some(Users)
    case "templates" => Some(FileText)
    case "forms" => Some(FileText)
    case "roles" => Some(Shield)
    case "menu" => Some(Settings)
    case "menubuilder" => Some(Settings)
    case "users" => Some(Users)
    case "layout" => Some(LayoutDashboard)
    case _ => None
  }

  /** `item.icon ? item.icon.replace(/[^a-zA-Z0-9]/g, '') : ''`. */
  function IconName(icon: Option<string>): (name: string)
    ensures forall i :: 0 <= i < |name| ==> IsAsciiAlnum(name[i])
  {
    if icon.Some? && icon.value != "" then FilterChars(icon.value, IsAsciiAlnum) else ""
  }

  /** `iconMap[iconName] || LayoutDashboard`. */
  function IconFor(icon: Option<string>): (ic: Icon)
    ensures IconTable(IconName(icon)).None? ==> ic == LayoutDashboard
    ensures IconTable(IconName(icon)).Some? ==> ic == IconTable(IconName(icon)).value
  {
    var hit := IconTable(IconName(icon));
    if hit.Some? then hit.value else LayoutDashboard
  }

  /** A missing icon, or one the table does not know, gets the dashboard icon. */
  lemma IconFallback()
    ensures IconFor(None) == LayoutDashboard && IconFor(Some("")) == LayoutDashboard
  {
  }

  /**
   * Punctuation and spaces are ignored when looking an icon up: no
   * sanitised name contains an underscore, so the `knowledge_base` alias is
   * never the key consulted.
   */
  lemma UnderscoreAliasUnreachable(icon: Option<string>)
    ensures IconName(icon) != "knowledge_base"
  {
    var s := "knowledge_base";
    assert !IsAsciiAlnum(s[9]);
  }

  /** `p ? p.toString().replace(/^\/+/, '') : ''`: every leading slash removed. */
  function CleanPath(p: Option<string>): (r: string)
    ensures r == [] || r[0] != '/'
    ensures p.Some? ==> |r| <= |p.value| && r == p.value[|p.value| - |r|..]
    ensures p.Some? ==> forall i :: 0 <= i < |p.value| - |r| ==> p.value[i] == '/'
    ensures p.None? ==> r == ""
  {
    if p.Some? then DropLeading(p.value, '/') else ""
  }

  /** `cleanPath(item.path || item.route)`. */
  function ItemPath(sc: MenuScreen): string
  {
    CleanPath(if sc.path.Some? && sc.path.value != "" then sc.path else sc.route)
  }

  /** `currentPath === itemPath || currentPath.startsWith(itemPath + '/')` on cleaned paths. */
  predicate IsActive(location: string, sc: MenuScreen)
  {
    var cur := CleanPath(Some(location));
    cur == ItemPath(sc) || StartsWith(cur, ItemPath(sc) + "/")
  }

  /** `s.startsWith(p + '/')`: `p` followed by a slash. */
  lemma StartsWithSlashAfter(s: string, p: string)
    ensures StartsWith(s, p + "/") <==> StartsWith(s, p) && |s| > |p| && s[|p|] == '/'
  {
    if StartsWith(s, p + "/") {
      assert s[..|p|] == (p + "/")[..|p|];
      assert s[|p|] == (p + "/")[|p|];
    }
    if StartsWith(s, p) && |s| > |p| && s[|p|] == '/' {
      assert s[..|p| + 1] == s[..|p|] + [s[|p|]];
    }
  }

  /**
   * An item is highlighted exactly on its own path and below it at a path
   * segment boundary; an item without a path only at the root.
   */
  lemma ActiveAtSegmentBoundary(location: string, sc: MenuScreen)
    ensures var cur, ip := CleanPath(Some(location)), ItemPath(sc);
      IsActive(location, sc) <==> (cur == ip || (StartsWith(cur, ip) && |cur| > |ip| && cur[|ip|] == '/'))
    ensures ItemPath(sc) == "" ==> (IsActive(location, sc) <==> CleanPath(Some(location)) == "")
  {
    StartsWithSlashAfter(CleanPath(Some(location)), ItemPath(sc));
  }

  /** A sibling whose path merely extends the item's name is not highlighted. */
  lemma PrefixSiblingInactive(id: Value, caption: Option<string>, icon: Option<string>)
    ensures !IsActive("/users2", MenuScreen(id, caption, Some("/users"), None, icon))
    ensures IsActive("/users/5", MenuScreen(id, caption, Some("/users"), None, icon))
  {
    UsersItemPath(id, caption, icon);
    UsersLocations();
    assert "users/5"[..6] == "users/";
    assert "users2"[5] == '2';
  }

  lemma UsersLocations()
    ensures CleanPath(Some("/users2")) == "users2" && CleanPath(Some("/users/5")) == "users/5"
  {
    CleanedLocation("users2");
    assert "/" + "users2" == "/users2";
    CleanedLocation("users/5");
    assert "/" + "users/5" == "/users/5";
  }

  lemma UsersItemPath(id: Value, caption: Option<string>, icon: Option<string>)
    ensures ItemPath(MenuScreen(id, caption, Some("/users"), None, icon)) == "users"
  {
    assert "users"[0] != '/';
  }

  /** One leading slash in front of a path that has none is removed. */
  lemma CleanedLocation(p: string)
    requires p != [] && p[0] != '/'
    ensures CleanPath(Some("/" + p)) == p
  {
    assert ("/" + p)[1..] == p;
  }

  /** Where a click on the item navigates: its cleaned path, or its id when the path is empty. */
  function NavTarget(sc: MenuScreen): (target: string)
    ensures StartsWith(target, "/")
  {
    var ip := ItemPath(sc);
    if ip != "" then "/" + ip else "/" + ToStr(sc.id)
  }

  /** Following an item's link highlights that item. */
  lemma NavigationHighlightsItem(sc: MenuScreen)
    requires ItemPath(sc) != ""
    ensures IsActive(NavTarget(sc), sc)
  {
    var ip := ItemPath(sc);
    assert ("/" + ip)[1..] == ip;
  }

  /** A path with one leading slash links to exactly the key the layout granted for the screen. */
  lemma NavTargetMatchesPermissionKey(sc: MenuScreen, k: string)
    requires k != "" && k[0] != '/' && sc.path == Some("/" + k)
    ensures NavTarget(sc) == "/" + RouteKey(sc)
  {
    assert ("/" + k)[1..] == k;
  }

  /**
   * A path with two leading slashes does not: the layout grants the key
   * `/reports`, while the link goes to `/reports`, whose key is `reports`.
   */
  lemma DoubleSlashKeysDiffer(id: Value, caption: Option<string>, icon: Option<string>)
    ensures var sc := MenuScreen(id, caption, Some("//reports"), None, icon);
      RouteKey(sc) == "/reports" && NavTarget(sc) == "/reports"
  {
    ReportsCleaned();
    assert "//reports"[1..] == "/reports";
  }

  lemma ReportsCleaned()
    ensures DropLeading("//reports", '/') == "reports"
  {
    var r := "reports";
    assert "//reports" == ['/'] + (['/'] + r);
    DropSlashes(r);
  }

  /** Both leading slashes go, and nothing after them. */
  lemma DropSlashes(t: string)
    requires t != [] && t[0] != '/'
    ensures DropLeading(['/'] + (['/'] + t), '/') == t
  {
    assert (['/'] + (['/'] + t))[1..] == ['/'] + t;
    assert (['/'] + t)[1..] == t;
  }

  /** `!module.screens || module.screens.length === 0`: such a module renders nothing. */
  predicate Rendered(m: MenuModule)
  {
    m.screens.Some? && |m.screens.value| > 0
  }

  /** The modules the sidebar shows, in menu order. */
  function RenderedModules(items: seq<MenuModule>): (r: seq<MenuModule>)
    ensures forall i :: 0 <= i < |r| ==> Rendered(r[i]) && r[i] in items
    ensures forall m :: m in items && Rendered(m) ==> m in r
    ensures |r| <= |items|
  {
    if items == [] then []
    else (if Rendered(items[0]) then [items[0]] else []) + RenderedModules(items[1..])
  }

  /** Skipping empty modules hides no screen: the rendered modules hold every menu screen. */
  lemma {:induction false} RenderedModulesKeepScreens(items: seq<MenuModule>)
    ensures AllScreens(RenderedModules(items)) == AllScreens(items)
  {
    if items != [] {
      RenderedModulesKeepScreens(items[1..]);
      var rest := RenderedModules(items[1..]);
      if Rendered(items[0]) {
        assert RenderedModules(items) == [items[0]] + rest;
        assert ([items[0]] + rest)[1..] == rest;
        assert AllScreens([items[0]] + rest) == ScreensOf(items[0]) + AllScreens(rest);
      } else {
        assert RenderedModules(items) == rest;
        assert ScreensOf(items[0]) == [];
        assert AllScreens(items) == [] + AllScreens(items[1..]);
      }
    }
  }

  /** The badge: the role name's first character upper-cased, or `C`. */
  function RoleInitial(role: Option<Role>): (c: string)
    ensures |c| == 1
    ensures (role.None? || role.value.name.None? || role.value.name.value == "") ==> c == "C"
    ensures role.Some? && role.value.name.Some? && role.value.name.value != "" ==>
              c == [UpperChar(role.value.name.value[0])]
  {
    if role.Some? && role.value.name.Some? && role.value.name.value != "" then [UpperChar(role.value.name.value[0])]
    else "C"
  }

  /** The title under the badge: the role name, or `ChatFlow`. */
  function RoleTitle(role: Option<Role>): (t: string)
    ensures t != ""
    ensures role.Some? && role.value.name.Some? && role.value.name.value != "" ==> t == role.value.name.value
  {
    if role.Some? && role.value.name.Some? then OrStr(role.value.name.value, "ChatFlow") else "ChatFlow"
  }
}

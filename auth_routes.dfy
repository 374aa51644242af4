/**
 * The two permission-driven routing decisions: the route guard
 * (src/modules/auth/PermissionRoute.jsx) and the landing-page choice
 * (src/modules/auth/SmartRedirect.jsx). Both read the permission object of
 * the authentication slice.
 */
module AuthRoutes {
  import opened Js
  import Dict
  import opened AuthSlice

  /** `permissions[key]?.read` is truthy. */
  predicate CanRead(perms: Permissions, key: string)
  {
    var p := Dict.Get(perms, key);
    p.Some? && Truthy(p.value.read)
  }

  /** What the guard renders: the protected page, or a redirect to `/`. */
  datatype Decision = RenderPage | RedirectHome

  /** The guard for `requiredScreen` (`""` when none is given). */
  function Guard(requiredScreen: string, isAgent: bool, perms: Permissions): (d: Decision)
    ensures requiredScreen == "" ==> d == RenderPage
    ensures isAgent && StartsWith(requiredScreen, "agent/") ==> d == RenderPage
    ensures requiredScreen != "" && !(isAgent && StartsWith(requiredScreen, "agent/")) ==>
              (d == RenderPage <==> CanRead(perms, requiredScreen))
  {
    if requiredScreen == "" then RenderPage
    else if isAgent && StartsWith(requiredScreen, "agent/") then RenderPage
    else if CanRead(perms, requiredScreen) then RenderPage
    else RedirectHome
  }

  /** Apart from the agent bypass, the guard only ever admits a readable screen. */
  lemma GuardNeedsRead(requiredScreen: string, isAgent: bool, perms: Permissions)
    requires requiredScreen != "" && !StartsWith(requiredScreen, "agent/")
    ensures Guard(requiredScreen, isAgent, perms) == RenderPage <==> CanRead(perms, requiredScreen)
  {
  }

  /** Granting read on one screen admits it without changing the decision for any other screen. */
  lemma GrantReadAdmits(requiredScreen: string, other: string, isAgent: bool, perms: Permissions, p: Perm)
    requires Truthy(p.read) && other != requiredScreen
    ensures Guard(requiredScreen, isAgent, Dict.Put(perms, requiredScreen, p)) == RenderPage
    ensures Guard(other, isAgent, Dict.Put(perms, requiredScreen, p)) == Guard(other, isAgent, perms)
  {
    Dict.PutGet(perms, requiredScreen, p, requiredScreen);
    Dict.PutGet(perms, requiredScreen, p, other);
  }

  // ---------------------------------------------------------------------
  // SmartRedirect

  /** `Object.keys(permissions).findIndex(key => permissions[key].read)`, `|entries|` when none. */
  function FirstReadableIndex(entries: seq<(string, Perm)>): (i: nat)
    ensures i <= |entries|
    ensures i < |entries| ==> Truthy(entries[i].1.read)
    ensures forall j :: 0 <= j < i ==> !Truthy(entries[j].1.read)
  {
    if entries == [] then 0
    else if Truthy(entries[0].1.read) then 0
    else 1 + FirstReadableIndex(entries[1..])
  }

  /**
   * The landing route, or `None` for the access-denied view: dashboard,
   * then conversations, then roles, then the first readable key in key
   * order (an empty key is falsy and leads to the denied view).
   */
  function Landing(perms: Permissions): (route: Option<string>)
    ensures CanRead(perms, "dashboard") ==> route == Some("/dashboard")
    ensures route.Some? ==> StartsWith(route.value, "/") && |route.value| > 1
  {
    if CanRead(perms, "dashboard") then Some("/dashboard")
    else if CanRead(perms, "conversations") then Some("/conversations")
    else if CanRead(perms, "roles") then Some("/roles")
    else
      var i := FirstReadableIndex(perms.entries);
      if i < |perms.entries| && perms.entries[i].0 != "" then Some("/" + perms.entries[i].0) else None
  }

  /** The preference order: conversations is chosen over roles unless dashboard is readable. */
  lemma LandingPreference(perms: Permissions)
    ensures !CanRead(perms, "dashboard") && CanRead(perms, "conversations") ==> Landing(perms) == Some("/conversations")
    ensures !CanRead(perms, "dashboard") && !CanRead(perms, "conversations") && CanRead(perms, "roles") ==>
              Landing(perms) == Some("/roles")
  {
  }

  /**
   * The third rule: with dashboard, conversations and roles all unreadable,
   * the page lands on the first key, in key order, whose read is truthy.
   */
  lemma LandingFallback(perms: Permissions, i: nat)
    requires !CanRead(perms, "dashboard") && !CanRead(perms, "conversations") && !CanRead(perms, "roles")
    requires i < |perms.entries| && Truthy(perms.entries[i].1.read)
    requires forall j :: 0 <= j < i ==> !Truthy(perms.entries[j].1.read)
    requires perms.entries[i].0 != ""
    ensures Landing(perms) == Some("/" + perms.entries[i].0)
  {
    var f := FirstReadableIndex(perms.entries);
    if f != i {
      assert false;
    }
  }

  /**
   * With no readable key the denied view is shown; and the denied view is
   * shown over readable keys only when the first of them is the empty key.
   */
  lemma LandingNone(perms: Permissions)
    ensures (forall j :: 0 <= j < |perms.entries| ==> !Truthy(perms.entries[j].1.read)) ==> Landing(perms).None?
    ensures Landing(perms).None? && FirstReadableIndex(perms.entries) < |perms.entries| ==>
              perms.entries[FirstReadableIndex(perms.entries)].0 == ""
  {
    ReadableKeyIsFirst(perms, "dashboard");
    ReadableKeyIsFirst(perms, "conversations");
    ReadableKeyIsFirst(perms, "roles");
  }

  /** A key readable through the lookup means the key-order search finds some readable key. */
  lemma ReadableKeyIsFirst(perms: Permissions, k: string)
    ensures CanRead(perms, k) ==> FirstReadableIndex(perms.entries) < |perms.entries|
  {
    if CanRead(perms, k) {
      var p := Dict.Get(perms, k);
      var j :| 0 <= j < |perms.entries| && perms.entries[j] == (k, p.value);
      assert Truthy(perms.entries[j].1.read);
    }
  }

  /** The key found in key order is readable through the permission lookup. */
  lemma FirstReadableCanRead(perms: Permissions)
    requires Dict.WellFormed(perms)
    requires FirstReadableIndex(perms.entries) < |perms.entries|
    ensures CanRead(perms, perms.entries[FirstReadableIndex(perms.entries)].0)
  {
    var i := FirstReadableIndex(perms.entries);
    var k := perms.entries[i].0;
    assert Dict.HasKey(perms, k);
    var p := Dict.Get(perms, k);
    var j :| 0 <= j < |perms.entries| && perms.entries[j] == (k, p.value);
    assert j == i;
  }

  /** The landing page is never a route the guard turns away, whoever is signed in. */
  lemma LandingPassesGuard(perms: Permissions, isAgent: bool)
    requires Dict.WellFormed(perms) && Landing(perms).Some?
    ensures Guard(Landing(perms).value[1..], isAgent, perms) == RenderPage
  {
    if !CanRead(perms, "dashboard") && !CanRead(perms, "conversations") && !CanRead(perms, "roles") {
      FirstReadableCanRead(perms);
    }
  }
}

/**
 * The user-management page (src/modules/admin/users/UsersPage.jsx): which
 * users are listed, which roles the create/edit dialog offers, the page of
 * users shown, and a role id's display name.
 */
module UsersPage {
  import opened Js

  /** `user.role`: absent, a populated role object, or a bare value such as an id. */
  datatype RoleField = NoRole | RoleObject(id: Value, name: Value) | RoleValue(v: Value)

  datatype UserRecord = UserRecord(isDeleted: bool, roleId: Value, role: RoleField)

  datatype Role = Role(id: Value, name: Value)

  /** `String(v).trim().toLowerCase()`. */
  function Normalize(v: Value): string
  {
    Lower(Trim(ToStr(v)))
  }

  predicate IsSuperAdmin(r: Role)
  {
    Normalize(r.name) == "super admin"
  }

  predicate NoSuperAdminBefore(roles: seq<Role>, i: int)
  {
    forall j :: 0 <= j < i && j < |roles| ==> !IsSuperAdmin(roles[j])
  }

  /** `rolesData.find(...)`: the first role named super admin. */
  function FindSuperAdmin(roles: seq<Role>): (r: Option<Role>)
    ensures r.None? <==> forall x :: x in roles ==> !IsSuperAdmin(x)
    ensures r.Some? ==> r.value in roles && IsSuperAdmin(r.value)
  {
    if roles == [] then None
    else if IsSuperAdmin(roles[0]) then Some(roles[0])
    else
      assert forall x :: x in roles <==> x == roles[0] || x in roles[1..];
      FindSuperAdmin(roles[1..])
  }

  /** The role found is the first one named super admin. */
  lemma {:induction false} FirstSuperAdminFound(roles: seq<Role>, i: nat)
    requires i < |roles| && IsSuperAdmin(roles[i]) && NoSuperAdminBefore(roles, i)
    ensures FindSuperAdmin(roles) == Some(roles[i])
  {
    if i > 0 {
      assert !IsSuperAdmin(roles[0]);
      assert NoSuperAdminBefore(roles[1..], i - 1) by {
        forall j | 0 <= j < i - 1
          ensures !IsSuperAdmin(roles[1..][j])
        {
          assert roles[1..][j] == roles[j + 1];
        }
      }
      FirstSuperAdminFound(roles[1..], i - 1);
    }
  }

  /**
   * `user.roleId || (user.role && user.role.id) || user.role`; `None` stands
   * for the role object itself (a populated role without a truthy id).
   */
  function UserRoleId(u: UserRecord): (id: Option<Value>)
    ensures Truthy(u.roleId) ==> id == Some(u.roleId)
    ensures id.None? <==> !Truthy(u.roleId) && u.role.RoleObject? && !Truthy(u.role.id)
  {
    if Truthy(u.roleId) then Some(u.roleId)
    else
      match u.role
      case NoRole => Some(Undefined)
      case RoleObject(id, _) => if Truthy(id) then Some(id) else None
      case RoleValue(v) => Some(v)
  }

  /** `parseInt` of that id; an object reads as NaN (`None`). */
  function ParsedRoleId(id: Option<Value>): Option<int>
  {
    if id.None? then None else ParseInt(ToStr(id.value))
  }

  /** Whether the user is listed, given the roles (the filter at the page's lines 53-67). */
  predicate Listed(u: UserRecord, roles: seq<Role>)
  {
    !u.isDeleted &&
    var sa := FindSuperAdmin(roles);
    if sa.Some? && Truthy(sa.value.id) then
      var mine, theirs := ParsedRoleId(UserRoleId(u)), ParseInt(ToStr(sa.value.id));
      !(mine.Some? && theirs.Some? && mine.value == theirs.value)
    else if u.role.RoleObject? && Truthy(u.role.name) then Normalize(u.role.name) != "super admin"
    else true
  }

  /** `users.filter(u => Listed(u))` in order. */
  function ListedUsers(users: seq<UserRecord>, roles: seq<Role>): (r: seq<UserRecord>)
    ensures |r| <= |users|
    ensures forall u :: u in r <==> u in users && Listed(u, roles)
  {
    if users == [] then []
    else
      assert forall u :: u in users <==> u == users[0] || u in users[1..];
      (if Listed(users[0], roles) then [users[0]] else []) + ListedUsers(users[1..], roles)
  }

  /** The listing keeps the order of the users it keeps: it distributes over concatenation. */
  lemma {:induction false} ListedUsersAppend(a: seq<UserRecord>, b: seq<UserRecord>, roles: seq<Role>)
    ensures ListedUsers(a + b, roles) == ListedUsers(a, roles) + ListedUsers(b, roles)
  {
    if a == [] {
      assert a + b == b;
    } else {
      var x, t := a[0], a[1..];
      var h, ft, fb := (if Listed(x, roles) then [x] else []), ListedUsers(t, roles), ListedUsers(b, roles);
      calc {
        ListedUsers(a + b, roles);
        { ListedUsersUnfold(a + b, roles); ConsAppend(a, b); }
        h + ListedUsers(t + b, roles);
        { ListedUsersAppend(t, b, roles); }
        h + (ft + fb);
        { AppendAssoc(h, ft, fb); }
        (h + ft) + fb;
        { ListedUsersUnfold(a, roles); }
        ListedUsers(a, roles) + fb;
      }
    }
  }

  lemma ListedUsersUnfold(a: seq<UserRecord>, roles: seq<Role>)
    requires a != []
    ensures ListedUsers(a, roles) == (if Listed(a[0], roles) then [a[0]] else []) + ListedUsers(a[1..], roles)
  {
  }

  /** `users.filter(u => !u.is_deleted)`. */
  function ActiveUsers(users: seq<UserRecord>): (r: seq<UserRecord>)
    ensures |r| <= |users|
    ensures forall u :: u in r <==> u in users && !u.isDeleted
  {
    if users == [] then []
    else
      assert forall u :: u in users <==> u == users[0] || u in users[1..];
      (if !users[0].isDeleted then [users[0]] else []) + ActiveUsers(users[1..])
  }

  /**
   * `filter` keeps the order and the multiplicity of what it keeps: filtering a
   * concatenation filters each part and concatenates the results.
   */
  lemma {:induction false} ActiveUsersAppend(a: seq<UserRecord>, b: seq<UserRecord>)
    ensures ActiveUsers(a + b) == ActiveUsers(a) + ActiveUsers(b)
  {
    if a == [] {
      assert a + b == b;
    } else {
      var h, ft, fb := (if !a[0].isDeleted then [a[0]] else []), ActiveUsers(a[1..]), ActiveUsers(b);
      calc {
        ActiveUsers(a + b);
        { ActiveUsersUnfold(a + b); ConsAppend(a, b); }
        h + ActiveUsers(a[1..] + b);
        { ActiveUsersAppend(a[1..], b); }
        h + (ft + fb);
        { AppendAssoc(h, ft, fb); }
        (h + ft) + fb;
        { ActiveUsersUnfold(a); }
        ActiveUsers(a) + fb;
      }
    }
  }

  lemma ActiveUsersUnfold(a: seq<UserRecord>)
    requires a != []
    ensures ActiveUsers(a) == (if !a[0].isDeleted then [a[0]] else []) + ActiveUsers(a[1..])
  {
  }

  /**
   * The listed users after a fetch: role filtering when both responses are
   * arrays (`None` stands for a response that is not one), else only the
   * soft-delete filter, and nothing without a user list.
   */
  function FilterUsers(usersData: Option<seq<UserRecord>>, rolesData: Option<seq<Role>>): (r: seq<UserRecord>)
    ensures forall u :: u in r ==> !u.isDeleted
    ensures usersData.None? ==> r == []
    ensures usersData.Some? && rolesData.Some? ==> forall u :: u in r <==> u in usersData.value && Listed(u, rolesData.value)
    ensures usersData.Some? && rolesData.None? ==> forall u :: u in r <==> u in usersData.value && !u.isDeleted
  {
    if usersData.Some? && rolesData.Some? then ListedUsers(usersData.value, rolesData.value)
    else if usersData.Some? then ActiveUsers(usersData.value)
    else []
  }

  /** When a super admin role with a truthy id exists, a user whose role id parses to the same number is not listed. */
  lemma SuperAdminUsersHidden(u: UserRecord, users: seq<UserRecord>, roles: seq<Role>)
    requires FindSuperAdmin(roles).Some? && Truthy(FindSuperAdmin(roles).value.id)
    requires ParsedRoleId(UserRoleId(u)).Some?
    requires ParsedRoleId(UserRoleId(u)) == ParseInt(ToStr(FindSuperAdmin(roles).value.id))
    ensures u !in FilterUsers(Some(users), Some(roles))
  {
  }

  lemma CapitalisedNameNormalized()
    ensures Normalize(Str("Super Admin")) == "super admin"
  {
    SuperAdminTrimmed();
    SuperAdminLowered();
    assert ToStr(Str("Super Admin")) == "Super Admin";
  }

  lemma SuperAdminTrimmed()
    ensures Trim("Super Admin") == "Super Admin"
  {
    TrimUnpadded("Super Admin");
  }

  lemma SuperAdminLowered()
    ensures Lower("Super Admin") == "super admin"
  {
  }

  lemma ThreeParsed()
    ensures ParseInt("3") == Some(3) && ToStr(Num(3)) == "3"
  {
    assert AllDigits("3");
    ParseIntOfDigits("3");
    assert DigitsValue("3") == 3;
  }

  lemma SuperAdminFound()
    ensures FindSuperAdmin([Role(Num(3), Str("Super Admin"))]) == Some(Role(Num(3), Str("Super Admin")))
  {
    CapitalisedNameNormalized();
  }

  /** A role id stored as the string `"3"` matches a super admin role whose id is the number 3. */
  lemma StringRoleIdHidden()
    ensures var roles := [Role(Num(3), Str("Super Admin"))];
            var u := UserRecord(false, Str("3"), NoRole);
            !Listed(u, roles)
  {
    var roles := [Role(Num(3), Str("Super Admin"))];
    SuperAdminFound();
    var u := UserRecord(false, Str("3"), NoRole);
    ThreeParsed();
    assert ParsedRoleId(UserRoleId(u)) == Some(3);
  }

  /** `currentRole`: absent, a role name, or a role object with a name. */
  datatype CurrentRole = NoCurrentRole | RoleName(s: string) | CurrentRoleObject(name: Value)

  /** The current role's name, normalised; `''` when it is falsy. */
  function CurrentRoleKey(c: CurrentRole): string
  {
    var name := match c
                case NoCurrentRole => Str("")
                case RoleName(s) => Str(s)
                case CurrentRoleObject(n) => n;
    if Truthy(name) then Normalize(name) else ""
  }

  predicate Offered(r: Role, currentKey: string)
  {
    Normalize(r.name) != "super admin" && Normalize(r.name) != currentKey
  }

  function OfferedRoles(roles: seq<Role>, currentKey: string): (r: seq<Role>)
    ensures |r| <= |roles|
    ensures forall x :: x in r <==> x in roles && Offered(x, currentKey)
  {
    if roles == [] then []
    else
      assert forall x :: x in roles <==> x == roles[0] || x in roles[1..];
      (if Offered(roles[0], currentKey) then [roles[0]] else []) + OfferedRoles(roles[1..], currentKey)
  }

  /** The dropdown keeps the order of the roles it offers: it distributes over concatenation. */
  lemma {:induction false} OfferedRolesAppend(a: seq<Role>, b: seq<Role>, currentKey: string)
    ensures OfferedRoles(a + b, currentKey) == OfferedRoles(a, currentKey) + OfferedRoles(b, currentKey)
  {
    if a == [] {
      assert a + b == b;
    } else {
      var x, t := a[0], a[1..];
      var h, ft, fb := (if Offered(x, currentKey) then [x] else []), OfferedRoles(t, currentKey), OfferedRoles(b, currentKey);
      calc {
        OfferedRoles(a + b, currentKey);
        { OfferedRolesUnfold(a + b, currentKey); ConsAppend(a, b); }
        h + OfferedRoles(t + b, currentKey);
        { OfferedRolesAppend(t, b, currentKey); }
        h + (ft + fb);
        { AppendAssoc(h, ft, fb); }
        (h + ft) + fb;
        { OfferedRolesUnfold(a, currentKey); }
        OfferedRoles(a, currentKey) + fb;
      }
    }
  }

  lemma OfferedRolesUnfold(a: seq<Role>, currentKey: string)
    requires a != []
    ensures OfferedRoles(a, currentKey) == (if Offered(a[0], currentKey) then [a[0]] else []) + OfferedRoles(a[1..], currentKey)
  {
  }

  /** The dialog's roles: neither super admin nor the current user's own role; a non-array response is passed on. */
  function RoleOptions(rolesData: Option<seq<Role>>, current: CurrentRole): (r: Option<seq<Role>>)
    ensures r.Some? <==> rolesData.Some?
    ensures r.Some? ==> forall x :: x in r.value ==> !IsSuperAdmin(x) && Normalize(x.name) != CurrentRoleKey(current)
    ensures r.Some? ==> forall x :: x in rolesData.value && !IsSuperAdmin(x) && Normalize(x.name) != CurrentRoleKey(current) ==> x in r.value
  {
    if rolesData.Some? then Some(OfferedRoles(rolesData.value, CurrentRoleKey(current))) else None
  }

  /** `xs.slice(lo, hi)` for `0 <= lo <= hi`. */
  function SliceFrom<T>(xs: seq<T>, lo: nat, hi: nat): (r: seq<T>)
    requires lo <= hi
    ensures |r| <= hi - lo
    ensures r == [] || lo + |r| <= |xs|
    ensures forall i :: 0 <= i < |r| ==> r[i] == xs[lo + i]
    ensures lo < |xs| && lo < hi ==> r != []
  {
    if lo >= |xs| then [] else if hi <= |xs| then xs[lo..hi] else xs[lo..]
  }

  /** `users.slice((page - 1) * pageSize, page * pageSize)`. */
  function PageOf(users: seq<UserRecord>, page: nat, pageSize: nat): (r: seq<UserRecord>)
    requires page >= 1 && pageSize >= 1
    ensures var lo := (page - 1) * pageSize;
            |r| <= pageSize && (r == [] || lo + |r| <= |users|) &&
            (forall i :: 0 <= i < |r| ==> r[i] == users[lo + i]) &&
            (lo < |users| ==> r != [])
  {
    var lo := (page - 1) * pageSize;
    SliceFrom(users, lo, lo + pageSize)
  }

  /** Every user appears on page `i / pageSize + 1`, at position `i % pageSize`. */
  lemma UserOnItsPage(users: seq<UserRecord>, pageSize: nat, i: nat)
    requires pageSize >= 1 && i < |users|
    ensures var p := PageOf(users, i / pageSize + 1, pageSize);
            i % pageSize < |p| && p[i % pageSize] == users[i]
  {
    var q, m := i / pageSize, i % pageSize;
    assert i == q * pageSize + m;
    assert (q + 1 - 1) * pageSize == q * pageSize;
    assert (q + 1) * pageSize == q * pageSize + pageSize;
  }

  /** `allRoles.find(r => r.id === roleId || r.id === parseInt(roleId))`. */
  function FindRole(roles: seq<Role>, roleId: Value): (r: Option<Role>)
    ensures r.Some? ==> r.value in roles && IdMatches(r.value.id, roleId)
    ensures r.None? ==> forall x :: x in roles ==> !IdMatches(x.id, roleId)
  {
    if roles == [] then None
    else if IdMatches(roles[0].id, roleId) then Some(roles[0])
    else
      assert forall x :: x in roles <==> x == roles[0] || x in roles[1..];
      FindRole(roles[1..], roleId)
  }

  /** `getRoleName`: `N/A` for a falsy id, the role's name, or `Unknown`. */
  function RoleName(roles: seq<Role>, roleId: Value): (name: Value)
    ensures !Truthy(roleId) ==> name == Str("N/A")
    ensures Truthy(roleId) && (forall x :: x in roles ==> !IdMatches(x.id, roleId)) ==> name == Str("Unknown")
    ensures Truthy(roleId) && FindRole(roles, roleId).Some? ==> name == FindRole(roles, roleId).value.name
  {
    if !Truthy(roleId) then Str("N/A")
    else
      var r := FindRole(roles, roleId);
      if r.Some? then r.value.name else Str("Unknown")
  }

  /** What a render produces. */
  datatype Rendered = Rows(users: seq<UserRecord>) | ReferenceError(name: string)

  class UsersPageState {
    var users: seq<UserRecord>
    var roles: Option<seq<Role>>
    var allRoles: Option<seq<Role>>
    var currentPage: nat
    var pageSize: nat

    predicate Valid()
      reads this
    {
      currentPage >= 1 && pageSize >= 1 && forall u :: u in users ==> !u.isDeleted
    }

    constructor ()
      ensures Valid() && users == [] && roles == Some([]) && allRoles == Some([])
      ensures currentPage == 1 && pageSize == 10
    {
      users, roles, allRoles := [], Some([]), Some([]);
      currentPage, pageSize := 1, 10;
    }

    /** The successful end of `fetchData`. */
    method Load(usersData: Option<seq<UserRecord>>, rolesData: Option<seq<Role>>, current: CurrentRole)
      requires Valid()
      modifies this
      ensures Valid()
      ensures users == FilterUsers(usersData, rolesData) && roles == RoleOptions(rolesData, current) && allRoles == rolesData
      ensures currentPage == old(currentPage) && pageSize == old(pageSize)
    {
      allRoles := rolesData;
      users := FilterUsers(usersData, rolesData);
      roles := RoleOptions(rolesData, current);
    }

    /** The pagination bar's page change (it reports 0-based pages). */
    method PageChange(p: nat)
      requires Valid()
      modifies this
      ensures Valid() && currentPage == p + 1 && pageSize == old(pageSize)
      ensures users == old(users) && roles == old(roles) && allRoles == old(allRoles)
    {
      currentPage := p + 1;
    }

    /** A new page size goes back to the first page. */
    method PageSizeChange(size: nat)
      requires Valid() && size >= 1
      modifies this
      ensures Valid() && pageSize == size && currentPage == 1
      ensures users == old(users) && roles == old(roles) && allRoles == old(allRoles)
    {
      pageSize := size;
      currentPage := 1;
    }

    /** The users the table would show. */
    function CurrentUsers(): (r: seq<UserRecord>)
      requires Valid()
      reads this
      ensures |r| <= pageSize && forall u :: u in r ==> !u.isDeleted
    {
      var p := PageOf(users, currentPage, pageSize);
      assert forall i :: 0 <= i < |p| ==> p[i] in users;
      p
    }

    /**
     * A render: the page count divides by `itemsPerPage`, which is not
     * defined anywhere, so every render throws before any row is shown.
     */
    function Render(): (r: Rendered)
      reads this
      ensures r.ReferenceError? && r.name == "itemsPerPage"
    {
      ReferenceError("itemsPerPage")
    }
  }
}

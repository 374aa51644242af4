/**
 * The authentication slice (src/store/slices/authSlice.js): the signed-in
 * user, the token, the role, the permission object and the agent flag. The
 * token read from browser storage at start-up is a constructor parameter.
 */
module AuthSlice {
  import opened Js
  import Dict

  /** The role object: `isAgent` is whatever the server sent; `name` is `None` when absent or null. */
  datatype Role = Role(isAgent: Value, name: Option<string>)

  /** One screen's entry of the permission object. */
  datatype Perm = Perm(read: Value, create: Value, update: Value, delete: Value)

  /** Screen key to its entry, in key order. */
  type Permissions = Dict.Dict<Perm>

  /** Every action granted: the entry the layout derives for each menu screen. */
  const FullAccess: Perm := Perm(Bool(true), Bool(true), Bool(true), Bool(true))

  /**
   * `role?.isAgent === true || role?.name?.toLowerCase() === 'agent'`.
   * ASCII lower-casing decides the comparison with `agent` exactly, since no
   * other character lower-cases to one of its letters.
   */
  predicate AgentRole(role: Option<Role>)
  {
    role.Some? && (role.value.isAgent == Bool(true) || (role.value.name.Some? && Lower(role.value.name.value) == "agent"))
  }

  /** Only the boolean `true` counts as a flag; any capitalisation of the name `agent` counts as well. */
  lemma AgentRoleCases(flag: Value, name: string)
    ensures AgentRole(Some(Role(Bool(true), Some(name))))
    ensures AgentRole(Some(Role(flag, Some("AGENT")))) && AgentRole(Some(Role(flag, Some("Agent"))))
    ensures flag != Bool(true) ==> !AgentRole(Some(Role(flag, None)))
    ensures !AgentRole(None)
  {
    assert Lower("AGENT") == "agent";
    assert Lower("Agent") == "agent";
  }

  class AuthStore {
    var user: Value
    var token: Value
    var isAuthenticated: bool
    var role: Option<Role>
    var permissions: Permissions
    var isAgent: bool

    /** The two derived flags agree with the token and the role. */
    predicate Valid()
      reads this
    {
      isAuthenticated == Truthy(token) && isAgent == AgentRole(role)
    }

    /** The initial state, with the token found in browser storage (or null). */
    constructor (storedToken: Value)
      ensures Valid()
      ensures user.Null? && token == storedToken && role.None? && permissions == Dict.Empty() && !isAgent
    {
      user, token := Null, storedToken;
      isAuthenticated := Truthy(storedToken);
      role, permissions, isAgent := None, Dict.Empty(), false;
    }

    /** `setCredentials({user, token, role, permissions})`; absent permissions keep the previous ones. */
    method SetCredentials(newUser: Value, newToken: Value, newRole: Option<Role>, newPermissions: Option<Permissions>)
      modifies this
      ensures Valid()
      ensures user == newUser && token == newToken && role == newRole
      ensures permissions == if newPermissions.Some? then newPermissions.value else old(permissions)
      ensures isAuthenticated == Truthy(newToken) && isAgent == AgentRole(newRole)
    {
      user, token, role := newUser, newToken, newRole;
      if newPermissions.Some? {
        permissions := newPermissions.value;
      }
      isAuthenticated := Truthy(newToken);
      isAgent := AgentRole(newRole);
    }

    /** `logout()`. */
    method Logout()
      modifies this
      ensures Valid()
      ensures user.Null? && token.Null? && role.None? && permissions == Dict.Empty()
      ensures !isAuthenticated && !isAgent
    {
      user, token, role := Null, Null, None;
      permissions := Dict.Empty();
      isAuthenticated, isAgent := false, false;
    }

    /** `updatePermissions(p)`: only the permissions change. */
    method UpdatePermissions(p: Permissions)
      requires Valid()
      modifies this
      ensures Valid()
      ensures permissions == p
      ensures user == old(user) && token == old(token) && role == old(role)
      ensures isAuthenticated == old(isAuthenticated) && isAgent == old(isAgent)
    {
      permissions := p;
    }
  }
}

/**
 * The agent-notes history (src/modules/admin/conversations/NotesHistoryModal.jsx):
 * whose name a note is shown under.
 */
module NotesHistory {
  import opened Js

  /** A note's author as stored on it. */
  datatype Note = Note(agentId: Value, agentName: Option<string>)

  /** A user of the list the modal is given. */
  datatype User = User(id: Value, fullName: Option<string>, username: Option<string>)

  /** `u.id === id || u.id === parseInt(id)`; a `parseInt` that gives NaN matches nothing. */
  predicate Matches(u: User, id: Value)
  {
    IdMatches(u.id, id)
  }

  /** No user before position `i` matches `id`. */
  predicate NoneMatchBefore(users: seq<User>, i: int, id: Value)
  {
    forall j :: 0 <= j < i && j < |users| ==> !Matches(users[j], id)
  }

  /** `users.find(...)`: the first matching user. */
  function FindUser(users: seq<User>, id: Value): (u: Option<User>)
    ensures u.Some? ==> u.value in users && Matches(u.value, id)
    ensures u.None? ==> forall i :: 0 <= i < |users| ==> !Matches(users[i], id)
    ensures u.Some? ==> exists i :: 0 <= i < |users| && users[i] == u.value && NoneMatchBefore(users, i, id)
  {
    if users == [] then None
    else if Matches(users[0], id) then Some(users[0])
    else
      var r := FindUser(users[1..], id);
      if r.Some? then
        var i :| 0 <= i < |users[1..]| && users[1..][i] == r.value && NoneMatchBefore(users[1..], i, id);
        assert users[i + 1] == r.value;
        assert forall j :: 1 <= j < i + 1 ==> users[j] == users[1..][j - 1];
        assert NoneMatchBefore(users, i + 1, id);
        r
      else r
  }

  /** `fallbackName || 'Agent'`. */
  function FallbackName(n: Note): (name: string)
    ensures name != ""
  {
    if n.agentName.Some? && n.agentName.value != "" then n.agentName.value else "Agent"
  }

  /**
   * `resolveAgentName`; `None` stands for `undefined`, which a matched user
   * with neither a full name nor a username gives.
   */
  function ResolveAgentName(n: Note, users: seq<User>): (name: Option<string>)
    ensures !Truthy(n.agentId) ==> name == Some(FallbackName(n))
    ensures Truthy(n.agentId) && FindUser(users, n.agentId).None? ==> name == Some(FallbackName(n))
    ensures Truthy(n.agentId) && FindUser(users, n.agentId).Some? ==>
              var u := FindUser(users, n.agentId).value;
              name == (if u.fullName.Some? && u.fullName.value != "" then u.fullName else u.username)
  {
    if !Truthy(n.agentId) then Some(FallbackName(n))
    else
      var u := FindUser(users, n.agentId);
      if u.None? then Some(FallbackName(n))
      else if u.value.fullName.Some? && u.value.fullName.value != "" then u.value.fullName
      else u.value.username
  }

  /** Without a matching user the name is never empty: the stored name, else `Agent`. */
  lemma UnmatchedNoteNamed(n: Note, users: seq<User>)
    requires forall i :: 0 <= i < |users| ==> !Matches(users[i], n.agentId)
    ensures ResolveAgentName(n, users).Some? && ResolveAgentName(n, users).value != ""
  {
  }

  /** An id stored as a numeric string finds the user whose id is that number. */
  lemma NumericStringFindsUser(name: string)
    ensures var users := [User(Num(7), Some(name), None)];
            ResolveAgentName(Note(Str("7"), None), users) == (if name != "" then Some(name) else None)
  {
    assert AllDigits("7");
    ParseIntOfDigits("7");
    assert DigitsValue("7") == 7;
  }
}

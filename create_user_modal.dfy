/**
 * The create/edit user dialog (src/modules/admin/users/CreateUserModal.jsx):
 * prefilling, field edits, validation, the request payload and the outcome
 * of saving.
 */
module CreateUserModal {
  import opened Js
  import UsersPage

  /** The user being edited, as far as the dialog reads it; `None` parts are undefined. */
  datatype EditedUser = EditedUser(username: Option<string>, email: Option<string>, mobile: Option<string>,
                                   roleId: Value, role: UsersPage.RoleField)

  datatype Field = Username | Email | Mobile | Password | RoleId

  /** The body sent to the create or update call; `password` is left out when `None`. */
  datatype Payload = Payload(username: string, email: string, mobile: string, roleId: Option<int>, password: Option<string>)

  /** How the create or update call ended; an empty message stands for a missing one. */
  datatype SaveResult = SaveOk | SaveFailed(message: string)

  const RequiredMessage := "All fields are required"
  const MobileMessage := "Valid mobile number with country code is required (e.g. +1234567890)"
  const SaveFallback := "Failed to save user"

  /** `/^\+[1-9]\d{1,14}$/`. */
  predicate IsE164(m: string)
  {
    3 <= |m| <= 16 && m[0] == '+' && '1' <= m[1] <= '9' && AllDigits(m[1..])
  }

  /** A valid number is a `+` and two to fifteen digits, the first not zero, and nothing else. */
  lemma E164Digits(m: string)
    ensures IsE164(m) <==> |m| >= 2 && m[0] == '+' && DigitsOf(m) == m[1..] && m[1] != '0' && 2 <= |DigitsOf(m)| <= 15
  {
    if |m| >= 1 && m[0] == '+' {
      assert m == [m[0]] + m[1..];
      DigitsOfSplit([m[0]], m[1..]);
      assert DigitsOf([m[0]]) == [];
      DigitsOfAll(m[1..]);
    }
  }

  /** The dialog's `formData`. */
  datatype FormData = FormData(username: string, email: string, mobile: string, password: string, roleId: Value)

  const EmptyForm := FormData("", "", "", "", Str(""))

  /** The message the checks before saving raise, if any; a mobile number is optional but must be valid when given. */
  function ValidationError(f: FormData, editing: bool): (e: Option<string>)
    ensures e == Some(RequiredMessage) <==> f.username == "" || f.email == "" || (!editing && f.password == "") || !Truthy(f.roleId)
    ensures e == Some(MobileMessage) <==>
              f.username != "" && f.email != "" && (editing || f.password != "") && Truthy(f.roleId) && f.mobile != "" && !IsE164(f.mobile)
    ensures e.None? <==>
              f.username != "" && f.email != "" && (editing || f.password != "") && Truthy(f.roleId) && (f.mobile == "" || IsE164(f.mobile))
  {
    if f.username == "" || f.email == "" || (!editing && f.password == "") || !Truthy(f.roleId) then Some(RequiredMessage)
    else if f.mobile != "" && !IsE164(f.mobile) then Some(MobileMessage)
    else None
  }

  /** The request body: the role id read by `parseInt`, the password only when one was typed. */
  function PayloadOf(f: FormData): (p: Payload)
    ensures p.username == f.username && p.email == f.email && p.mobile == f.mobile
    ensures p.roleId == ParseInt(ToStr(f.roleId))
    ensures p.password.Some? <==> f.password != ""
    ensures p.password.Some? ==> p.password.value == f.password
  {
    Payload(f.username, f.email, f.mobile, ParseInt(ToStr(f.roleId)), if f.password != "" then Some(f.password) else None)
  }

  /** `user.roleId || (user.role && user.role.id) || ''`. */
  function PrefillRoleId(u: EditedUser): (v: Value)
    ensures Truthy(u.roleId) ==> v == u.roleId
    ensures !Truthy(u.roleId) && u.role.RoleObject? && Truthy(u.role.id) ==> v == u.role.id
    ensures !Truthy(v) ==> v == Str("")
  {
    if Truthy(u.roleId) then u.roleId
    else if u.role.RoleObject? && Truthy(u.role.id) then u.role.id
    else Str("")
  }

  function OrEmpty(s: Option<string>): (r: string)
    ensures s.Some? ==> r == s.value
    ensures s.None? ==> r == ""
  {
    if s.Some? then s.value else ""
  }

  class UserForm {
    var formData: FormData
    var error: string
    /** Whether a user was passed in (edit rather than create). */
    var editing: bool

    constructor ()
      ensures formData == EmptyForm && error == "" && !editing
    {
      formData, error, editing := EmptyForm, "", false;
    }

    /** The effect run when the dialog opens or its user changes: the user's values, or an empty form; the password is never prefilled. */
    method Prefill(user: Option<EditedUser>)
      modifies this
      ensures editing == user.Some? && error == old(error)
      ensures user.None? ==> formData == EmptyForm
      ensures user.Some? ==> formData == FormData(OrEmpty(user.value.username), OrEmpty(user.value.email),
                                                  OrEmpty(user.value.mobile), "", PrefillRoleId(user.value))
    {
      editing := user.Some?;
      if user.Some? {
        formData := FormData(OrEmpty(user.value.username), OrEmpty(user.value.email), OrEmpty(user.value.mobile), "",
                             PrefillRoleId(user.value));
      } else {
        formData := EmptyForm;
      }
    }

    /** `handleChange`: only the named field takes the new value (the role select yields a string). */
    method SetField(f: Field, value: string)
      modifies this
      ensures formData.username == (if f == Username then value else old(formData.username))
      ensures formData.email == (if f == Email then value else old(formData.email))
      ensures formData.mobile == (if f == Mobile then value else old(formData.mobile))
      ensures formData.password == (if f == Password then value else old(formData.password))
      ensures formData.roleId == (if f == RoleId then Str(value) else old(formData.roleId))
      ensures error == old(error) && editing == old(editing)
    {
      match f
      case Username => formData := formData.(username := value);
      case Email => formData := formData.(email := value);
      case Mobile => formData := formData.(mobile := value);
      case Password => formData := formData.(password := value);
      case RoleId => formData := formData.(roleId := Str(value));
    }

    /**
     * `handleSubmit`; `result` is how the create or update call ends. A
     * form that fails a check sends nothing and shows the message. A save
     * that succeeds clears the form and closes the dialog; one that fails
     * keeps the form and shows the error's message or the fallback.
     */
    method Submit(result: SaveResult) returns (sent: Option<Payload>, closed: bool)
      modifies this
      ensures var check := ValidationError(old(formData), old(editing));
              if check.Some? then
                sent.None? && !closed && error == check.value && formData == old(formData)
              else
                sent == Some(PayloadOf(old(formData))) &&
                (result.SaveOk? ==> closed && error == "" && formData == EmptyForm) &&
                (result.SaveFailed? ==> !closed && formData == old(formData) &&
                                        error == (if result.message != "" then result.message else SaveFallback))
      ensures editing == old(editing)
    {
      error := "";
      var check := ValidationError(formData, editing);
      if check.Some? {
        error := check.value;
        return None, false;
      }
      sent := Some(PayloadOf(formData));
      match result
      case SaveOk =>
        formData := EmptyForm;
        closed := true;
      case SaveFailed(message) =>
        error := if message != "" then message else SaveFallback;
        closed := false;
    }
  }

  /** Editing without typing a password sends no password, so the stored one is kept. */
  lemma EditWithoutPasswordKeepsIt(username: string, email: string, mobile: string, roleId: Value)
    requires username != "" && email != "" && Truthy(roleId) && (mobile == "" || IsE164(mobile))
    ensures var f := FormData(username, email, mobile, "", roleId);
            ValidationError(f, true).None? && PayloadOf(f).password.None?
  {
  }

  /** Creating a user always needs a password. */
  lemma CreateNeedsPassword(f: FormData)
    requires f.password == ""
    ensures ValidationError(f, false) == Some(RequiredMessage)
  {
  }

  /** A number with a leading zero after the `+` is refused. */
  lemma LeadingZeroRefused()
    ensures !IsE164("+0123456789")
  {
  }

  /** Sixteen digits are one too many. */
  lemma SixteenDigitsRefused()
    ensures !IsE164("+1234567890123456")
  {
  }
}

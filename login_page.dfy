/**
 * The sign-in / sign-up page (src/modules/auth/LoginPage.jsx): field edits,
 * the registration checks, the generated username, the submit outcome and
 * the mode toggle.
 */
module LoginPage {
  import opened Js

  /** The page's `formData`. */
  datatype FormData = FormData(fullName: string, email: string, password: string, confirmPassword: string, agreeToTerms: bool)

  const EmptyForm := FormData("", "", "", "", false)

  /** A text input's name. */
  datatype TextField = FullName | Email | PasswordField | ConfirmPassword

  /** How `login` ended: a truthy result, a falsy one, or a thrown error (an empty message stands for a missing one). */
  datatype LoginOutcome = LoggedIn | LoginRefused | LoginThrew(message: string)

  /** How `createAppUser` ended. */
  datatype CreateOutcome = Created | CreateFailed(message: string)

  /** The body of the account creation call. */
  datatype Registration = Registration(username: string, email: string, password: string)

  const MismatchMessage := "Passwords do not match"
  const TermsMessage := "You must agree to the Terms of Service"

  /** The registration checks, in order: the password mismatch is reported before the terms. */
  function RegisterError(f: FormData): (e: Option<string>)
    ensures e.None? <==> f.password == f.confirmPassword && f.agreeToTerms
    ensures f.password != f.confirmPassword ==> e == Some(MismatchMessage)
    ensures f.password == f.confirmPassword && !f.agreeToTerms ==> e == Some(TermsMessage)
  {
    if f.password != f.confirmPassword then Some(MismatchMessage)
    else if !f.agreeToTerms then Some(TermsMessage)
    else None
  }

  /** `email.split('@')[0]`: everything before the first `@`. */
  function UsernameOf(email: string): (r: string)
    ensures '@' !in r && |r| <= |email| && r == email[..|r|]
    ensures |r| < |email| ==> email[|r|] == '@'
    ensures '@' !in email ==> r == email
  {
    if '@' !in email then email
    else
      var i := IndexOfChar(email, '@');
      assert Split(email, '@')[0] == email[..i];
      Split(email, '@')[0]
  }

  /** A username is the local part of an address. */
  lemma LocalPartIsUsername(local: string, domain: string)
    requires '@' !in local
    ensures UsernameOf(local + "@" + domain) == local
  {
    var email := local + "@" + domain;
    var r := UsernameOf(email);
    assert email[..|local|] == local && email[|local|] == '@';
    assert forall j :: 0 <= j < |local| ==> email[j] == local[j] && email[j] != '@';
    assert forall j :: 0 <= j < |r| ==> r[j] == email[j] && r[j] != '@';
  }

  class LoginForm {
    var isLogin: bool
    var error: string
    var formData: FormData

    constructor ()
      ensures isLogin && error == "" && formData == EmptyForm
    {
      isLogin, error, formData := true, "", EmptyForm;
    }

    /** `handleChange` for a text input: only that key changes. */
    method SetText(field: TextField, value: string)
      modifies this
      ensures formData.fullName == (if field == FullName then value else old(formData.fullName))
      ensures formData.email == (if field == Email then value else old(formData.email))
      ensures formData.password == (if field == PasswordField then value else old(formData.password))
      ensures formData.confirmPassword == (if field == ConfirmPassword then value else old(formData.confirmPassword))
      ensures formData.agreeToTerms == old(formData.agreeToTerms)
      ensures isLogin == old(isLogin) && error == old(error)
    {
      match field
      case FullName => formData := formData.(fullName := value);
      case Email => formData := formData.(email := value);
      case PasswordField => formData := formData.(password := value);
      case ConfirmPassword => formData := formData.(confirmPassword := value);
    }

    /** `handleChange` for the terms checkbox: its `checked` state is stored. */
    method SetAgree(checked: bool)
      modifies this
      ensures formData == old(formData).(agreeToTerms := checked)
      ensures isLogin == old(isLogin) && error == old(error)
    {
      formData := formData.(agreeToTerms := checked);
    }

    /**
     * `handleSubmit`; `login` and `created` are how the two calls end and
     * `from` is the page to return to. Signing in navigates there or shows
     * an error. Registering sends an account only when both checks pass,
     * and switches to sign-in when it is created.
     */
    method Submit(login: LoginOutcome, created: CreateOutcome, from: string)
      returns (navigateTo: Option<string>, sent: Option<Registration>)
      modifies this
      ensures formData == old(formData)
      ensures old(isLogin) ==> sent.None? && isLogin &&
                               match login
                               case LoggedIn => navigateTo == Some(from) && error == ""
                               case LoginRefused => navigateTo.None? && error == "Invalid email or password"
                               case LoginThrew(m) => navigateTo.None? && error == (if m != "" then m else "Authentication failed")
      ensures !old(isLogin) ==> navigateTo.None? &&
                                var check := RegisterError(formData);
                                if check.Some? then sent.None? && error == check.value && !isLogin
                                else
                                  sent == Some(Registration(UsernameOf(formData.email), formData.email, formData.password)) &&
                                  (created.Created? ==> isLogin && error == "") &&
                                  (created.CreateFailed? ==> !isLogin &&
                                                             error == (if created.message != "" then created.message else "Authentication failed"))
    {
      error := "";
      navigateTo, sent := None, None;
      if isLogin {
        match login
        case LoggedIn => navigateTo := Some(from);
        case LoginRefused => error := "Invalid email or password";
        case LoginThrew(m) => error := if m != "" then m else "Authentication failed";
      } else {
        var check := RegisterError(formData);
        if check.Some? {
          error := check.value;
        } else {
          sent := Some(Registration(UsernameOf(formData.email), formData.email, formData.password));
          match created
          case Created => isLogin := true;
          case CreateFailed(m) => error := if m != "" then m else "Authentication failed";
        }
      }
    }

    /** The mode switch: the error and both password fields are cleared; the name, email and terms box are kept. */
    method ToggleMode()
      modifies this
      ensures isLogin == !old(isLogin) && error == ""
      ensures formData == old(formData).(password := "", confirmPassword := "")
    {
      isLogin := !isLogin;
      error := "";
      formData := formData.(password := "", confirmPassword := "");
    }
  }

  /** A mismatched password is reported even when the terms are not accepted. */
  lemma MismatchBeforeTerms(f: FormData)
    requires f.password != f.confirmPassword && !f.agreeToTerms
    ensures RegisterError(f) == Some(MismatchMessage)
  {
  }
}

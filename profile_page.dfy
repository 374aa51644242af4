/**
 * The profile page (src/modules/admin/profile/ProfilePage.jsx): the
 * password-change dialog and the avatar initials.
 */
module ProfilePage {
  import opened Js
  import PendingConversations

  /** The page's `passwordData`. */
  datatype PasswordData = PasswordData(currentPassword: string, newPassword: string, confirmPassword: string)

  const EmptyPasswords := PasswordData("", "", "")

  /** A toast: its title and description. */
  datatype Toast = Toast(title: string, description: string)

  /** How the password update call ended; an empty message stands for a missing one. */
  datatype UpdateResult = Updated | UpdateFailed(message: string)

  /** The body of the password update call. */
  datatype PasswordRequest = PasswordRequest(email: string, password: string)

  const TooShort := "Password must be at least 6 characters"
  const Mismatch := "Passwords do not match"

  /** The message the checks raise before any request; the length check comes first. */
  function PasswordError(p: PasswordData): (e: Option<string>)
    ensures e.None? <==> |p.newPassword| >= 6 && p.newPassword == p.confirmPassword
    ensures e == Some(TooShort) <==> |p.newPassword| < 6
    ensures e == Some(Mismatch) <==> |p.newPassword| >= 6 && p.newPassword != p.confirmPassword
  {
    if p.newPassword == "" || |p.newPassword| < 6 then Some(TooShort)
    else if p.newPassword != p.confirmPassword then Some(Mismatch)
    else None
  }

  /** A short mismatched pair reports the length, not the mismatch. */
  lemma LengthCheckedFirst()
    ensures PasswordError(PasswordData("", "abc", "xyz")) == Some(TooShort)
  {
  }

  class PasswordDialog {
    /** The email of the profile form, sent with the new password. */
    var email: string
    var passwordData: PasswordData
    var isOpen: bool

    constructor (email: string)
      ensures this.email == email && passwordData == EmptyPasswords && !isOpen
    {
      this.email, passwordData, isOpen := email, EmptyPasswords, false;
    }

    /**
     * `handleUpdatePassword`: a failed check sends nothing and changes
     * nothing; a successful update clears the three fields and closes the
     * dialog; a failed one keeps both.
     */
    method UpdatePassword(result: UpdateResult) returns (request: Option<PasswordRequest>, toast: Toast)
      modifies this
      ensures email == old(email)
      ensures var check := PasswordError(old(passwordData));
              if check.Some? then
                request.None? && toast == Toast("Error", check.value) &&
                passwordData == old(passwordData) && isOpen == old(isOpen)
              else
                request == Some(PasswordRequest(email, old(passwordData).newPassword)) &&
                (result.Updated? ==> toast == Toast("Success", "Password updated successfully") &&
                                     passwordData == EmptyPasswords && !isOpen) &&
                (result.UpdateFailed? ==> passwordData == old(passwordData) && isOpen == old(isOpen) &&
                                          toast == Toast("Error", if result.message != "" then result.message else "Failed to update password"))
    {
      var check := PasswordError(passwordData);
      if check.Some? {
        return None, Toast("Error", check.value);
      }
      request := Some(PasswordRequest(email, passwordData.newPassword));
      match result
      case Updated =>
        toast := Toast("Success", "Password updated successfully");
        passwordData := EmptyPasswords;
        isOpen := false;
      case UpdateFailed(message) =>
        toast := Toast("Error", if message != "" then message else "Failed to update password");
    }
  }

  /** `(fullName || 'U').split(' ').map(n => n[0]).join('').toUpperCase().substring(0, 2)`. */
  function ProfileInitials(fullName: string): (r: string)
    ensures |r| <= 2
    ensures fullName == "" ==> r == "U"
    ensures fullName != "" ==>
              var ws := PendingConversations.NonEmptyWords(Split(fullName, ' '));
              |r| == (if |ws| < 2 then |ws| else 2) && forall i :: 0 <= i < |r| ==> r[i] == UpperChar(ws[i][0])
  {
    var name := if fullName != "" then fullName else "U";
    PendingConversations.WordHeadsAreFirstLetters(Split(name, ' '));
    assert fullName == "" ==> Upper(PendingConversations.WordHeads(Split(name, ' '))) == "U" by {
      if fullName == "" {
        assert Split(name, ' ') == ["U"];
        assert PendingConversations.WordHeads(["U"]) == "U";
      }
    }
    Take(Upper(PendingConversations.WordHeads(Split(name, ' '))), 2)
  }

  /** Upper-casing works letter by letter, so it commutes with taking a prefix. */
  lemma TakeUpper(s: string, n: nat)
    ensures Take(Upper(s), n) == Upper(Take(s, n))
  {
  }

  /** For a non-empty name the profile's initials are the conversation list's. */
  lemma SameInitialsAsConversations(name: string)
    requires name != ""
    ensures ProfileInitials(name) == PendingConversations.Initials(name)
  {
    TakeUpper(PendingConversations.WordHeads(Split(name, ' ')), 2);
  }

  /** The two lists differ only on an empty name. */
  lemma EmptyNameDiffers()
    ensures ProfileInitials("") == "U" && PendingConversations.Initials("") == "?"
  {
  }
}

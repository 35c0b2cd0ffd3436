/**
 * The profile page: its form state, its two submit handlers and the
 * callbacks of the two update requests, with the page's error and success
 * banners.
 */
module ProfilePage {
  import opened Common
  import AuthHook

  /** The `name` attributes of the page's five inputs. */
  datatype Field = Username | Email | CurrentPassword | NewPassword | ConfirmPassword

  /** The form state; the three password fields are absent until first typed into. */
  datatype FormData = FormData(
    username: string,
    email: string,
    currentPassword: Option<string>,
    newPassword: Option<string>,
    confirmPassword: Option<string>)

  /** The body of the password update request. */
  datatype PasswordRequest = PasswordRequest(currentPassword: string, newPassword: string)

  /** The bodies the page sends to the server. */
  datatype Request =
    | ProfileUpdate(username: string, email: string)
    | PasswordUpdate(body: PasswordRequest)

  /** How an update request ended; a failure may carry the server's `detail`. */
  datatype MutationReply = Ok | Err(detail: Option<string>)

  const PasswordMismatch: string := "New passwords do not match"
  const MissingPassword: string := "Please fill in all password fields"
  const ProfileUpdated: string := "Profile updated successfully"
  const ProfileFailed: string := "Failed to update profile"
  const PasswordUpdated: string := "Password updated successfully"
  const PasswordFailed: string := "Failed to update password"

  /** The form as first rendered: the user's name and email, or empty text without a user. */
  function InitialForm(user: Option<AuthHook.AuthUser>): (f: FormData)
    ensures user.Some? ==> f.username == user.value.username && f.email == user.value.email
    ensures user.None? ==> f.username == "" && f.email == ""
    ensures f.currentPassword.None? && f.newPassword.None? && f.confirmPassword.None?
  {
    match user
    case None => FormData("", "", None, None, None)
    case Some(u) => FormData(u.username, u.email, None, None, None)
  }

  /** The value of one input; the name and email are always present. */
  function Get(f: FormData, name: Field): Option<string>
  {
    match name
    case Username => Some(f.username)
    case Email => Some(f.email)
    case CurrentPassword => f.currentPassword
    case NewPassword => f.newPassword
    case ConfirmPassword => f.confirmPassword
  }

  /** `handleChange`: the named input takes the typed value and every other input keeps its own. */
  function WithField(f: FormData, name: Field, value: string): (g: FormData)
    ensures Get(g, name) == Some(value)
    ensures forall other :: other != name ==> Get(g, other) == Get(f, other)
  {
    match name
    case Username => f.(username := value)
    case Email => f.(email := value)
    case CurrentPassword => f.(currentPassword := Some(value))
    case NewPassword => f.(newPassword := Some(value))
    case ConfirmPassword => f.(confirmPassword := Some(value))
  }

  /** The password fields after a successful update: all three empty, name and email kept. */
  function ClearPasswords(f: FormData): (g: FormData)
    ensures g.username == f.username && g.email == f.email
    ensures Get(g, CurrentPassword) == Get(g, NewPassword) == Get(g, ConfirmPassword) == Some("")
  {
    f.(currentPassword := Some(""), newPassword := Some(""), confirmPassword := Some(""))
  }

  /**
   * The checks of `handlePasswordUpdate` before any request: a mismatch between
   * the new password and its confirmation is reported first (an untouched field
   * differs from an emptied one), then a missing or empty current or new
   * password. Only a form that passes both yields the request body.
   */
  function CheckPasswordForm(f: FormData): (r: Result<PasswordRequest, string>)
    ensures f.newPassword != f.confirmPassword ==> r == Failure(PasswordMismatch)
    ensures f.newPassword == f.confirmPassword && !(Truthy(f.currentPassword) && Truthy(f.newPassword))
      ==> r == Failure(MissingPassword)
    ensures r.Success? <==> f.newPassword == f.confirmPassword && Truthy(f.currentPassword) && Truthy(f.newPassword)
    ensures r.Success? ==>
      && Some(r.value.currentPassword) == f.currentPassword
      && Some(r.value.newPassword) == f.newPassword == f.confirmPassword
      && r.value.currentPassword != "" && r.value.newPassword != ""
  {
    if f.newPassword != f.confirmPassword then Failure(PasswordMismatch)
    else if !Truthy(f.currentPassword) || !Truthy(f.newPassword) then Failure(MissingPassword)
    else Success(PasswordRequest(f.currentPassword.value, f.newPassword.value))
  }

  /** A form whose password inputs were never typed into is refused as incomplete, not as mismatched. */
  lemma UntouchedFormIsIncomplete(user: Option<AuthHook.AuthUser>, edits: seq<(Field, string)>)
    requires forall k :: 0 <= k < |edits| ==> edits[k].0 == Username || edits[k].0 == Email
    ensures CheckPasswordForm(Edited(InitialForm(user), edits)) == Failure(MissingPassword)
  {
    EditsKeepPasswords(InitialForm(user), edits);
  }

  /** The form after a series of `handleChange` events. */
  function Edited(f: FormData, edits: seq<(Field, string)>): FormData
    decreases |edits|
  {
    if edits == [] then f else Edited(WithField(f, edits[0].0, edits[0].1), edits[1..])
  }

  /** Edits of the name and email leave the password fields as they were. */
  lemma {:induction false} EditsKeepPasswords(f: FormData, edits: seq<(Field, string)>)
    requires forall k :: 0 <= k < |edits| ==> edits[k].0 == Username || edits[k].0 == Email
    decreases |edits|
    ensures var g := Edited(f, edits);
      g.currentPassword == f.currentPassword && g.newPassword == f.newPassword && g.confirmPassword == f.confirmPassword
  {
    if edits != [] {
      var h := WithField(f, edits[0].0, edits[0].1);
      assert Get(h, CurrentPassword) == Get(f, CurrentPassword);
      assert Get(h, NewPassword) == Get(f, NewPassword);
      assert Get(h, ConfirmPassword) == Get(f, ConfirmPassword);
      EditsKeepPasswords(h, edits[1..]);
    }
  }

  /** After a successful password update the same form cannot be sent again until it is filled in. */
  lemma ClearedFormIsIncomplete(f: FormData)
    ensures CheckPasswordForm(ClearPasswords(f)) == Failure(MissingPassword)
  {
  }

  /** Typing the same new password into both fields, with a current one, makes the form acceptable. */
  lemma FilledFormIsAccepted(f: FormData, current: string, password: string)
    requires current != "" && password != ""
    ensures var g := WithField(WithField(WithField(f, CurrentPassword, current), NewPassword, password), ConfirmPassword, password);
      CheckPasswordForm(g) == Success(PasswordRequest(current, password))
  {
    var g1 := WithField(f, CurrentPassword, current);
    var g2 := WithField(g1, NewPassword, password);
    var g3 := WithField(g2, ConfirmPassword, password);
    assert Get(g3, CurrentPassword) == Get(g2, CurrentPassword) == Some(current);
    assert Get(g3, NewPassword) == Some(password);
  }

  class ProfileState {
    var form: FormData
    var error: string
    var success: string
    /** The request bodies sent so far, in order. */
    ghost var sent: seq<Request>

    /** At most one banner shows. */
    ghost predicate Valid()
      reads this
    {
      error == "" || success == ""
    }

    constructor (user: Option<AuthHook.AuthUser>)
      ensures Valid()
      ensures form == InitialForm(user) && error == "" && success == "" && sent == []
    {
      form := InitialForm(user);
      error := "";
      success := "";
      sent := [];
    }

    /** `handleChange`. */
    method HandleChange(name: Field, value: string)
      modifies this
      ensures form == WithField(old(form), name, value)
      ensures error == old(error) && success == old(success) && sent == old(sent)
    {
      form := WithField(form, name, value);
    }

    /**
     * `handleProfileUpdate`: clears both banners, sends only the name and email,
     * then shows the success text or the server's detail (or the generic
     * failure text).
     */
    method HandleProfileUpdate(reply: MutationReply)
      modifies this
      ensures Valid()
      ensures form == old(form)
      ensures sent == old(sent) + [ProfileUpdate(old(form).username, old(form).email)]
      ensures reply.Ok? ==> success == ProfileUpdated && error == ""
      ensures reply.Err? ==> error == OrElse(reply.detail, ProfileFailed) && success == ""
    {
      error := "";
      success := "";
      sent := sent + [ProfileUpdate(form.username, form.email)];
      match reply {
        case Ok =>
          success := ProfileUpdated;
          error := "";
        case Err(detail) =>
          error := OrElse(detail, ProfileFailed);
          success := "";
      }
    }

    /**
     * `handlePasswordUpdate`: clears both banners; a form that fails the checks
     * shows the check's message and sends nothing; otherwise the current and
     * new password are sent, and on success the three password fields are
     * emptied.
     */
    method HandlePasswordUpdate(reply: MutationReply)
      modifies this
      ensures Valid()
      ensures CheckPasswordForm(old(form)).Failure? ==>
        && error == CheckPasswordForm(old(form)).error && success == ""
        && form == old(form) && sent == old(sent)
      ensures CheckPasswordForm(old(form)).Success? ==>
        sent == old(sent) + [PasswordUpdate(CheckPasswordForm(old(form)).value)]
      ensures CheckPasswordForm(old(form)).Success? && reply.Ok? ==>
        success == PasswordUpdated && error == "" && form == ClearPasswords(old(form))
      ensures CheckPasswordForm(old(form)).Success? && reply.Err? ==>
        error == OrElse(reply.detail, PasswordFailed) && success == "" && form == old(form)
    {
      error := "";
      success := "";
      var checked := CheckPasswordForm(form);
      if checked.Failure? {
        error := checked.error;
        return;
      }
      sent := sent + [PasswordUpdate(checked.value)];
      match reply {
        case Ok =>
          success := PasswordUpdated;
          error := "";
          form := ClearPasswords(form);
        case Err(detail) =>
          error := OrElse(detail, PasswordFailed);
          success := "";
      }
    }
  }
}

/**
 * The admin settings page: the change-password form, its client-side checks and the effect of
 * the server's answer on the form.
 */
module AdminSettings {
  import opened Wrappers
  import opened JsText
  import opened AdminAuth
  import AdminLogin

  const MismatchMessage: string := "Пароли не совпадают"
  const TooShortMessage: string := "Пароль должен быть не менее 4 символов"

  /** The client-side checks, in order: the confirmation must match, then the new password must be at least 4 UTF-16 units long. */
  function Validate(newPassword: string, confirmPassword: string): (problem: Option<string>)
    ensures newPassword != confirmPassword ==> problem == Some(MismatchMessage)
    ensures newPassword == confirmPassword && Utf16Length(newPassword) < 4 ==> problem == Some(TooShortMessage)
    ensures problem.None? <==> newPassword == confirmPassword && Utf16Length(newPassword) >= 4
  {
    if newPassword != confirmPassword then Some(MismatchMessage)
    else if Utf16Length(newPassword) < 4 then Some(TooShortMessage)
    else None
  }

  /** A password that passes the checks has at least two characters, and at least four when it stays in the Basic Multilingual Plane. */
  lemma AcceptedPasswordLength(newPassword: string)
    requires Validate(newPassword, newPassword).None?
    ensures |newPassword| >= 2
    ensures (forall k :: 0 <= k < |newPassword| ==> newPassword[k] as int < 0x1_0000) ==> |newPassword| >= 4
  {
    if forall k :: 0 <= k < |newPassword| ==> newPassword[k] as int < 0x1_0000 {
      Utf16LengthBmp(newPassword);
    }
  }

  class SettingsForm {
    var currentPassword: string
    var newPassword: string
    var confirmPassword: string
    var error: string
    var success: bool
    var isLoading: bool

    constructor ()
      ensures currentPassword == "" && newPassword == "" && confirmPassword == ""
      ensures error == "" && !success && !isLoading
    {
      currentPassword := "";
      newPassword := "";
      confirmPassword := "";
      error := "";
      success := false;
      isLoading := false;
    }

    /**
     * The synchronous part of `handleSubmit`. It clears the error and the success flag, then either
     * shows the first failed check or starts loading; `proceed` tells whether the server is called.
     * The three inputs are `required`, so the form is never submitted with one of them empty.
     */
    method HandleSubmit() returns (proceed: bool)
      requires currentPassword != "" && newPassword != "" && confirmPassword != ""
      modifies this
      ensures proceed <==> Validate(newPassword, confirmPassword).None?
      ensures error == Validate(newPassword, confirmPassword).GetOr("")
      ensures isLoading == (proceed || old(isLoading))
      ensures !success
      ensures currentPassword == old(currentPassword) && newPassword == old(newPassword)
        && confirmPassword == old(confirmPassword)
    {
      error := "";
      success := false;
      if newPassword != confirmPassword {
        error := MismatchMessage;
        return false;
      }
      if Utf16Length(newPassword) < 4 {
        error := TooShortMessage;
        return false;
      }
      isLoading := true;
      return true;
    }

    /**
     * The awaited part: call `changePassword` with the two passwords. Success clears the three
     * fields and shows the success note; a refusal shows the server's message, as the Convex client
     * words it (`clientMessage` of the thrown text), and keeps the fields.
     */
    method FinishSubmit(store: AdminStore, digest: Digest, clientMessage: string -> string)
      modifies this, store
      ensures !isLoading
      ensures var accepted := old(store.admins) != []
          && VerifyPassword(digest, old(currentPassword), old(store.admins)[0].passwordHash);
        (accepted ==>
          success && error == old(error)
          && currentPassword == "" && newPassword == "" && confirmPassword == ""
          && store.admins == old(store.admins)[0 := old(store.admins)[0].(passwordHash := HashPassword(digest, old(newPassword)))])
        && (!accepted ==>
          success == old(success) && store.admins == old(store.admins)
          && error == clientMessage(if old(store.admins) == [] then NoAdminMessage else WrongPasswordMessage)
          && currentPassword == old(currentPassword) && newPassword == old(newPassword)
          && confirmPassword == old(confirmPassword))
    {
      var r := store.ChangePassword(digest, currentPassword, newPassword);
      match r {
        case Ok(_) =>
          success := true;
          currentPassword := "";
          newPassword := "";
          confirmPassword := "";
        case Thrown(message) =>
          error := AdminLogin.CaughtMessage(AdminLogin.ErrorValue(clientMessage(message)));
      }
      isLoading := false;
    }
  }
}

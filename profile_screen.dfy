/**
 * The profile screen: logout, and the change-password dialog with its
 * validation order and the handlers that reset its fields.
 */
module ProfileScreen {
  import opened Wrappers
  import opened Primitives
  import opened AuthViewModel
  import opened RegisterScreen

  const PasswordTooShort: string := "Password must be at least 6 characters"
  const MinPasswordLength: nat := 6

  /** The dialog's `when`: the length check comes first, then the match check. */
  function ValidateNewPassword(newPassword: string, confirmation: string): (r: Message)
    ensures |newPassword| < MinPasswordLength ==> r == Some(PasswordTooShort)
    ensures |newPassword| >= MinPasswordLength && newPassword != confirmation ==> r == Some(PasswordsDontMatch)
    ensures r.None? <==> |newPassword| >= MinPasswordLength && newPassword == confirmation
  {
    if |newPassword| < 6 then Some(PasswordTooShort)
    else if newPassword != confirmation then Some(PasswordsDontMatch)
    else None
  }

  /** What the profile screen asks of its surroundings. */
  datatype Action =
    | Auth(call: AuthCall)
    | NavigateToLogin

  class ProfileScreenState {
    var showChangePasswordDialog: bool
    var currentPassword: string
    var newPassword: string
    var confirmNewPassword: string
    var passwordError: Message

    constructor ()
      ensures !showChangePasswordDialog && passwordError.None?
      ensures currentPassword == "" && newPassword == "" && confirmNewPassword == ""
    {
      showChangePasswordDialog := false;
      currentPassword := "";
      newPassword := "";
      confirmNewPassword := "";
      passwordError := None;
    }

    /** Logout signs out first and only then navigates to the login screen. */
    method Logout() returns (actions: seq<Action>)
      ensures actions == [Auth(SignOutCall), NavigateToLogin]
    {
      actions := [Auth(SignOutCall)];
      actions := actions + [NavigateToLogin];
    }

    method OpenChangePassword()
      modifies this
      ensures showChangePasswordDialog
      ensures currentPassword == old(currentPassword) && newPassword == old(newPassword)
      ensures confirmNewPassword == old(confirmNewPassword) && passwordError == old(passwordError)
    {
      showChangePasswordDialog := true;
    }

    /** Typing in the three fields. */
    method EditFields(current: string, replacement: string, confirmation: string)
      modifies this
      ensures currentPassword == current && newPassword == replacement && confirmNewPassword == confirmation
      ensures showChangePasswordDialog == old(showChangePasswordDialog) && passwordError == old(passwordError)
    {
      currentPassword := current;
      newPassword := replacement;
      confirmNewPassword := confirmation;
    }

    /**
     * The Change button: on a failed check, show its message and call nothing;
     * otherwise clear the message and call `changePassword` with the current
     * and the new password. The fields and the dialog are left as they are.
     */
    method ConfirmChange() returns (call: Option<AuthCall>)
      modifies this
      ensures passwordError == ValidateNewPassword(newPassword, confirmNewPassword)
      ensures call.Some? <==> passwordError.None?
      ensures call.Some? ==> call.value == ChangePasswordCall(currentPassword, newPassword)
      ensures call.Some? ==> |call.value.newPassword| >= MinPasswordLength && call.value.newPassword == confirmNewPassword
      ensures showChangePasswordDialog == old(showChangePasswordDialog)
      ensures currentPassword == old(currentPassword) && newPassword == old(newPassword)
      ensures confirmNewPassword == old(confirmNewPassword)
    {
      call := None;
      if |newPassword| < 6 {
        passwordError := Some(PasswordTooShort);
      } else if newPassword != confirmNewPassword {
        passwordError := Some(PasswordsDontMatch);
      } else {
        passwordError := None;
        call := Some(ChangePasswordCall(currentPassword, newPassword));
      }
    }

    /** The success callback passed to `changePassword`: reset the fields and close; the message is not touched. */
    method PasswordChanged()
      modifies this
      ensures !showChangePasswordDialog
      ensures currentPassword == "" && newPassword == "" && confirmNewPassword == ""
      ensures passwordError == old(passwordError)
    {
      showChangePasswordDialog := false;
      currentPassword := "";
      newPassword := "";
      confirmNewPassword := "";
    }

    /** Dismissing the dialog or pressing Cancel: reset the fields and the message, and close. */
    method CloseDialog()
      modifies this
      ensures !showChangePasswordDialog && passwordError.None?
      ensures currentPassword == "" && newPassword == "" && confirmNewPassword == ""
    {
      showChangePasswordDialog := false;
      currentPassword := "";
      newPassword := "";
      confirmNewPassword := "";
      passwordError := None;
    }
  }

  /**
   * A dialog that ends in success leaves the screen as a fresh one: the
   * check passed, so the message was cleared before the callback reset the
   * fields.
   */
  method ChangeSucceeds(screen: ProfileScreenState, current: string, replacement: string)
    requires |replacement| >= MinPasswordLength
    modifies screen
    ensures !screen.showChangePasswordDialog && screen.passwordError.None?
    ensures screen.currentPassword == "" && screen.newPassword == "" && screen.confirmNewPassword == ""
  {
    screen.OpenChangePassword();
    screen.EditFields(current, replacement, replacement);
    var call := screen.ConfirmChange();
    assert call == Some(ChangePasswordCall(current, replacement));
    screen.PasswordChanged();
  }
}

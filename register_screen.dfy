/**
 * The register screen: four text fields, the password-mismatch message kept
 * up to date as the two password fields are edited, and the Register button
 * with its enable rule.
 */
module RegisterScreen {
  import opened Wrappers
  import opened Primitives
  import opened AuthViewModel

  const PasswordsDontMatch: string := "Passwords don't match"

  /** The message for a password and its confirmation. */
  function MismatchError(password: string, confirmation: string): (r: Message)
    ensures r.Some? <==> password != confirmation
    ensures r.Some? ==> r.value == PasswordsDontMatch
  {
    if password != confirmation then Some(PasswordsDontMatch) else None
  }

  /** The Register button's enable rule. */
  predicate RegisterEnabled(isLoading: bool, email: string, password: string, displayName: string, confirmation: string) {
    !isLoading && email != "" && password != "" && displayName != "" && password == confirmation
  }

  class RegisterForm {
    var email: string
    var displayName: string
    var password: string
    var confirmPassword: string
    var passwordError: Message

    /**
     * Once a confirmation has been typed, the message is shown exactly when the
     * two fields differ. With an empty confirmation it may be stale.
     */
    ghost predicate Consistent()
      reads this
    {
      confirmPassword != "" ==> (passwordError.Some? <==> password != confirmPassword)
    }

    constructor ()
      ensures email == "" && displayName == "" && password == "" && confirmPassword == ""
      ensures passwordError.None?
      ensures Consistent()
    {
      email := "";
      displayName := "";
      password := "";
      confirmPassword := "";
      passwordError := None;
    }

    method EditEmail(value: string)
      requires Consistent()
      modifies this
      ensures Consistent()
      ensures email == value
      ensures displayName == old(displayName) && password == old(password)
      ensures confirmPassword == old(confirmPassword) && passwordError == old(passwordError)
    {
      email := value;
    }

    method EditDisplayName(value: string)
      requires Consistent()
      modifies this
      ensures Consistent()
      ensures displayName == value
      ensures email == old(email) && password == old(password)
      ensures confirmPassword == old(confirmPassword) && passwordError == old(passwordError)
    {
      displayName := value;
    }

    /** Editing the password re-checks the match only when a confirmation has been typed. */
    method EditPassword(value: string)
      requires Consistent()
      modifies this
      ensures Consistent()
      ensures password == value
      ensures confirmPassword != "" ==> passwordError == MismatchError(value, confirmPassword)
      ensures confirmPassword == "" ==> passwordError == old(passwordError)
      ensures email == old(email) && displayName == old(displayName) && confirmPassword == old(confirmPassword)
    {
      password := value;
      if confirmPassword != "" {
        passwordError := if password != confirmPassword then Some(PasswordsDontMatch) else None;
      }
    }

    /** Editing the confirmation always re-checks the match. */
    method EditConfirmation(value: string)
      requires Consistent()
      modifies this
      ensures Consistent()
      ensures confirmPassword == value
      ensures passwordError == MismatchError(password, value)
      ensures email == old(email) && displayName == old(displayName) && password == old(password)
    {
      confirmPassword := value;
      passwordError := if password != confirmPassword then Some(PasswordsDontMatch) else None;
    }

    /** The Register button, reachable only while enabled: call `register` with the fields as they are. */
    method Submit(isLoading: bool) returns (call: AuthCall)
      requires RegisterEnabled(isLoading, email, password, displayName, confirmPassword)
      ensures call == RegisterCall(email, password, displayName)
      ensures call.email != "" && call.password != "" && call.displayName != ""
      ensures call.password == confirmPassword
    {
      call := RegisterCall(email, password, displayName);
    }
  }

  /**
   * The message outlives its cause: type a matching confirmation, clear it,
   * then clear the password. Both fields are now empty and equal, yet
   * "Passwords don't match" is still shown (Register stays disabled because
   * the password is empty).
   */
  method StaleMismatchMessage() returns (form: RegisterForm)
    ensures form.password == form.confirmPassword == ""
    ensures form.passwordError == Some(PasswordsDontMatch)
    ensures !RegisterEnabled(false, form.email, form.password, form.displayName, form.confirmPassword)
  {
    form := new RegisterForm();
    form.EditPassword("secret1");
    form.EditConfirmation("secret1");
    form.EditConfirmation("");
    form.EditPassword("");
  }
}

/**
 * The authentication state machine (ui/screens/auth/AuthViewModel.kt). The
 * account service's answers (sign-up, sign-in, re-authentication, password
 * update) and the outcome of each remote read or write are inputs; the
 * profiles live under `users/{uid}` in the remote mirror.
 */
module AuthViewModel {
  import opened Wrappers
  import opened Primitives
  import opened Model
  import opened RemoteMirror

  datatype AuthState = AuthState(
    isLoggedIn: bool := false,
    user: Option<User> := None,
    isLoading: bool := false,
    error: Message := None)

  /** The signed-in account as the account service reports it. */
  datatype Account = Account(uid: string, email: Option<string>, displayName: Option<string>)

  const RegistrationFailed: string := "Registration failed"
  const LoginFailed: string := "Login failed"
  const PasswordChangeFailed: string := "Failed to change password"
  const NotAuthenticated: string := "User not authenticated"
  const FallbackDisplayName: string := "User"

  // ---------------------------------------------------------------------------
  // Profile resolution
  // ---------------------------------------------------------------------------

  /** A name taken from an email address: the part before the first '@', or all of it. */
  function LocalPart(email: string): (r: string)
    ensures r <= email && '@' !in r
    ensures |r| < |email| ==> email[|r|] == '@'
  {
    SubstringBefore(email, '@')
  }

  /** The local part is exactly the text before the first '@'. */
  lemma LocalPartAt(email: string, k: nat)
    requires k < |email| && email[k] == '@' && '@' !in email[..k]
    ensures LocalPart(email) == email[..k]
  {
    SubstringBeforeUnique(email, '@', email[..k]);
  }

  /** Without an '@' the whole address is the name. */
  lemma LocalPartWithoutAt(email: string)
    requires '@' !in email
    ensures LocalPart(email) == email
  {
  }

  /**
   * `init`: a stored profile is used only when it has a display name;
   * otherwise a profile is built from the account, naming the user after the
   * account's display name, else the email's local part, else "User".
   */
  function InitProfile(stored: Option<User>, account: Account): (r: User)
    ensures stored.Some? && stored.value.displayName != "" ==> r == stored.value
    ensures !(stored.Some? && stored.value.displayName != "") ==>
      && r.id == account.uid
      && r.email == account.email.GetOr("")
      && (account.displayName.Some? ==> r.displayName == account.displayName.value)
      && (account.displayName.None? && account.email.Some? ==> r.displayName == LocalPart(account.email.value))
      && (account.displayName.None? && account.email.None? ==> r.displayName == FallbackDisplayName)
  {
    if stored.Some? && stored.value.displayName != "" then stored.value
    else
      var name := if account.displayName.Some? then account.displayName.value
                  else if account.email.Some? then LocalPart(account.email.value)
                  else FallbackDisplayName;
      User(id := account.uid, email := account.email.GetOr(""), displayName := name)
  }

  /** `login`: any stored profile is used; otherwise one named after the typed email's local part. */
  function LoginProfile(stored: Option<User>, uid: string, email: string): (r: User)
    ensures stored.Some? ==> r == stored.value
    ensures stored.None? ==> r.id == uid && r.email == email && r.displayName == LocalPart(email)
  {
    stored.GetOr(User(id := uid, email := email, displayName := LocalPart(email)))
  }

  /**
   * The two rules disagree on a stored profile without a display name:
   * `init` rebuilds it from the account, `login` keeps the empty name.
   */
  lemma ProfileRulesDiffer()
    ensures var stored := User(id := "u1", email := "ann@example.org", displayName := "");
      && InitProfile(Some(stored), Account("u1", Some("ann@example.org"), None)).displayName == "ann"
      && LoginProfile(Some(stored), "u1", "ann@example.org").displayName == ""
  {
    LocalPartAt("ann@example.org", 3);
  }

  /** Both rules agree whenever the stored profile has a display name, and whenever there is none and the account only knows the email. */
  lemma ProfileRulesAgree(stored: Option<User>, uid: string, email: string)
    requires stored.None? || stored.value.displayName != ""
    ensures InitProfile(stored, Account(uid, Some(email), None)) == LoginProfile(stored, uid, email)
  {
  }

  /** What `getValue(User::class.java)` yields for the node read, given that it converts. */
  function StoredProfile(node: Option<RemoteNode>): (r: Option<User>)
    requires node.Some? ==> UserFromNode(node.value).Some?
    ensures r.None? <==> node.None?
  {
    if node.None? then None else UserFromNode(node.value)
  }

  /** Every profile stored in the mirror converts back to a User. */
  ghost predicate ProfilesConvert(nodes: map<Path, RemoteNode>) {
    forall p :: p in nodes && p.collection == Users ==> UserFromNode(nodes[p]).Some?
  }

  /** The message a failure shows: the exception's, else the operation's fallback. */
  function FailureMessage(m: Message, fallback: string): (r: Message)
    ensures r.Some?
    ensures m.Some? ==> r == m
    ensures m.None? ==> r == Some(fallback)
  {
    Some(m.GetOr(fallback))
  }

  // ---------------------------------------------------------------------------
  // The session
  // ---------------------------------------------------------------------------

  datatype AuthEvent =
    | Published(state: AuthState)
    | ProfileWritten(uid: string)
    | SuccessCallback

  /** A call a screen makes on the session, with the arguments it passes. */
  datatype AuthCall =
    | RegisterCall(email: string, password: string, displayName: string)
    | ChangePasswordCall(currentPassword: string, newPassword: string)
    | SignOutCall

  class AuthSession {
    const remote: Mirror
    /** `auth.currentUser`. */
    var currentUser: Option<Account>
    var state: AuthState
    ghost var trace: seq<AuthEvent>

    ghost predicate Valid()
      reads this, remote
    {
      ProfilesConvert(remote.nodes)
    }

    /** `_authState.update { ... }`. */
    method Publish(s: AuthState)
      modifies this
      ensures state == s && currentUser == old(currentUser)
      ensures trace == old(trace) + [Published(s)]
    {
      state := s;
      trace := trace + [Published(s)];
    }

    /**
     * `init`: with an account signed in, read its stored profile and resolve
     * the user; without one the state stays the default.
     */
    constructor (remote: Mirror, currentUser: Option<Account>, readOutcome: Outcome<Message>)
      requires ProfilesConvert(remote.nodes)
      requires currentUser.Some? ==> currentUser.value.uid != ""
      ensures Valid()
      ensures this.remote == remote && this.currentUser == currentUser
      ensures currentUser.None? ==> state == AuthState() && trace == []
      ensures currentUser.Some? && readOutcome.Fail? ==>
        && state == AuthState(error := readOutcome.error)
        && trace == [Published(AuthState(isLoading := true))] + [Published(state)]
      ensures currentUser.Some? && readOutcome.Pass? ==>
        var stored := StoredProfile(remote.Get(Path(Users, currentUser.value.uid)));
        && state == AuthState(isLoggedIn := true, user := Some(InitProfile(stored, currentUser.value)))
        && trace == [Published(AuthState(isLoading := true))] + [Published(state)]
    {
      this.remote := remote;
      this.currentUser := currentUser;
      state := AuthState();
      trace := [];
      new;
      if currentUser.Some? {
        Publish(state.(isLoading := true));
        if readOutcome.Fail? {
          Publish(state.(error := readOutcome.error, isLoading := false));
        } else {
          var stored := StoredProfile(remote.Get(Path(Users, currentUser.value.uid)));
          Publish(state.(isLoggedIn := true, user := Some(InitProfile(stored, currentUser.value)), isLoading := false));
        }
      }
    }

    /**
     * `register`: create the account, store its profile, then publish the
     * signed-in state and only then call `onSuccess`. When the service
     * returns no user nothing follows and `isLoading` stays set.
     */
    method Register(email: string, password: string, displayName: string,
                    signUp: Result<Option<string>, Message>, writeOutcome: Outcome<Message>)
      requires Valid()
      requires signUp.Success? && signUp.value.Some? ==> signUp.value.value != ""
      modifies this, remote
      ensures Valid()
      ensures var loading := old(state).(isLoading := true, error := None);
        && (signUp.Failure? ==>
              && currentUser == old(currentUser) && remote.nodes == old(remote.nodes)
              && state == loading.(error := FailureMessage(signUp.error, RegistrationFailed), isLoading := false)
              && trace == old(trace) + [Published(loading)] + [Published(state)])
        && (signUp == Success(None) ==>
              && currentUser == old(currentUser) && remote.nodes == old(remote.nodes)
              && state == loading
              && trace == old(trace) + [Published(loading)])
      ensures var loading := old(state).(isLoading := true, error := None);
        signUp.Success? && signUp.value.Some? ==>
          var uid := signUp.value.value;
          var user := User(id := uid, email := email, displayName := displayName);
          && currentUser == Some(Account(uid, Some(email), None))
          && (writeOutcome.Fail? ==>
                && remote.nodes == old(remote.nodes)
                && state == loading.(error := FailureMessage(writeOutcome.error, RegistrationFailed), isLoading := false)
                && trace == old(trace) + [Published(loading)] + [Published(state)])
          && (writeOutcome.Pass? ==>
                && remote.nodes == old(remote.nodes)[Path(Users, uid) := UserToNode(user)]
                && state == loading.(isLoggedIn := true, user := Some(user), isLoading := false)
                && trace == old(trace) + [Published(loading)] + [ProfileWritten(uid)]
                                       + [Published(state)] + [SuccessCallback])
    {
      Publish(state.(isLoading := true, error := None));
      if signUp.Failure? {
        Publish(state.(error := FailureMessage(signUp.error, RegistrationFailed), isLoading := false));
        return;
      }
      if signUp.value.None? {
        return;
      }
      var uid := signUp.value.value;
      currentUser := Some(Account(uid, Some(email), None));
      var user := User(id := uid, email := email, displayName := displayName);
      UserRoundTrip(user);
      remote.SetValue(Path(Users, uid), UserToNode(user), writeOutcome);
      if writeOutcome.Fail? {
        Publish(state.(error := FailureMessage(writeOutcome.error, RegistrationFailed), isLoading := false));
        return;
      }
      trace := trace + [ProfileWritten(uid)];
      Publish(state.(isLoggedIn := true, user := Some(user), isLoading := false));
      trace := trace + [SuccessCallback];
    }

    /**
     * `login`: sign in, read the stored profile, publish the signed-in
     * state, then call `onSuccess`.
     */
    method Login(email: string, password: string,
                 signIn: Result<Option<Account>, Message>, readOutcome: Outcome<Message>)
      requires Valid()
      requires signIn.Success? && signIn.value.Some? ==> signIn.value.value.uid != ""
      modifies this
      ensures Valid()
      ensures var loading := old(state).(isLoading := true, error := None);
        && (signIn.Failure? ==>
              && currentUser == old(currentUser)
              && state == loading.(error := FailureMessage(signIn.error, LoginFailed), isLoading := false)
              && trace == old(trace) + [Published(loading)] + [Published(state)])
        && (signIn == Success(None) ==>
              && currentUser == old(currentUser)
              && state == loading
              && trace == old(trace) + [Published(loading)])
      ensures var loading := old(state).(isLoading := true, error := None);
        signIn.Success? && signIn.value.Some? ==>
          var account := signIn.value.value;
          && currentUser == Some(account)
          && (readOutcome.Fail? ==>
                && state == loading.(error := FailureMessage(readOutcome.error, LoginFailed), isLoading := false)
                && trace == old(trace) + [Published(loading)] + [Published(state)])
          && (readOutcome.Pass? ==>
                var stored := StoredProfile(remote.Get(Path(Users, account.uid)));
                && state == loading.(isLoggedIn := true, user := Some(LoginProfile(stored, account.uid, email)),
                                     isLoading := false)
                && trace == old(trace) + [Published(loading)] + [Published(state)] + [SuccessCallback])
    {
      Publish(state.(isLoading := true, error := None));
      if signIn.Failure? {
        Publish(state.(error := FailureMessage(signIn.error, LoginFailed), isLoading := false));
        return;
      }
      if signIn.value.None? {
        return;
      }
      var account := signIn.value.value;
      currentUser := Some(account);
      if readOutcome.Fail? {
        Publish(state.(error := FailureMessage(readOutcome.error, LoginFailed), isLoading := false));
        return;
      }
      var stored := StoredProfile(remote.Get(Path(Users, account.uid)));
      Publish(state.(isLoggedIn := true, user := Some(LoginProfile(stored, account.uid, email)), isLoading := false));
      trace := trace + [SuccessCallback];
    }

    /** `signOut`: clear the error, sign out, and end signed out and not loading. */
    method SignOut()
      modifies this
      ensures currentUser.None?
      ensures state == old(state).(isLoggedIn := false, user := None, isLoading := false, error := None)
      ensures trace == old(trace) + [Published(old(state).(isLoading := true, error := None))] + [Published(state)]
    {
      Publish(state.(isLoading := true, error := None));
      currentUser := None;
      Publish(state.(isLoggedIn := false, user := None, isLoading := false));
    }

    /**
     * `changePassword`: needs a signed-in account with an email; then
     * re-authenticate and update the password, each of which may fail.
     */
    method ChangePassword(currentPassword: string, newPassword: string,
                          reauthenticate: Outcome<Message>, update: Outcome<Message>)
      modifies this
      ensures currentUser == old(currentUser)
      ensures var loading := old(state).(isLoading := true, error := None);
        && (old(currentUser).None? || old(currentUser).value.email.None? ==>
              && state == loading.(error := Some(NotAuthenticated), isLoading := false)
              && trace == old(trace) + [Published(loading)] + [Published(state)])
        && (old(currentUser).Some? && old(currentUser).value.email.Some? ==>
              && (reauthenticate.Fail? ==>
                    && state == loading.(error := FailureMessage(reauthenticate.error, PasswordChangeFailed),
                                         isLoading := false)
                    && trace == old(trace) + [Published(loading)] + [Published(state)])
              && (reauthenticate.Pass? && update.Fail? ==>
                    && state == loading.(error := FailureMessage(update.error, PasswordChangeFailed),
                                         isLoading := false)
                    && trace == old(trace) + [Published(loading)] + [Published(state)])
              && (reauthenticate.Pass? && update.Pass? ==>
                    && state == loading.(isLoading := false, error := None)
                    && trace == old(trace) + [Published(loading)] + [Published(state)] + [SuccessCallback]))
    {
      Publish(state.(isLoading := true, error := None));
      if currentUser.None? || currentUser.value.email.None? {
        Publish(state.(error := Some(NotAuthenticated), isLoading := false));
        return;
      }
      if reauthenticate.Fail? {
        Publish(state.(error := FailureMessage(reauthenticate.error, PasswordChangeFailed), isLoading := false));
        return;
      }
      if update.Fail? {
        Publish(state.(error := FailureMessage(update.error, PasswordChangeFailed), isLoading := false));
        return;
      }
      Publish(state.(isLoading := false, error := None));
      trace := trace + [SuccessCallback];
    }
  }
}

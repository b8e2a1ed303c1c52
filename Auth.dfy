/**
 * The session store: who is signed in (`user`), whether a session action is
 * in progress (`loading`) and the message to show (`error`), with the five
 * actions that change them. Every backend call is replaced by its reply,
 * passed in as a parameter and consulted only where the store makes the call.
 */
module Auth {
  import opened Wrappers

  /** A profile row of the `users` table. */
  datatype User = User(id: string, email: string, role: string)

  const AdminRole := "admin"
  const UserRole := "user"

  /** `user?.role === 'admin'`: a signed-in user whose role is exactly "admin". */
  predicate IsAdmin(user: Option<User>)
    ensures IsAdmin(user) ==> user.Some?
    ensures user.Some? ==> (IsAdmin(user) <==> user.value.role == AdminRole)
  {
    user.Some? && user.value.role == AdminRole
  }

  /** The account the authentication service reports (only its id is used). */
  datatype AuthUser = AuthUser(id: string)

  /** An error object; the empty message stands for a missing or empty `message`. */
  datatype BackendError = BackendError(message: string)

  /**
   * The reply of one backend call: either the promise resolves with a
   * `{ data, error }` pair, or it rejects with a thrown error.
   */
  datatype Reply<T> =
    | Resolved(data: Option<T>, error: Option<BackendError>)
    | Rejected(thrown: BackendError)

  /**
   * What `await` followed by `if (error) throw error` raises: the rejection,
   * or the error field of a resolved reply.
   */
  function Raised<T>(r: Reply<T>): (e: Option<BackendError>)
    ensures r.Rejected? ==> e == Some(r.thrown)
    ensures r.Resolved? ==> e == r.error
  {
    match r
    case Rejected(e) => Some(e)
    case Resolved(_, err) => err
  }

  /** The call neither rejected nor returned an error. */
  predicate Succeeds<T>(r: Reply<T>)
    ensures Succeeds(r) <==> r.Resolved? && r.error.None?
  {
    Raised(r).None?
  }

  /** How an action ends: normally, or by rethrowing the error it caught. */
  datatype Outcome = Completed | Threw(thrown: BackendError)

  const InvalidCredentials := "Invalid email or password"
  const ProfileNotFound := "User profile not found"
  const AuthenticationRequired := "Authentication required"
  const UnauthorizedAdmin := "Unauthorized to create admin accounts"
  const CreateAccountFailed := "Failed to create account"
  const SignOutFailed := "Failed to sign out"
  const InitializeFailed := "Failed to initialize session"

  /** `error.message || 'Failed to create account'`. */
  function SignUpMessage(e: BackendError): (m: string)
    ensures m != ""
    ensures e.message != "" ==> m == e.message
    ensures e.message == "" ==> m == CreateAccountFailed
  {
    if e.message == "" then CreateAccountFailed else e.message
  }

  /** The sign-in replies that end in the catch block. */
  predicate SignInFails(auth: Reply<AuthUser>, profile: Reply<User>)
  {
    !Succeeds(auth) || (auth.data.Some? && (!Succeeds(profile) || profile.data.None?))
  }

  /** The checks that guard admin account creation both pass. */
  predicate CallerIsAdmin(current: Reply<AuthUser>, adminCheck: Reply<string>)
    ensures CallerIsAdmin(current, adminCheck) ==> current.Resolved? && current.data.Some?
    ensures CallerIsAdmin(current, adminCheck) ==> adminCheck.Resolved? && adminCheck.data == Some(AdminRole)
  {
    current.Resolved? && current.data.Some? &&
    adminCheck.Resolved? && adminCheck.data == Some(AdminRole)
  }

  /** The role written for a new account. */
  function NewAccountRole(isAdmin: bool): (role: string)
    ensures role == AdminRole <==> isAdmin
  {
    if isAdmin then AdminRole else UserRole
  }

  class AuthStore {
    var user: Option<User>
    var loading: bool
    var error: Option<string>

    /**
     * An error is only ever shown once the action that raised it has finished:
     * every action leaves the store in such a state.
     */
    ghost predicate ErrorOnlyWhenIdle()
      reads this
    {
      error.Some? ==> !loading
    }

    /** The initial state: nobody signed in, loading until `initialize` runs. */
    constructor ()
      ensures ErrorOnlyWhenIdle()
      ensures user == None && loading && error == None
    {
      user := None;
      loading := true;
      error := None;
    }

    method ClearError()
      modifies this
      ensures ErrorOnlyWhenIdle()
      ensures error == None
      ensures user == old(user) && loading == old(loading)
    {
      error := None;
    }

    /**
     * Password sign-in, then the profile fetch for the signed-in account.
     * `auth` is the sign-in reply, `profile` the reply of the profile query.
     */
    method SignIn(auth: Reply<AuthUser>, profile: Reply<User>) returns (outcome: Outcome)
      modifies this
      ensures ErrorOnlyWhenIdle()
      // every failure: error shown, loading over, user untouched, error rethrown
      ensures outcome.Threw? <==> SignInFails(auth, profile)
      ensures outcome.Threw? ==> user == old(user) && !loading && error == Some(InvalidCredentials)
      ensures !Succeeds(auth) ==> outcome == Threw(Raised(auth).value)
      ensures Succeeds(auth) && auth.data.Some? && !Succeeds(profile) ==>
        outcome == Threw(Raised(profile).value)
      ensures Succeeds(auth) && auth.data.Some? && Succeeds(profile) && profile.data.None? ==>
        outcome == Threw(BackendError(ProfileNotFound))
      // success with a profile
      ensures Succeeds(auth) && auth.data.Some? && Succeeds(profile) && profile.data.Some? ==>
        user == profile.data && !loading && error == None
      // neither user nor error from the sign-in call: loading is never reset
      ensures Succeeds(auth) && auth.data.None? ==> user == old(user) && loading && error == None
      ensures user != old(user) ==> outcome.Completed? && user == profile.data
    {
      loading, error := true, None;
      var raised: Option<BackendError> := None;
      if !Succeeds(auth) {
        raised := Raised(auth);
      } else if auth.data.Some? {
        if !Succeeds(profile) {
          raised := Raised(profile);
        } else if profile.data.Some? {
          user, loading := profile.data, false;
        } else {
          raised := Some(BackendError(ProfileNotFound));
        }
      }
      if raised.Some? {
        error, loading := Some(InvalidCredentials), false;
        outcome := Threw(raised.value);
      } else {
        outcome := Completed;
      }
    }

    /**
     * Account creation. With `isAdmin`, the caller must first be signed in
     * (`current`, the reply of the current-user query) and hold the admin role
     * (`adminCheck`, the role the `users` table reports for that account).
     * `auth` is the reply of the account creation, `insert` the reply of the
     * profile insert; `written` is the profile row the store sent to the insert.
     */
    method SignUp(email: string, isAdmin: bool, current: Reply<AuthUser>, adminCheck: Reply<string>,
                  auth: Reply<AuthUser>, insert: Reply<User>)
      returns (outcome: Outcome, written: Option<User>)
      modifies this
      ensures ErrorOnlyWhenIdle()
      // the authorization rule: no admin row without a signed-in admin caller
      ensures written.Some? && written.value.role == AdminRole ==> isAdmin && CallerIsAdmin(current, adminCheck)
      ensures isAdmin && current.Rejected? ==> outcome == Threw(current.thrown) && written == None
      ensures isAdmin && current.Resolved? && current.data.None? ==>
        outcome == Threw(BackendError(AuthenticationRequired)) && written == None
      ensures isAdmin && current.Resolved? && current.data.Some? && adminCheck.Rejected? ==>
        outcome == Threw(adminCheck.thrown) && written == None
      ensures isAdmin && current.Resolved? && current.data.Some? &&
              adminCheck.Resolved? && adminCheck.data != Some(AdminRole) ==>
        outcome == Threw(BackendError(UnauthorizedAdmin)) && written == None
      // the row written for a created account
      ensures written.Some? <==> (!isAdmin || CallerIsAdmin(current, adminCheck)) && Succeeds(auth) && auth.data.Some?
      ensures written.Some? ==>
        written.value == User(auth.data.value.id, email, NewAccountRole(isAdmin))
      // failure: the message shown, loading over, user untouched, error rethrown
      ensures outcome.Threw? ==> user == old(user) && !loading && error == Some(SignUpMessage(outcome.thrown))
      ensures written.None? && (!isAdmin || CallerIsAdmin(current, adminCheck)) ==>
        if Succeeds(auth) then outcome == Completed && user == old(user) && loading && error == None
        else outcome == Threw(Raised(auth).value)
      ensures written.Some? && !Succeeds(insert) ==> outcome == Threw(Raised(insert).value)
      // success: the store's user becomes the new profile
      ensures written.Some? && Succeeds(insert) ==>
        outcome == Completed && error == None &&
        if insert.data.Some? then user == insert.data && !loading else user == old(user) && loading
    {
      loading, error := true, None;
      written := None;
      var raised: Option<BackendError> := None;
      if isAdmin {
        if current.Rejected? {
          raised := Some(current.thrown);
        } else if current.data.None? {
          raised := Some(BackendError(AuthenticationRequired));
        } else if adminCheck.Rejected? {
          raised := Some(adminCheck.thrown);
        } else if adminCheck.data != Some(AdminRole) {
          raised := Some(BackendError(UnauthorizedAdmin));
        }
      }
      if raised.None? {
        if !Succeeds(auth) {
          raised := Raised(auth);
        } else if auth.data.Some? {
          written := Some(User(auth.data.value.id, email, NewAccountRole(isAdmin)));
          if !Succeeds(insert) {
            raised := Raised(insert);
          } else if insert.data.Some? {
            user, loading := insert.data, false;
          }
        }
      }
      if raised.Some? {
        error, loading := Some(SignUpMessage(raised.value)), false;
        outcome := Threw(raised.value);
      } else {
        outcome := Completed;
      }
    }

    /**
     * Sign-out. Only a rejected call fails: an error field in a resolved
     * reply is not inspected.
     */
    method SignOut(reply: Reply<()>) returns (outcome: Outcome)
      modifies this
      ensures ErrorOnlyWhenIdle()
      ensures reply.Resolved? ==> outcome == Completed && user == None && !loading && error == None
      ensures reply.Rejected? ==>
        outcome == Threw(reply.thrown) && user == old(user) && !loading && error == Some(SignOutFailed)
    {
      loading, error := true, None;
      if reply.Rejected? {
        error, loading := Some(SignOutFailed), false;
        outcome := Threw(reply.thrown);
      } else {
        user, loading := None, false;
        outcome := Completed;
      }
    }

    /**
     * Session restore at start-up: `session` is the reply of the session
     * query (its error field is not inspected), `profile` the reply of the
     * profile query for the session's account. Errors are not rethrown.
     */
    method Initialize(session: Reply<AuthUser>, profile: Reply<User>)
      modifies this
      ensures ErrorOnlyWhenIdle()
      ensures !loading
      ensures session.Rejected? ==> user == old(user) && error == Some(InitializeFailed)
      ensures session.Resolved? && session.data.None? ==> user == old(user) && error == old(error)
      ensures session.Resolved? && session.data.Some? && !Succeeds(profile) ==>
        user == old(user) && error == Some(InitializeFailed)
      ensures session.Resolved? && session.data.Some? && Succeeds(profile) ==>
        error == old(error) && user == (if profile.data.Some? then profile.data else old(user))
    {
      var failed := false;
      if session.Rejected? {
        failed := true;
      } else if session.data.Some? {
        if !Succeeds(profile) {
          failed := true;
        } else if profile.data.Some? {
          user := profile.data;
        }
      }
      if failed {
        error := Some(InitializeFailed);
      }
      loading := false;
    }
  }
}

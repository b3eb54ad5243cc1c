/** The session manager (src/stores/auth.ts): who is signed in, and whether
    the first session lookup has settled. Calls into the backend's auth
    subsystem are modelled by their replies, passed in as parameters. */
module Auth {
  import opened Wrappers
  import opened Records

  /** The backend's user; this layer reads it and never changes it. */
  datatype User = User(id: UserId, email: string)

  datatype Session = Session(user: User)

  /** What sign-up and sign-in resolve to. */
  datatype AuthData = AuthData(user: Option<User>, session: Option<Session>)

  /** The metadata attached to a new account. */
  datatype UserMetadata = UserMetadata(username: string)

  /** The requests this layer sends to the auth subsystem. */
  datatype AuthRequest =
    | SignUpWith(email: string, password: string, metadata: UserMetadata)
    | SignInWithPassword(email: string, password: string)
    | SignOutSession

  /** `session?.user ?? null`. */
  function SessionUser(session: Option<Session>): (u: Option<User>)
    ensures u.Some? <==> session.Some?
    ensures session.Some? ==> u.value == session.value.user
  {
    match session
    case None => None
    case Some(s) => Some(s.user)
  }

  class SessionManager {
    var user: Option<User>
    var loading: bool
    /** How many auth-change callbacks `initialize` has registered. */
    var listeners: nat

    constructor ()
      ensures user == None && loading && listeners == 0
    {
      user := None;
      loading := true;
      listeners := 0;
    }

    /** `isAuthenticated`. */
    predicate IsAuthenticated()
      reads this
      ensures IsAuthenticated() <==> user.Some?
    {
      user.Some?
    }

    /** `initialize`: takes the user from the current session (or none) and
        registers the auth-change callback; when the session lookup throws,
        the error is swallowed, the user is left as it was and nothing is
        registered. Either way `loading` ends false. */
    method Initialize(fetched: Result<Option<Session>, Error>)
      modifies this
      ensures !loading
      ensures fetched.Ok? ==> user == SessionUser(fetched.value) && listeners == old(listeners) + 1
      ensures fetched.Err? ==> user == old(user) && listeners == old(listeners)
    {
      if fetched.Ok? {
        user := SessionUser(fetched.value);
        listeners := listeners + 1;
      }
      loading := false;
    }

    /** The backend reports a session change: each registered callback sets
        the user to that session's user (or none), whatever it was before.
        With no callback registered the store does not hear of it. */
    method AuthStateChanged(session: Option<Session>)
      modifies this`user
      ensures listeners > 0 ==> user == SessionUser(session)
      ensures listeners == 0 ==> user == old(user)
    {
      if listeners > 0 {
        user := SessionUser(session);
      }
    }

    /** `signUp`: sends the credentials with the username as user metadata;
        throws exactly the backend's error. It changes no state: the user is
        set by the auth-change callback. */
    method SignUp(email: string, password: string, username: string, reply: Result<AuthData, Error>)
      returns (r: Result<AuthData, Error>, sent: AuthRequest)
      ensures sent == SignUpWith(email, password, UserMetadata(username))
      ensures r == reply
    {
      sent := SignUpWith(email, password, UserMetadata(username));
      r := reply;
    }

    /** `signIn`: throws exactly the backend's error; changes no state. */
    method SignIn(email: string, password: string, reply: Result<AuthData, Error>)
      returns (r: Result<AuthData, Error>, sent: AuthRequest)
      ensures sent == SignInWithPassword(email, password)
      ensures r == reply
    {
      sent := SignInWithPassword(email, password);
      r := reply;
    }

    /** `signOut`: throws exactly the backend's error; changes no state. */
    method SignOut(reply: Outcome<Error>) returns (r: Outcome<Error>, sent: AuthRequest)
      ensures sent == SignOutSession
      ensures r == reply
    {
      sent := SignOutSession;
      r := reply;
    }
  }
}

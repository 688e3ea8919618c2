/** The signed-in state the app publishes and the transitions that update it
    (utdisa/Utilities/AuthManager.swift). Each asynchronous handler is one
    atomic transition; what the backend answered is passed in. */
module Auth {
  import opened Base
  import opened Backend

  /** The session user: `emailConfirmedAt` is present once the address is confirmed. */
  datatype User = User(id: Uuid, email: Option<string>, emailConfirmedAt: Option<Date>)

  /** A `profiles` row as decoded; `None` where the lookup or the decoding failed. */
  datatype Profile = Profile(user_id: string, full_name: Option<string>)

  /** What `client.auth.session` produced. */
  datatype SessionFetch = SessionFound(user: User) | SessionFailed(description: string)

  /** What sign-in or sign-up produced: the session's user, or the error text. */
  datatype AuthResult = Authenticated(user: User) | AuthFailed(description: string)

  /** What sign-out produced. */
  datatype Outcome = Done | Failed(description: string)

  /** The four published fields. */
  datatype SessionState = SessionState(
    isLoggedIn: bool, userEmail: Option<string>, isVerified: bool, displayName: Option<string>)

  const LOGGED_OUT := SessionState(false, None, false, None)

  /** Nothing is known about a user unless someone is logged in. */
  predicate Consistent(s: SessionState) {
    && (s.isVerified ==> s.isLoggedIn)
    && (s.displayName.Some? ==> s.isLoggedIn)
    && (s.userEmail.Some? ==> s.isLoggedIn)
  }

  /** `profile?.full_name`. */
  function DisplayName(profile: Option<Profile>): (r: Option<string>)
    ensures r.Some? <==> profile.Some? && profile.value.full_name.Some?
  {
    if profile.Some? then profile.value.full_name else None
  }

  /** The state `refreshSession` publishes. */
  function AfterRefresh(session: SessionFetch, profile: Option<Profile>): (s: SessionState)
    ensures Consistent(s)
    ensures s.isLoggedIn <==> session.SessionFound? && session.user.email.Some?
    ensures !s.isLoggedIn ==> s == LOGGED_OUT
    ensures s.isLoggedIn ==>
      && s.userEmail == session.user.email
      && (s.isVerified <==> session.user.emailConfirmedAt.Some?)
      && s.displayName == DisplayName(profile)
  {
    match session
    case SessionFound(user) =>
      if user.email.Some? then
        SessionState(true, user.email, user.emailConfirmedAt != None, DisplayName(profile))
      else
        LOGGED_OUT
    case SessionFailed(_) => LOGGED_OUT
  }

  /** The state a successful `login` publishes after its refresh: the signed-in
      user's fields, even when that user has no email. */
  function SignedInAs(user: User, profile: Option<Profile>): (s: SessionState)
    ensures Consistent(s) && s.isLoggedIn
    ensures s.userEmail == user.email && (s.isVerified <==> user.emailConfirmedAt.Some?)
    ensures s.displayName == DisplayName(profile)
  {
    SessionState(true, user.email, user.emailConfirmedAt != None, DisplayName(profile))
  }

  /** One handler run, with everything the backend answered during it. */
  datatype AuthEvent =
    | Refreshed(session: SessionFetch, profile: Option<Profile>)
    | LoggedIn(signIn: AuthResult, signInProfile: Option<Profile>, session: SessionFetch, profile: Option<Profile>)
    | LoggedOut(signOut: Outcome, session: SessionFetch, profile: Option<Profile>)
    | Registered(signUp: AuthResult, session: SessionFetch, profile: Option<Profile>)

  /** The published state after one handler run. */
  function Step(s: SessionState, e: AuthEvent): SessionState {
    match e
    case Refreshed(session, profile) => AfterRefresh(session, profile)
    case LoggedIn(signIn, signInProfile, _, _) =>
      if signIn.Authenticated? then SignedInAs(signIn.user, signInProfile) else s
    case LoggedOut(_, session, profile) => AfterRefresh(session, profile)
    case Registered(signUp, session, profile) =>
      if signUp.Authenticated? then AfterRefresh(session, profile) else s
  }

  /** The published state after a sequence of handler runs. */
  function Run(s: SessionState, events: seq<AuthEvent>): SessionState
    decreases |events|
  {
    if events == [] then s else Run(Step(s, events[0]), events[1..])
  }

  /** Every handler keeps the consistency invariant. */
  lemma StepKeepsConsistent(s: SessionState, e: AuthEvent)
    requires Consistent(s)
    ensures Consistent(Step(s, e))
  {
  }

  /** From the initial logged-out state, any sequence of handler runs leaves
      `isVerified`, `userEmail` and `displayName` set only while logged in. */
  lemma {:induction false} RunKeepsConsistent(s: SessionState, events: seq<AuthEvent>)
    requires Consistent(s)
    ensures Consistent(Run(s, events))
    decreases |events|
  {
    if events != [] {
      StepKeepsConsistent(s, events[0]);
      RunKeepsConsistent(Step(s, events[0]), events[1..]);
    }
  }

  lemma ReachableStatesConsistent(events: seq<AuthEvent>)
    ensures Consistent(Run(LOGGED_OUT, events))
  {
    RunKeepsConsistent(LOGGED_OUT, events);
  }

  /** Logout's end state depends only on the refresh that follows sign-out, not
      on whether sign-out succeeded; with no session left it is logged out. */
  lemma LogoutEndsInRefresh(s: SessionState, a: Outcome, b: Outcome, session: SessionFetch, profile: Option<Profile>)
    ensures Step(s, LoggedOut(a, session, profile)) == Step(s, LoggedOut(b, session, profile))
    ensures session.SessionFailed? ==> Step(s, LoggedOut(a, session, profile)) == LOGGED_OUT
  {
  }

  /** A failed login or registration changes nothing; a successful login is
      decided by the signed-in user alone, whatever its refresh saw. */
  lemma FailedAuthChangesNothing(
    s: SessionState, signIn: AuthResult, p: Option<Profile>,
    s1: SessionFetch, p1: Option<Profile>, s2: SessionFetch, p2: Option<Profile>)
    ensures signIn.AuthFailed? ==> Step(s, LoggedIn(signIn, p, s1, p1)) == s
    ensures signIn.AuthFailed? ==> Step(s, Registered(signIn, s1, p1)) == s
    ensures Step(s, LoggedIn(signIn, p, s1, p1)) == Step(s, LoggedIn(signIn, p, s2, p2))
  {
  }

  class AuthManager {
    var isLoggedIn: bool
    var userEmail: Option<string>
    var isVerified: bool
    var displayName: Option<string>
    const client: Client

    function State(): SessionState
      reads this
    {
      SessionState(isLoggedIn, userEmail, isVerified, displayName)
    }

    /** `init()` starts logged out; the refresh it schedules is a separate
        `RefreshSession` step. */
    constructor (client: Client)
      ensures State() == LOGGED_OUT && this.client == client
    {
      isLoggedIn := false;
      userEmail := None;
      isVerified := false;
      displayName := None;
      this.client := client;
    }

    method RefreshSession(session: SessionFetch, profile: Option<Profile>)
      modifies this
      ensures State() == Step(old(State()), Refreshed(session, profile))
      ensures State() == AfterRefresh(session, profile)
    {
      match session {
        case SessionFound(user) =>
          if user.email.Some? {
            var email := user.email.value;
            isLoggedIn := true;
            userEmail := Some(email);
            isVerified := user.emailConfirmedAt != None;
            displayName := DisplayName(profile);
          } else {
            isLoggedIn := false;
            userEmail := None;
            isVerified := false;
            displayName := None;
          }
        case SessionFailed(_) =>
          isLoggedIn := false;
          userEmail := None;
          isVerified := false;
          displayName := None;
      }
    }

    /** Sign-out is attempted, then the session is refreshed on both paths. */
    method Logout(signOut: Outcome, session: SessionFetch, profile: Option<Profile>)
      modifies this, client
      ensures client.sent == old(client.sent) + [SignOut]
      ensures State() == Step(old(State()), LoggedOut(signOut, session, profile))
      ensures State() == AfterRefresh(session, profile)
    {
      client.Send(SignOut);
      match signOut {
        case Done => RefreshSession(session, profile);
        case Failed(_) => RefreshSession(session, profile);
      }
    }

    /** On success the signed-in user's fields override what the refresh
        published, and `nil` is reported; on failure the error text is reported
        and nothing changes. */
    method Login(
      email: string, password: string, signIn: AuthResult, signInProfile: Option<Profile>,
      session: SessionFetch, profile: Option<Profile>)
      returns (error: Option<string>)
      modifies this, client
      ensures client.sent == old(client.sent) + [SignIn(email, password)]
      ensures State() == Step(old(State()), LoggedIn(signIn, signInProfile, session, profile))
      ensures signIn.Authenticated? ==> error == None && State() == SignedInAs(signIn.user, signInProfile)
      ensures signIn.AuthFailed? ==> error == Some(signIn.description) && State() == old(State())
    {
      client.Send(SignIn(email, password));
      match signIn {
        case Authenticated(user) =>
          RefreshSession(session, profile);
          isLoggedIn := true;
          userEmail := user.email;
          isVerified := user.emailConfirmedAt != None;
          displayName := DisplayName(signInProfile);
          error := None;
        case AuthFailed(description) =>
          error := Some(description);
      }
    }

    /** On success the session is refreshed and `nil` reported; on failure the
        error text is reported and nothing changes. */
    method Register(
      email: string, password: string, signUp: AuthResult, session: SessionFetch, profile: Option<Profile>)
      returns (error: Option<string>)
      modifies this, client
      ensures client.sent == old(client.sent) + [SignUp(email, password)]
      ensures State() == Step(old(State()), Registered(signUp, session, profile))
      ensures signUp.Authenticated? ==> error == None && State() == AfterRefresh(session, profile)
      ensures signUp.AuthFailed? ==> error == Some(signUp.description) && State() == old(State())
    {
      client.Send(SignUp(email, password));
      match signUp {
        case Authenticated(_) =>
          RefreshSession(session, profile);
          error := None;
        case AuthFailed(description) =>
          error := Some(description);
      }
    }
  }
}

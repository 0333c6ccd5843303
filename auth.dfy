/**
  The authentication session: `isLoading`, the current `user` and the one stored token
  (the storage slot "auth_token"). The transitions are written twice: as functions on
  a `Session` value, which the lemmas reason about, and as the methods of
  `AuthProvider`, which update the three fields step by step as the provider does and
  are proved to end in the state those functions give. Every network and storage
  outcome is a parameter.
 */
module Auth {
  import opened Wrappers

  datatype User = User(id: int, username: string)

  /** The login response; only `access_token` is used. */
  datatype AuthResponse = AuthResponse(accessToken: string, tokenType: Option<string>)

  datatype Session = Session(isLoading: bool, user: Option<User>, token: Option<string>)

  /**
    The result of one transition: the new session, the rejection the caller's `await`
    sees (None when the call resolves) and whether `fetchMe` was requested.
   */
  datatype Step = Step(session: Session, raised: Option<HttpFailure>, calledFetchMe: bool)

  /** The screen `AppNavigator` renders. */
  datatype Route = LoadingView | MainTabs | AuthStack

  /** Someone is signed in exactly when a user is present. */
  predicate IsAuthenticated(s: Session) {
    s.user.Some?
  }

  /** Bootstrap goes on to `fetchMe`: a stored token that is present and non-empty. */
  predicate HasToken(s: Session) {
    s.token.Some? && s.token.value != ""
  }

  /** The session when the provider mounts: loading, nobody signed in, whatever token storage holds. */
  function Initial(stored: Option<string>): Session {
    Session(true, None, stored)
  }

  /**
    `bootstrap`. `readFails` says whether reading the stored token rejects; `me` is what
    `fetchMe` resolves or rejects with, used only when a token is present.
   */
  function Bootstrapped(s: Session, readFails: bool, me: Result<User, HttpFailure>): Step {
    if readFails then Step(Session(false, None, None), None, false)
    else if !HasToken(s) then Step(s.(isLoading := false, user := None), None, false)
    else match me
      case Ok(u) => Step(s.(isLoading := false, user := Some(u)), None, true)
      case Err(_) => Step(Session(false, None, None), None, true)
  }

  /** `login`: the login call, then the token is stored, then `fetchMe`. */
  function LoggedIn(s: Session, res: Result<AuthResponse, HttpFailure>, me: Result<User, HttpFailure>): Step {
    match res
    case Err(e) => Step(s, Some(e), false)
    case Ok(r) =>
      var stored := s.(token := Some(r.accessToken));
      match me
      case Ok(u) => Step(stored.(user := Some(u)), None, true)
      case Err(e) => Step(stored, Some(e), true)
  }

  /** `signup`: the registration call; on success nobody is signed in. */
  function SignedUp(s: Session, res: Result<User, HttpFailure>): Step {
    match res
    case Err(e) => Step(s, Some(e), false)
    case Ok(_) => Step(s.(user := None), None, false)
  }

  /** `logout` */
  function LoggedOut(s: Session): Session {
    s.(token := None, user := None)
  }

  /** `refreshMe` */
  function Refreshed(s: Session, me: Result<User, HttpFailure>): Step {
    match me
    case Err(e) => Step(s, Some(e), true)
    case Ok(u) => Step(s.(user := Some(u)), None, true)
  }

  /** `AppNavigator`: a loading view while loading, then the tabs or the sign-in stack. */
  function RouteOf(s: Session): Route {
    if s.isLoading then LoadingView else if IsAuthenticated(s) then MainTabs else AuthStack
  }

  // ---------------------------------------------------------------------------
  // Properties of the transitions
  // ---------------------------------------------------------------------------

  /** Bootstrap ends with `isLoading` false on every path and never raises. */
  lemma BootstrapSettles(s: Session, readFails: bool, me: Result<User, HttpFailure>)
    ensures !Bootstrapped(s, readFails, me).session.isLoading
    ensures Bootstrapped(s, readFails, me).raised == None
    ensures RouteOf(Bootstrapped(s, readFails, me).session) != LoadingView
  {
  }

  /** Without a stored token, bootstrap signs nobody in and makes no `fetchMe` call. */
  lemma BootstrapWithoutToken(s: Session, me: Result<User, HttpFailure>)
    requires !HasToken(s)
    ensures var r := Bootstrapped(s, false, me);
      r.session.user == None && !r.calledFetchMe && r.session.token == s.token
  {
  }

  /**
    With a stored token, bootstrap asks `fetchMe`; success signs in the fetched user and
    keeps the token, failure clears the token and signs nobody in.
   */
  lemma BootstrapWithToken(s: Session, me: Result<User, HttpFailure>)
    requires HasToken(s)
    ensures var r := Bootstrapped(s, false, me);
      && r.calledFetchMe
      && (me.Ok? ==> r.session.user == Some(me.value) && r.session.token == s.token)
      && (me.Err? ==> r.session.user == None && r.session.token == None)
  {
  }

  /** A failing token read clears the token and signs nobody in, before any `fetchMe`. */
  lemma BootstrapReadFailure(s: Session, me: Result<User, HttpFailure>)
    ensures var r := Bootstrapped(s, true, me);
      r.session.user == None && r.session.token == None && !r.calledFetchMe
  {
  }

  /** A failed login changes nothing and asks nothing more. */
  lemma LoginRejected(s: Session, res: Result<AuthResponse, HttpFailure>, me: Result<User, HttpFailure>)
    requires res.Err?
    ensures LoggedIn(s, res, me) == Step(s, Some(res.error), false)
  {
  }

  /**
    A successful login stores the access token before `fetchMe`; if `fetchMe` then fails
    the token stays stored, the user is unchanged and the error reaches the caller.
   */
  lemma LoginStoresTokenFirst(s: Session, res: Result<AuthResponse, HttpFailure>, me: Result<User, HttpFailure>)
    requires res.Ok?
    ensures var r := LoggedIn(s, res, me);
      && r.calledFetchMe
      && r.session.token == Some(res.value.accessToken)
      && r.session.isLoading == s.isLoading
      && (me.Ok? ==> r.session.user == Some(me.value) && r.raised == None)
      && (me.Err? ==> r.session.user == s.user && r.raised == Some(me.error))
  {
  }

  /** Signup never stores a token; success leaves nobody signed in, failure leaves the session as it was. */
  lemma SignupNeverAuthenticates(s: Session, res: Result<User, HttpFailure>)
    ensures SignedUp(s, res).session.token == s.token
    ensures res.Ok? ==> !IsAuthenticated(SignedUp(s, res).session) && SignedUp(s, res).raised == None
    ensures res.Err? ==> SignedUp(s, res).session == s && SignedUp(s, res).raised == Some(res.error)
  {
  }

  /** Logout always clears the token and the user, and doing it twice is doing it once. */
  lemma LogoutIdempotent(s: Session)
    ensures LoggedOut(s).token == None && !IsAuthenticated(LoggedOut(s))
    ensures LoggedOut(LoggedOut(s)) == LoggedOut(s)
  {
  }

  /** After logout, the next bootstrap goes straight to the sign-in stack without a network call. */
  lemma BootstrapAfterLogout(s: Session, me: Result<User, HttpFailure>)
    ensures var r := Bootstrapped(LoggedOut(s), false, me);
      !r.calledFetchMe && RouteOf(r.session) == AuthStack
  {
  }

  /** `refreshMe` replaces the user on success and changes nothing on failure. */
  lemma RefreshKeepsOnFailure(s: Session, me: Result<User, HttpFailure>)
    ensures me.Ok? ==> Refreshed(s, me).session == s.(user := Some(me.value))
    ensures me.Err? ==> Refreshed(s, me).session == s && Refreshed(s, me).raised == Some(me.error)
  {
  }

  /** The tabs are shown exactly when loading is over and someone is signed in. */
  lemma RouteChoice(s: Session)
    ensures RouteOf(s) == MainTabs <==> !s.isLoading && IsAuthenticated(s)
    ensures RouteOf(s) == AuthStack <==> !s.isLoading && !IsAuthenticated(s)
  {
  }

  // ---------------------------------------------------------------------------
  // The provider
  // ---------------------------------------------------------------------------

  class AuthProvider {
    var isLoading: bool
    var user: Option<User>
    /** The value stored under "auth_token". */
    var storedToken: Option<string>

    function State(): Session
      reads this
    {
      Session(isLoading, user, storedToken)
    }

    /** Mounting the provider: loading, nobody signed in; `stored` is what storage holds. */
    constructor (stored: Option<string>)
      ensures State() == Initial(stored)
    {
      isLoading := true;
      user := None;
      storedToken := stored;
    }

    method Bootstrap(readFails: bool, me: Result<User, HttpFailure>) returns (calledFetchMe: bool)
      modifies this
      ensures State() == Bootstrapped(old(State()), readFails, me).session
      ensures calledFetchMe == Bootstrapped(old(State()), readFails, me).calledFetchMe
    {
      isLoading := true;
      calledFetchMe := false;
      if readFails {
        // catch
        storedToken := None;
        user := None;
      } else {
        var token := storedToken;
        if token.None? || token.value == "" {
          user := None;
        } else {
          calledFetchMe := true;
          match me {
            case Ok(u) =>
              user := Some(u);
            case Err(_) =>
              // catch
              storedToken := None;
              user := None;
          }
        }
      }
      // finally
      isLoading := false;
    }

    method Login(res: Result<AuthResponse, HttpFailure>, me: Result<User, HttpFailure>)
      returns (raised: Option<HttpFailure>, calledFetchMe: bool)
      modifies this
      ensures State() == LoggedIn(old(State()), res, me).session
      ensures raised == LoggedIn(old(State()), res, me).raised
      ensures calledFetchMe == LoggedIn(old(State()), res, me).calledFetchMe
    {
      if res.Err? {
        return Some(res.error), false;
      }
      storedToken := Some(res.value.accessToken);
      calledFetchMe := true;
      if me.Err? {
        return Some(me.error), calledFetchMe;
      }
      user := Some(me.value);
      raised := None;
    }

    method Signup(res: Result<User, HttpFailure>) returns (raised: Option<HttpFailure>)
      modifies this
      ensures State() == SignedUp(old(State()), res).session
      ensures raised == SignedUp(old(State()), res).raised
    {
      if res.Err? {
        return Some(res.error);
      }
      user := None;
      raised := None;
    }

    method Logout()
      modifies this
      ensures State() == LoggedOut(old(State()))
    {
      storedToken := None;
      user := None;
    }

    method RefreshMe(me: Result<User, HttpFailure>) returns (raised: Option<HttpFailure>)
      modifies this
      ensures State() == Refreshed(old(State()), me).session
      ensures raised == Refreshed(old(State()), me).raised
    {
      if me.Err? {
        return Some(me.error);
      }
      user := Some(me.value);
      raised := None;
    }
  }
}

/**
 * The browser's session as the `useAuth` hook keeps it: the token persisted in
 * local storage, the `Authorization` header of the shared HTTP client, and the
 * hook's three pieces of state.
 *
 * Each server round trip is a parameter holding the reply the server gave, so
 * an asynchronous handler becomes one atomic method.
 */
module AuthHook {
  import opened Common

  datatype AuthUser = AuthUser(id: int, username: string, email: string)

  /** The reply to `GET /api/v1/users/me`. */
  datatype UserReply = UserOk(user: AuthUser) | UserFailed

  /** The reply to `POST /api/v1/token`; a failure may carry the server's `detail`. */
  datatype TokenReply = TokenOk(accessToken: string) | TokenFailed(detail: Option<string>)

  /** The reply to `POST /api/v1/users/`. */
  datatype RegisterReply = Registered | RegisterFailed(detail: Option<string>)

  const FetchFailed: string := "Failed to fetch user data"
  const RegistrationFailed: string := "Registration failed. Please try again."

  /** The value of the `Authorization` header for a token. */
  function Bearer(token: string): string
  {
    "Bearer " + token
  }

  class AuthSession {
    /** The `token` entry of local storage. */
    var storedToken: Option<string>
    /** The default `Authorization` header of the shared HTTP client. */
    var authHeader: Option<string>
    var user: Option<AuthUser>
    var isAuthenticated: bool
    var isLoading: bool

    /**
     * The session is authenticated exactly when a user is held, a user is only
     * held while the client sends a header, and the header always carries the
     * stored token.
     */
    ghost predicate Valid()
      reads this
    {
      && (isAuthenticated <==> user.Some?)
      && (isAuthenticated ==> authHeader.Some?)
      && (authHeader.Some? ==> storedToken.Some? && authHeader.value == Bearer(storedToken.value))
    }

    /** No token stored, no header sent, no user held. */
    ghost predicate SignedOut()
      reads this
    {
      storedToken.None? && authHeader.None? && user.None? && !isAuthenticated
    }

    /** The hook's first render, with whatever token an earlier visit left in storage. */
    constructor (persisted: Option<string>)
      ensures Valid()
      ensures storedToken == persisted && authHeader.None? && user.None?
      ensures !isAuthenticated && isLoading
    {
      storedToken := persisted;
      authHeader := None;
      user := None;
      isAuthenticated := false;
      isLoading := true;
    }

    /** Drops the token and the header and forgets the user. */
    method Clear()
      modifies this
      ensures SignedOut() && isLoading == old(isLoading)
    {
      storedToken := None;
      authHeader := None;
      user := None;
      isAuthenticated := false;
    }

    /** Stores a freshly issued token and sends it from now on. */
    method Adopt(token: string)
      requires Valid()
      modifies this
      ensures Valid()
      ensures storedToken == Some(token) && authHeader == Some(Bearer(token))
      ensures user == old(user) && isAuthenticated == old(isAuthenticated) && isLoading == old(isLoading)
    {
      storedToken := Some(token);
      authHeader := Some(Bearer(token));
    }

    /**
     * The mount effect: with a non-empty stored token, send it and fetch the
     * user; without one, just stop loading.
     */
    method Mount(reply: UserReply)
      requires Valid()
      modifies this
      ensures Valid() && !isLoading
      ensures !Truthy(old(storedToken)) ==>
        && storedToken == old(storedToken) && authHeader == old(authHeader)
        && user == old(user) && isAuthenticated == old(isAuthenticated)
      ensures Truthy(old(storedToken)) && reply.UserOk? ==>
        && storedToken == old(storedToken) && authHeader == Some(Bearer(old(storedToken).value))
        && user == Some(reply.user) && isAuthenticated
      ensures Truthy(old(storedToken)) && reply.UserFailed? ==> SignedOut()
    {
      if Truthy(storedToken) {
        authHeader := Some(Bearer(storedToken.value));
        FetchUser(reply);
      } else {
        isLoading := false;
      }
    }

    /**
     * `fetchUser`: on success the user is held and the session authenticated;
     * on any failure the session is signed out. It never fails itself, and it
     * always stops loading. Every caller sets the header before calling it.
     */
    method FetchUser(reply: UserReply)
      requires Valid() && authHeader.Some?
      modifies this
      ensures Valid() && !isLoading
      ensures reply.UserOk? ==>
        && user == Some(reply.user) && isAuthenticated
        && storedToken == old(storedToken) && authHeader == old(authHeader)
      ensures reply.UserFailed? ==> SignedOut()
    {
      match reply {
        case UserOk(u) =>
          user := Some(u);
          isAuthenticated := true;
        case UserFailed =>
          Clear();
      }
      isLoading := false;
    }

    /**
     * `login` as intended: signed in with the new token and the fetched user,
     * or signed out with "Failed to fetch user data" when either the token
     * request or the user fetch fails.
     */
    method Login(tokenReply: TokenReply, userReply: UserReply) returns (error: Option<string>)
      requires Valid()
      modifies this
      ensures Valid() && !isLoading
      ensures tokenReply.TokenOk? && userReply.UserOk? ==>
        && error.None?
        && storedToken == Some(tokenReply.accessToken) && authHeader == Some(Bearer(tokenReply.accessToken))
        && user == Some(userReply.user) && isAuthenticated
      ensures !(tokenReply.TokenOk? && userReply.UserOk?) ==> SignedOut() && error == Some(FetchFailed)
    {
      isLoading := true;
      match tokenReply {
        case TokenFailed(_) =>
          Clear();
          error := Some(FetchFailed);
        case TokenOk(token) =>
          Adopt(token);
          FetchUser(userReply);
          if userReply.UserFailed? {
            Clear();
            error := Some(FetchFailed);
          } else {
            error := None;
          }
      }
      isLoading := false;
    }

    /**
     * `login` as written: `fetchUser` swallows its own failures, so when the
     * token is granted but the user fetch fails the session ends signed out
     * and yet `login` reports no error.
     */
    method LoginAsWritten(tokenReply: TokenReply, userReply: UserReply) returns (error: Option<string>)
      requires Valid()
      modifies this
      ensures Valid() && !isLoading
      ensures tokenReply.TokenOk? && userReply.UserOk? ==>
        && error.None?
        && storedToken == Some(tokenReply.accessToken) && authHeader == Some(Bearer(tokenReply.accessToken))
        && user == Some(userReply.user) && isAuthenticated
      ensures tokenReply.TokenFailed? ==> SignedOut() && error == Some(FetchFailed)
      ensures tokenReply.TokenOk? && userReply.UserFailed? ==> SignedOut() && error.None?
    {
      isLoading := true;
      match tokenReply {
        case TokenFailed(_) =>
          Clear();
          error := Some(FetchFailed);
        case TokenOk(token) =>
          Adopt(token);
          FetchUser(userReply);
          error := None;
      }
      isLoading := false;
    }

    /**
     * `register` as intended: create the account, log in, fetch the user. A
     * refused sign-up or login reports the server's detail (or the generic
     * text), leaves the session as it was and leaves it loading; a failed user
     * fetch signs out and reports "Failed to fetch user data".
     */
    method Register(regReply: RegisterReply, tokenReply: TokenReply, userReply: UserReply)
      returns (error: Option<string>)
      requires Valid()
      modifies this
      ensures Valid()
      ensures regReply.RegisterFailed? ==>
        && error == Some(OrElse(regReply.detail, RegistrationFailed)) && isLoading
        && storedToken == old(storedToken) && authHeader == old(authHeader)
        && user == old(user) && isAuthenticated == old(isAuthenticated)
      ensures regReply.Registered? && tokenReply.TokenFailed? ==>
        && error == Some(OrElse(tokenReply.detail, RegistrationFailed)) && isLoading
        && storedToken == old(storedToken) && authHeader == old(authHeader)
        && user == old(user) && isAuthenticated == old(isAuthenticated)
      ensures regReply.Registered? && tokenReply.TokenOk? && userReply.UserOk? ==>
        && error.None? && !isLoading
        && storedToken == Some(tokenReply.accessToken) && authHeader == Some(Bearer(tokenReply.accessToken))
        && user == Some(userReply.user) && isAuthenticated
      ensures regReply.Registered? && tokenReply.TokenOk? && userReply.UserFailed? ==>
        SignedOut() && !isLoading && error == Some(FetchFailed)
    {
      isLoading := true;
      if regReply.RegisterFailed? {
        return Some(OrElse(regReply.detail, RegistrationFailed));
      }
      match tokenReply
      case TokenFailed(detail) =>
        error := Some(OrElse(detail, RegistrationFailed));
      case TokenOk(token) =>
        Adopt(token);
        FetchUser(userReply);
        if userReply.UserFailed? {
          Clear();
          error := Some(FetchFailed);
        } else {
          error := None;
        }
    }

    /**
     * `register` as written: the inner `catch` around `fetchUser` never runs,
     * because `fetchUser` swallows its own failures, so a failed user fetch
     * signs out without any error being reported.
     */
    method RegisterAsWritten(regReply: RegisterReply, tokenReply: TokenReply, userReply: UserReply)
      returns (error: Option<string>)
      requires Valid()
      modifies this
      ensures Valid()
      ensures regReply.RegisterFailed? ==>
        && error == Some(OrElse(regReply.detail, RegistrationFailed)) && isLoading
        && storedToken == old(storedToken) && authHeader == old(authHeader)
        && user == old(user) && isAuthenticated == old(isAuthenticated)
      ensures regReply.Registered? && tokenReply.TokenFailed? ==>
        && error == Some(OrElse(tokenReply.detail, RegistrationFailed)) && isLoading
        && storedToken == old(storedToken) && authHeader == old(authHeader)
        && user == old(user) && isAuthenticated == old(isAuthenticated)
      ensures regReply.Registered? && tokenReply.TokenOk? && userReply.UserOk? ==>
        && error.None? && !isLoading
        && storedToken == Some(tokenReply.accessToken) && authHeader == Some(Bearer(tokenReply.accessToken))
        && user == Some(userReply.user) && isAuthenticated
      ensures regReply.Registered? && tokenReply.TokenOk? && userReply.UserFailed? ==>
        SignedOut() && !isLoading && error.None?
    {
      isLoading := true;
      if regReply.RegisterFailed? {
        return Some(OrElse(regReply.detail, RegistrationFailed));
      }
      match tokenReply {
        case TokenFailed(detail) =>
          error := Some(OrElse(detail, RegistrationFailed));
        case TokenOk(token) =>
          Adopt(token);
          FetchUser(userReply);
          error := None;
      }
    }

    /** `logout`: signed out and not loading. */
    method Logout()
      modifies this
      ensures Valid() && SignedOut() && !isLoading
    {
      isLoading := true;
      Clear();
      isLoading := false;
    }
  }

  /**
   * A concrete run of `login` as written: the server grants a token, the user
   * fetch then fails, and the caller sees no error although the session ended
   * signed out.
   */
  method UnreportedLoginFailure() returns (error: Option<string>, signedIn: bool)
    ensures error.None? && !signedIn
  {
    var session := new AuthSession(None);
    error := session.LoginAsWritten(TokenOk("t"), UserFailed);
    signedIn := session.isAuthenticated;
  }

  /** The same run of the intended `login` reports the failure. */
  method ReportedLoginFailure() returns (error: Option<string>, signedIn: bool)
    ensures error == Some(FetchFailed) && !signedIn
  {
    var session := new AuthSession(None);
    error := session.Login(TokenOk("t"), UserFailed);
    signedIn := session.isAuthenticated;
  }
}

/**
 * The session store of frontend/src/contexts/AuthContext.tsx. The React state
 * cells `user` and `isLoading` become fields of a class. Each API call goes
 * through the shared `CsrfClient`, with the transport's outcome passed in as
 * a `Reply`. The effects that leave the component (the request configs the
 * interceptor releases, toasts, the cookie assignment, console errors, the
 * redirects) are recorded in ghost logs, and a re-thrown error is returned.
 */
module AuthContext {
  import opened Wrappers
  import opened Http
  import opened ApiClient

  /** The `User` shape of frontend/src/types/auth.ts. */
  datatype User = User(id: string, email: string, name: Option<string>, createdAt: string)

  /** The body of `GET /auth/user`. */
  datatype CurrentUser = CurrentUser(user: User)

  /** The `AuthResponse` body of login and register; its `csrfToken` is never read. */
  datatype AuthResponse = AuthResponse(user: User, csrfToken: Option<string>)

  datatype Toast = SuccessToast(text: string) | ErrorToast(text: string)

  const LoginSucceeded := "Successfully logged in!"
  const LoginFallback := "Invalid credentials"
  const RegisterSucceeded := "Registration successful!"
  const RegisterFallback := "Registration failed"
  const LoggedOut := "Successfully logged out"
  const CurrentUserRequest := RequestConfig(Some("get"), "/auth/user", DefaultHeaders)
  const LoginRequest := RequestConfig(Some("post"), "/auth/login", DefaultHeaders)
  const RegisterRequest := RequestConfig(Some("post"), "/auth/register", DefaultHeaders)
  /** The assignment to `document.cookie` that expires the refresh cookie. */
  const ExpireRefreshCookie := "ecomm-refresh=; expires=Thu, 01 Jan 1970 00:00:00 UTC; path=/;"

  /**
   * The error toast a failed login or register shows: none for an error that
   * is not an AxiosError, otherwise the server's non-empty `message`, or the
   * fallback text when there is none.
   */
  function ErrorToastFor(error: Failure, fallback: string): (r: Option<Toast>)
    ensures r.Some? <==> error.Axios?
    ensures r.Some? ==> r.value.ErrorToast?
    ensures error.Axios? && ServerMessage(error).Some? && ServerMessage(error).value != "" ==>
              r == Some(ErrorToast(ServerMessage(error).value))
    ensures error.Axios? && (ServerMessage(error).None? || ServerMessage(error).value == "") ==>
              r == Some(ErrorToast(fallback))
  {
    if error.NonAxios? then None
    else
      var message := ServerMessage(error);
      Some(ErrorToast(if message.Some? && message.value != "" then message.value else fallback))
  }

  /** The toasts a failed login or register appends to the log. */
  function ErrorToasts(error: Failure, fallback: string): (r: seq<Toast>)
    ensures |r| <= 1
    ensures r == [] <==> error.NonAxios?
  {
    match ErrorToastFor(error, fallback)
    case Some(t) => [t]
    case None => []
  }

  /** `AuthProvider`'s state, the API client it calls, and the effects it has produced so far. */
  class AuthProvider {
    const api: CsrfClient
    var user: Option<User>
    var isLoading: bool
    /** The request configs the request interceptor released for this provider's calls. */
    ghost var requests: seq<RequestConfig>
    ghost var toasts: seq<Toast>
    ghost var cookieWrites: seq<string>
    /** The `error.response?.data` logged by a failed status check that was an AxiosError. */
    ghost var consoleErrors: seq<Option<ErrorBody>>
    /** The assignments to `window.location.href` the error interceptor made during this provider's calls. */
    ghost var redirects: seq<string>

    /** The initial render: nobody is signed in and the status check is pending. */
    constructor (api: CsrfClient)
      ensures this.api == api
      ensures user == None && isLoading
      ensures requests == [] && toasts == [] && cookieWrites == [] && consoleErrors == [] && redirects == []
    {
      this.api := api;
      user := None;
      isLoading := true;
      requests := [];
      toasts := [];
      cookieWrites := [];
      consoleErrors := [];
      redirects := [];
    }

    /**
     * One call through the shared client: the config the interceptor released
     * is logged, the client's token history grows by the response it saw, and
     * a 401 redirects.
     */
    twostate predicate Called<T>(config: RequestConfig, reply: Reply<T>)
      reads this, api
    {
      && api.Valid() && api.base == old(api.base)
      && api.responses == old(api.responses) + HeadersSeen(reply)
      && api.csrfToken == (if reply.Resolved? then Rotated(old(api.csrfToken), reply.response.headers) else old(api.csrfToken))
      && requests == old(requests) + [WithCsrfHeader(old(api.csrfToken), config)]
      && redirects == old(redirects) + Redirects(reply)
    }

    /** Sends `config` through the client and logs what leaves the component. */
    method Call<T>(config: RequestConfig, reply: Reply<T>) returns (result: Reply<T>)
      requires api.Valid()
      modifies this, api
      ensures Called(config, reply)
      ensures result == reply
      ensures user == old(user) && isLoading == old(isLoading)
      ensures toasts == old(toasts) && cookieWrites == old(cookieWrites) && consoleErrors == old(consoleErrors)
    {
      var sent, outcome, moves := api.Request(config, reply);
      requests := requests + [sent];
      redirects := redirects + moves;
      result := outcome;
    }

    /**
     * `checkAuthStatus`: the user becomes the one the server returned, or
     * nobody on any failure; loading is over in every outcome.
     */
    method CheckAuthStatus(reply: Reply<CurrentUser>)
      requires api.Valid()
      modifies this, api
      ensures Called(CurrentUserRequest, reply)
      ensures user == (if reply.Resolved? then Some(reply.response.data.user) else None)
      ensures !isLoading
      ensures toasts == old(toasts) && cookieWrites == old(cookieWrites)
      ensures consoleErrors ==
                if reply.Rejected? && reply.error.Axios?
                then old(consoleErrors) + [if reply.error.response.Some? then reply.error.response.value.data else None]
                else old(consoleErrors)
    {
      var result := Call(CurrentUserRequest, reply);
      match result {
        case Resolved(response) =>
          user := Some(response.data.user);
        case Rejected(error) =>
          if error.Axios? {
            consoleErrors := consoleErrors + [if error.response.Some? then error.response.value.data else None];
          }
          user := None;
      }
      // the `finally` block
      isLoading := false;
    }

    /**
     * The body shared by `login` and `register`: on success the user is set
     * and one success toast is shown; on failure the user is left as it was,
     * an AxiosError shows one error toast, and the error is thrown again.
     */
    method Submit(config: RequestConfig, reply: Reply<AuthResponse>, success: string, fallback: string)
      returns (thrown: Option<Failure>)
      requires api.Valid()
      modifies this, api
      ensures Called(config, reply)
      ensures thrown.Some? <==> reply.Rejected?
      ensures reply.Rejected? ==> thrown == Some(reply.error)
      ensures user == (if reply.Resolved? then Some(reply.response.data.user) else old(user))
      ensures toasts == old(toasts) + (if reply.Resolved? then [SuccessToast(success)] else ErrorToasts(reply.error, fallback))
      ensures isLoading == old(isLoading)
      ensures cookieWrites == old(cookieWrites) && consoleErrors == old(consoleErrors)
    {
      var result := Call(config, reply);
      match result
      case Resolved(response) =>
        user := Some(response.data.user);
        toasts := toasts + [SuccessToast(success)];
        thrown := None;
      case Rejected(error) =>
        toasts := toasts + ErrorToasts(error, fallback);
        thrown := Some(error);
    }

    /** `login`: a POST, so it carries the held token; a 401 both shows the error toast and redirects. */
    method Login(reply: Reply<AuthResponse>) returns (thrown: Option<Failure>)
      requires api.Valid()
      modifies this, api
      ensures Called(LoginRequest, reply)
      ensures thrown.Some? <==> reply.Rejected?
      ensures reply.Rejected? ==> thrown == Some(reply.error)
      ensures user == (if reply.Resolved? then Some(reply.response.data.user) else old(user))
      ensures toasts == old(toasts) + (if reply.Resolved? then [SuccessToast(LoginSucceeded)] else ErrorToasts(reply.error, LoginFallback))
      ensures isLoading == old(isLoading)
      ensures cookieWrites == old(cookieWrites) && consoleErrors == old(consoleErrors)
    {
      thrown := Submit(LoginRequest, reply, LoginSucceeded, LoginFallback);
    }

    /** `register` */
    method Register(reply: Reply<AuthResponse>) returns (thrown: Option<Failure>)
      requires api.Valid()
      modifies this, api
      ensures Called(RegisterRequest, reply)
      ensures thrown.Some? <==> reply.Rejected?
      ensures reply.Rejected? ==> thrown == Some(reply.error)
      ensures user == (if reply.Resolved? then Some(reply.response.data.user) else old(user))
      ensures toasts == old(toasts) + (if reply.Resolved? then [SuccessToast(RegisterSucceeded)] else ErrorToasts(reply.error, RegisterFallback))
      ensures isLoading == old(isLoading)
      ensures cookieWrites == old(cookieWrites) && consoleErrors == old(consoleErrors)
    {
      thrown := Submit(RegisterRequest, reply, RegisterSucceeded, RegisterFallback);
    }

    /** `logout`: signs out locally, expires the refresh cookie, shows one toast; no request is made. */
    method Logout()
      modifies this
      ensures user == None
      ensures cookieWrites == old(cookieWrites) + [ExpireRefreshCookie]
      ensures toasts == old(toasts) + [SuccessToast(LoggedOut)]
      ensures isLoading == old(isLoading) && consoleErrors == old(consoleErrors)
      ensures requests == old(requests) && redirects == old(redirects)
    {
      user := None;
      cookieWrites := cookieWrites + [ExpireRefreshCookie];
      toasts := toasts + [SuccessToast(LoggedOut)];
    }
  }

  /**
   * The login request carries the held token exactly when one is held, and
   * the status check never carries one: it is a GET.
   */
  lemma TokenSentOnlyWithLogin(token: Option<string>)
    ensures var sent := WithCsrfHeader(token, LoginRequest);
            RequestHeader in sent.headers <==> Truthy(token)
    ensures Truthy(token) ==> WithCsrfHeader(token, LoginRequest).headers[RequestHeader] == token.value
    ensures WithCsrfHeader(token, CurrentUserRequest) == CurrentUserRequest
  {
    MutatingMethodsIgnoreCase(LoginRequest.verb);
    MutatingMethodsIgnoreCase(CurrentUserRequest.verb);
    VerbsAreLowerCase();
  }
}

/**
 * The shared axios instance of frontend/src/lib/api.ts: one process-wide CSRF
 * token, a request interceptor that copies it into mutating requests, a
 * response interceptor that captures a rotated token, an error interceptor
 * that sends the browser to the login page on 401, and a manual setter.
 * Base URL and credentials mode are transport settings and are not
 * modelled; the browser navigation is returned as a value.
 */
module ApiClient {
  import opened Wrappers
  import opened Text
  import opened Http

  /** Header the token is sent in. */
  const RequestHeader := "X-CSRF-Token"
  /** Header a rotated token is read from. */
  const ResponseHeader := "x-csrf-token"
  /** Where a 401 sends the browser. */
  const LoginPath := "/login"
  /** The verbs that carry the token, compared after lower-casing. */
  const MutatingMethods: seq<string> := ["post", "put", "delete"]

  /** The instance's default headers, present on every request config. */
  const DefaultHeaders: Headers := map["Content-Type" := "application/json"]

  /**
   * The part of an axios request config the interceptor reads and writes.
   * axios calls the verb field `method`, a reserved word here.
   */
  datatype RequestConfig = RequestConfig(verb: Option<string>, url: string, headers: Headers)

  /** A successful axios response with a body of type `T`. */
  datatype Response<T> = Response(status: int, headers: Headers, data: T)

  /** How the transport ended one call, before the response interceptor sees it. */
  datatype Reply<T> = Resolved(response: Response<T>) | Rejected(error: Failure)

  /** JavaScript truthiness of a `string | null` token: present and non-empty. */
  predicate Truthy(token: Option<string>) {
    token.Some? && token.value != ""
  }

  /** `["post", "put", "delete"].includes(config.method?.toLowerCase() || "")`, on the `verb` field. */
  predicate IsMutating(verb: Option<string>)
    ensures IsMutating(verb) ==> verb.Some? && Lower(verb.value) in MutatingMethods
  {
    var key := if verb.Some? && Lower(verb.value) != "" then Lower(verb.value) else "";
    key in MutatingMethods
  }

  /** The verbs the interceptor names, and get, are already in lower case. */
  lemma VerbsAreLowerCase()
    ensures Lower("post") == "post" && Lower("put") == "put" && Lower("delete") == "delete" && Lower("get") == "get"
  {
  }

  /**
   * The method test ignores case: a request carries the token exactly when its
   * method spells post, put or delete in any mix of cases. A method spelling
   * get, and a missing method, never do.
   */
  lemma MutatingMethodsIgnoreCase(verb: Option<string>)
    ensures IsMutating(verb) <==>
              verb.Some? && exists w :: w in MutatingMethods && EqualsIgnoringCase(verb.value, w)
    ensures verb.Some? && EqualsIgnoringCase(verb.value, "get") ==> !IsMutating(verb)
  {
    if verb.Some? {
      var key := Lower(verb.value);
      VerbsAreLowerCase();
      assert IsMutating(verb) <==> key == "post" || key == "put" || key == "delete";
      if key == "post" {
        assert "post" in MutatingMethods && EqualsIgnoringCase(verb.value, "post");
      } else if key == "put" {
        assert "put" in MutatingMethods && EqualsIgnoringCase(verb.value, "put");
      } else if key == "delete" {
        assert "delete" in MutatingMethods && EqualsIgnoringCase(verb.value, "delete");
      }
    }
  }

  /**
   * The request config after the request interceptor: only the
   * `X-CSRF-Token` header can change, it is set to the held token on a
   * mutating request while a truthy token is held, and otherwise the config
   * passes through untouched (the request is never blocked).
   */
  function WithCsrfHeader(token: Option<string>, config: RequestConfig): (r: RequestConfig)
    ensures r.verb == config.verb && r.url == config.url
    ensures r.headers - {RequestHeader} == config.headers - {RequestHeader}
    ensures Truthy(token) && IsMutating(config.verb) ==>
              RequestHeader in r.headers && r.headers[RequestHeader] == token.value
    ensures !Truthy(token) || !IsMutating(config.verb) ==> r == config
  {
    if Truthy(token) && IsMutating(config.verb)
    then config.(headers := config.headers[RequestHeader := token.value])
    else config
  }

  /** The token a response offers: the `x-csrf-token` header when it is present and non-empty. */
  function FreshToken(headers: Headers): (r: Option<string>)
    ensures r.Some? <==> ResponseHeader in headers && headers[ResponseHeader] != ""
    ensures r.Some? ==> r.value == headers[ResponseHeader] && Truthy(r)
  {
    if ResponseHeader in headers && headers[ResponseHeader] != "" then Some(headers[ResponseHeader]) else None
  }

  /**
   * The held token after one successful response: a non-empty
   * `x-csrf-token` header always replaces it; nothing else changes it, so a
   * response never clears or blanks a held token.
   */
  function Rotated(token: Option<string>, headers: Headers): (r: Option<string>)
    ensures ResponseHeader in headers && headers[ResponseHeader] != "" ==> r == Some(headers[ResponseHeader])
    ensures r != token ==> ResponseHeader in headers && r == Some(headers[ResponseHeader])
    ensures Truthy(token) ==> Truthy(r)
  {
    if FreshToken(headers).Some? then FreshToken(headers) else token
  }

  /** The headers of the responses a call's outcome hands to the success handler. */
  function HeadersSeen<T>(reply: Reply<T>): seq<Headers> {
    if reply.Resolved? then [reply.response.headers] else []
  }

  /** The pages the error handler sends the browser to for a call's outcome. */
  function Redirects<T>(reply: Reply<T>): seq<string> {
    if reply.Rejected? && Status(reply.error) == Some(401) then [LoginPath] else []
  }

  /**
   * The held token after the successful responses `responses`, in order,
   * starting from `token`: always the starting token or a token one of the
   * responses offered.
   */
  function TokenAfter(token: Option<string>, responses: seq<Headers>): (r: Option<string>)
    ensures r == token || exists i :: 0 <= i < |responses| && r == FreshToken(responses[i])
    decreases |responses|
  {
    if responses == [] then token
    else
      var k := |responses| - 1;
      var before := TokenAfter(token, responses[..k]);
      assert forall i :: 0 <= i < k ==> responses[..k][i] == responses[i];
      Rotated(before, responses[k])
  }

  /** Last write wins: the most recent response that offered a token decides the held token. */
  lemma {:induction false} LastWriteWins(token: Option<string>, responses: seq<Headers>, i: nat)
    requires i < |responses| && FreshToken(responses[i]).Some?
    requires forall j :: i < j < |responses| ==> FreshToken(responses[j]).None?
    ensures TokenAfter(token, responses) == FreshToken(responses[i])
    decreases |responses|
  {
    var k := |responses| - 1;
    if i < k {
      LastWriteWins(token, responses[..k], i);
    }
  }

  /** Responses that offer no token leave the held token as it was. */
  lemma {:induction false} NoFreshTokenKeepsToken(token: Option<string>, responses: seq<Headers>)
    requires forall j :: 0 <= j < |responses| ==> FreshToken(responses[j]).None?
    ensures TokenAfter(token, responses) == token
    decreases |responses|
  {
    if responses != [] {
      NoFreshTokenKeepsToken(token, responses[..|responses| - 1]);
    }
  }

  /**
   * The module-level token of api.ts and the interceptors around it.
   * `base` and `responses` are the history that explains the token: its value
   * at start-up or at the last manual set, and the headers of every
   * successful response since.
   */
  class CsrfClient {
    var csrfToken: Option<string>
    ghost var base: Option<string>
    ghost var responses: seq<Headers>

    ghost predicate Valid()
      reads this
    {
      csrfToken == TokenAfter(base, responses)
    }

    /** At module load no token is held. */
    constructor ()
      ensures Valid()
      ensures csrfToken == None && base == None && responses == []
    {
      csrfToken := None;
      base := None;
      responses := [];
    }

    /** The request interceptor: adds the header in place and hands the config back. */
    method InterceptRequest(config: RequestConfig) returns (r: RequestConfig)
      ensures r == WithCsrfHeader(csrfToken, config)
    {
      r := config;
      if csrfToken.Some? && csrfToken.value != "" && IsMutating(config.verb) {
        r := r.(headers := r.headers[RequestHeader := csrfToken.value]);
      }
    }

    /** The success handler of the response interceptor: captures a rotated token, returns the response. */
    method InterceptResponse<T>(response: Response<T>) returns (r: Response<T>)
      requires Valid()
      modifies this
      ensures Valid()
      ensures r == response
      ensures csrfToken == Rotated(old(csrfToken), response.headers)
      ensures base == old(base) && responses == old(responses) + [response.headers]
    {
      if ResponseHeader in response.headers {
        var newToken := response.headers[ResponseHeader];
        if newToken != "" {
          csrfToken := Some(newToken);
        }
      }
      responses := responses + [response.headers];
      assert responses[..|responses| - 1] == old(responses);
      r := response;
    }

    /**
     * The error handler of the response interceptor: navigates to the login
     * page exactly when the error carries a 401 response, and rejects again
     * with the very same error in every case.
     */
    method InterceptError(error: Failure) returns (navigateTo: Option<string>, rejected: Failure)
      ensures rejected == error
      ensures navigateTo.Some? <==> Status(error) == Some(401)
      ensures navigateTo.Some? ==> navigateTo.value == LoginPath
    {
      navigateTo := None;
      if error.Axios? && error.response.Some? && error.response.value.status == 401 {
        navigateTo := Some(LoginPath);
      }
      rejected := error;
    }

    /** `setCsrfToken`: overwrites the token unconditionally, even with an empty string. */
    method SetCsrfToken(token: string)
      requires Valid()
      modifies this
      ensures Valid()
      ensures csrfToken == Some(token)
      ensures base == Some(token) && responses == []
    {
      csrfToken := Some(token);
      base := Some(token);
      responses := [];
    }

    /**
     * One call `api.get`, `api.post`, ... as the caller sees it: the request
     * interceptor releases `sent`, the transport ends the call with `reply`,
     * the success or error handler runs on it, and the caller receives the
     * very same outcome, after any redirect.
     */
    method Request<T>(config: RequestConfig, reply: Reply<T>)
      returns (sent: RequestConfig, result: Reply<T>, redirects: seq<string>)
      requires Valid()
      modifies this
      ensures Valid()
      ensures sent == WithCsrfHeader(old(csrfToken), config)
      ensures result == reply
      ensures redirects == Redirects(reply)
      ensures csrfToken == if reply.Resolved? then Rotated(old(csrfToken), reply.response.headers) else old(csrfToken)
      ensures base == old(base) && responses == old(responses) + HeadersSeen(reply)
    {
      sent := InterceptRequest(config);
      match reply {
        case Resolved(response) =>
          var r := InterceptResponse(response);
          result := Resolved(r);
          redirects := [];
        case Rejected(error) =>
          var navigateTo, rejected := InterceptError(error);
          result := Rejected(rejected);
          redirects := if navigateTo.Some? then [navigateTo.value] else [];
      }
    }
  }
}

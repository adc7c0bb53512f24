/**
 * JwtCsrfVerifier: the server's CSRF guard, a "double-submit" scheme. A
 * random state token is stored in the `XSRF-TOKEN` cookie, and every
 * state-changing web-service call must echo it in the `X-XSRF-TOKEN` header.
 */
module JwtCsrf {
  import opened Wrappers
  import opened Servlet
  import opened StringUtils

  const CsrfStateCookie: string := "XSRF-TOKEN"
  const CsrfHeader: string := "X-XSRF-TOKEN"

  /** The HTTP methods that change state, and so need the token. */
  const UpdateMethods: set<string> := {"POST", "PUT", "DELETE"}
  const ApiUrl: string := "/api"

  /**
   * Web services still served by the legacy Rails application, which does its
   * own forgery check; they are exempt here. Listed in the order the source's
   * immutable set iterates them.
   */
  const RailsUpdateApiUrls: seq<string> := [
    "/api/events",
    "/api/favourites",
    "/api/issues/add_comment",
    "/api/issues/delete_comment",
    "/api/issues/edit_comment",
    "/api/issues/bulk_change",
    "/api/projects/create",
    "/api/properties/create",
    "/api/server",
    "/api/user_properties"
  ]

  /** What verifyState does: return normally, or throw UnauthorizedException. */
  datatype Outcome = Allowed | Unauthorized

  // ---------------------------------------------------------------------
  // The specification: which requests are checked, and which are refused.
  // ---------------------------------------------------------------------

  /** Some legacy Rails URL is a prefix of `uri`. */
  predicate HasRailsPrefix(uri: string) {
    exists i :: 0 <= i < |RailsUpdateApiUrls| && RailsUpdateApiUrls[i] <= uri
  }

  /** The request URI with the context path cut out. */
  function RequestPath(request: Request): string {
    RemoveFirst(request.requestUri, request.contextPath)
  }

  /** A request is checked when it changes state and targets a non-legacy web service. */
  predicate MustBeChecked(request: Request) {
    request.httpMethod in UpdateMethods
    && ApiUrl <= RequestPath(request)
    && !HasRailsPrefix(RequestPath(request))
  }

  /** A token that can vouch for a request: present and not blank. */
  predicate Vouches(csrfState: Option<string>, stateInHeader: Option<string>) {
    !IsBlank(csrfState) && csrfState == stateInHeader
  }

  /** The decision verifyState makes, given the state stored in the cookie. */
  function Verdict(request: Request, csrfState: Option<string>): Outcome {
    if MustBeChecked(request) && !Vouches(csrfState, request.GetHeader(CsrfHeader))
    then Unauthorized
    else Allowed
  }

  /**
   * What BigInteger(130, random).toString(32) yields: a non-empty string of
   * base-32 digits 0-9 and a-v (the number is never negative).
   */
  predicate IsBase32Token(token: string) {
    token != [] && forall i :: 0 <= i < |token| ==> ('0' <= token[i] <= '9' || 'a' <= token[i] <= 'v')
  }

  // ---------------------------------------------------------------------
  // The verifier object
  // ---------------------------------------------------------------------

  class JwtCsrfVerifier {
    const server: Server

    constructor (server: Server)
      ensures this.server == server
    {
      this.server := server;
    }

    /**
     * generateState: the token stands for the random value the source draws;
     * it goes into a new cookie and is returned.
     */
    method GenerateState(response: Response, timeoutInSeconds: int32, token: string) returns (state: string)
      requires IsBase32Token(token)
      modifies response
      ensures state == token
      ensures response.cookies == old(response.cookies) + [CreateCookie(Some(state), timeoutInSeconds)]
    {
      state := token;
      response.AddCookie(CreateCookie(Some(state), timeoutInSeconds));
    }

    /** verifyState: refuses a checked request unless the cookie state vouches for it. */
    method VerifyState(request: Request, csrfState: Option<string>) returns (outcome: Outcome)
      ensures outcome == Verdict(request, csrfState)
    {
      var checked := ShouldRequestBeChecked(request);
      if !checked {
        return Allowed;
      }
      var stateInHeader := request.GetHeader(CsrfHeader);
      if IsBlank(csrfState) || csrfState != stateInHeader {
        return Unauthorized;
      }
      return Allowed;
    }

    /** refreshState: sends the given state again with a new lifetime. */
    method RefreshState(response: Response, csrfState: string, timeoutInSeconds: int32)
      modifies response
      ensures response.cookies == old(response.cookies) + [CreateCookie(Some(csrfState), timeoutInSeconds)]
    {
      response.AddCookie(CreateCookie(Some(csrfState), timeoutInSeconds));
    }

    /** removeState: sends an empty state cookie that expires at once. */
    method RemoveState(response: Response)
      modifies response
      ensures response.cookies == old(response.cookies) + [CreateCookie(None, 0)]
    {
      response.AddCookie(CreateCookie(None, 0));
    }

    /** shouldRequestBeChecked: an update method whose path, once the context path is cut out, lies under `/api` and outside the legacy URLs. */
    static method ShouldRequestBeChecked(request: Request) returns (checked: bool)
      ensures checked == MustBeChecked(request)
    {
      if request.httpMethod in UpdateMethods {
        var path := RemoveFirst(request.requestUri, request.contextPath);
        var rails := IsRailsWsUrl(path);
        return ApiUrl <= path && !rails;
      }
      return false;
    }

    /** isRailsWsUrl: scans the legacy URLs and stops at the first prefix of `uri`. */
    static method IsRailsWsUrl(uri: string) returns (found: bool)
      ensures found == HasRailsPrefix(uri)
    {
      for i := 0 to |RailsUpdateApiUrls|
        invariant forall j :: 0 <= j < i ==> !(RailsUpdateApiUrls[j] <= uri)
      {
        if RailsUpdateApiUrls[i] <= uri {
          return true;
        }
      }
      return false;
    }

    /** createCookie: the state cookie for this server, carrying the given value and lifetime. */
    function CreateCookie(csrfState: Option<string>, timeoutInSeconds: int32): Cookie {
      Cookie(CsrfStateCookie, csrfState, server.contextPath + "/", server.isSecured, false, timeoutInSeconds)
    }
  }

  // ---------------------------------------------------------------------
  // Properties
  // ---------------------------------------------------------------------

  /** A GET, HEAD, OPTIONS or any other non-update method is let through whatever the tokens. */
  lemma NonUpdateMethodAllowed(request: Request, csrfState: Option<string>)
    requires request.httpMethod !in {"POST", "PUT", "DELETE"}
    ensures Verdict(request, csrfState) == Allowed
  {
  }

  /** The legacy prefixes all lie under `/api`. */
  lemma RailsUrlsUnderApi(uri: string)
    requires HasRailsPrefix(uri)
    ensures ApiUrl <= uri
  {
    var i :| 0 <= i < |RailsUpdateApiUrls| && RailsUpdateApiUrls[i] <= uri;
    assert ApiUrl <= RailsUpdateApiUrls[i];
  }

  /**
   * For a request URI that starts with its context path (as the servlet
   * container guarantees), the request is checked exactly when it uses an
   * update method and the rest of the URI starts with `/api` and with none
   * of the legacy prefixes.
   */
  lemma CheckedExactly(request: Request)
    requires request.contextPath <= request.requestUri
    ensures var path := request.requestUri[|request.contextPath|..];
      MustBeChecked(request) <==>
        request.httpMethod in {"POST", "PUT", "DELETE"}
        && "/api" <= path
        && forall i :: 0 <= i < |RailsUpdateApiUrls| ==> !(RailsUpdateApiUrls[i] <= path)
  {
    RemoveFirstOfPrefix(request.requestUri, request.contextPath);
  }

  /** A path outside `/api` is never checked, even for POST. */
  lemma NonApiPathAllowed(request: Request, csrfState: Option<string>)
    requires request.contextPath <= request.requestUri
    requires !("/api" <= request.requestUri[|request.contextPath|..])
    ensures Verdict(request, csrfState) == Allowed
  {
    RemoveFirstOfPrefix(request.requestUri, request.contextPath);
  }

  /** A checked request is refused exactly when the state is blank or differs from the header. */
  lemma CheckedRefusedExactly(request: Request, csrfState: Option<string>)
    requires MustBeChecked(request)
    ensures Verdict(request, csrfState) == Unauthorized <==>
      IsBlank(csrfState) || csrfState != request.GetHeader(CsrfHeader)
  {
  }

  /** A checked request without the header is refused, whatever the state. */
  lemma MissingHeaderRefused(request: Request, csrfState: Option<string>)
    requires MustBeChecked(request)
    requires CsrfHeader !in request.headers
    ensures Verdict(request, csrfState) == Unauthorized
  {
  }

  /** A checked request whose header repeats a non-blank state is let through. */
  lemma MatchingStateAllowed(request: Request, state: string)
    requires !IsBlank(Some(state))
    requires request.GetHeader(CsrfHeader) == Some(state)
    ensures Verdict(request, Some(state)) == Allowed
  {
  }

  /** A generated token is never blank, so it can vouch for the request that echoes it. */
  lemma Base32TokenNotBlank(token: string)
    requires IsBase32Token(token)
    ensures !IsBlank(Some(token))
  {
    assert !IsWhitespace(token[0]);
  }

  /**
   * Round trip: the value of the cookie generateState sends, echoed back in
   * the header, passes verifyState on any request.
   */
  lemma GeneratedStateAllowed(verifier: JwtCsrfVerifier, token: string, timeoutInSeconds: int32, request: Request)
    requires IsBase32Token(token)
    requires request.GetHeader(CsrfHeader) == Some(token)
    ensures Verdict(request, verifier.CreateCookie(Some(token), timeoutInSeconds).value) == Allowed
  {
    Base32TokenNotBlank(token);
  }

  /** The cookie removeState sends can never vouch for a checked request. */
  lemma RemovedStateRefused(verifier: JwtCsrfVerifier, request: Request)
    requires MustBeChecked(request)
    ensures Verdict(request, verifier.CreateCookie(None, 0).value) == Unauthorized
  {
  }

  /**
   * createCookie: the attributes every state cookie carries; only the value
   * and the lifetime depend on the arguments.
   */
  lemma CreateCookieAttributes(verifier: JwtCsrfVerifier, csrfState: Option<string>, timeoutInSeconds: int32)
    ensures var c := verifier.CreateCookie(csrfState, timeoutInSeconds);
      c.name == "XSRF-TOKEN" && c.value == csrfState
      && c.path == verifier.server.contextPath + "/"
      && c.secure == verifier.server.isSecured && !c.httpOnly
      && c.maxAge == timeoutInSeconds
  {
  }

  /** Two state cookies from one verifier differ only where their arguments differ. */
  lemma CreateCookieDeterminedByArguments(verifier: JwtCsrfVerifier,
                                          s1: Option<string>, t1: int32, s2: Option<string>, t2: int32)
    ensures verifier.CreateCookie(s1, t1) == verifier.CreateCookie(s2, t2) <==> s1 == s2 && t1 == t2
  {
  }

  // ---------------------------------------------------------------------
  // Examples
  // ---------------------------------------------------------------------

  /** `/api/server/version` and `/api/events` are legacy Rails services. */
  lemma LegacyExamples()
    ensures HasRailsPrefix("/api/server/version")
    ensures HasRailsPrefix("/api/events")
  {
    assert RailsUpdateApiUrls[8] <= "/api/server/version";
    assert RailsUpdateApiUrls[0] <= "/api/events";
  }

  /** `/api/issues/search` starts with none of the legacy prefixes. */
  lemma IssuesSearchNotLegacy()
    ensures !HasRailsPrefix("/api/issues/search")
  {
    var path := "/api/issues/search";
    forall i | 0 <= i < |RailsUpdateApiUrls|
      ensures !(RailsUpdateApiUrls[i] <= path)
    {
      var k := if 2 <= i <= 5 then 12 else 5;
      assert RailsUpdateApiUrls[i][k] != path[k];
    }
  }

  /** A POST to `/sonar/api/issues/search` on a server deployed at `/sonar` is checked. */
  lemma IssuesSearchChecked()
    ensures MustBeChecked(Request("POST", "/sonar/api/issues/search", "/sonar", map[]))
  {
    var request := Request("POST", "/sonar/api/issues/search", "/sonar", map[]);
    RemoveFirstOfPrefix(request.requestUri, request.contextPath);
    assert RequestPath(request) == "/api/issues/search";
    IssuesSearchNotLegacy();
  }

  /** A POST to `/sessions/login` is not checked: it is not a web service. */
  lemma LoginNotChecked()
    ensures !MustBeChecked(Request("POST", "/sessions/login", "", map[]))
  {
    RemoveFirstOfPrefix("/sessions/login", "");
    assert ApiUrl[1] != "/sessions/login"[1];
  }
}

/**
 * The parts of the servlet API and of the platform's `Server` that the CSRF
 * verifier touches, as plain values (and one object, the response, which the
 * verifier changes in place).
 */
module Servlet {
  import opened Wrappers

  /** Java's 32-bit `int`. */
  newtype int32 = x: int | -0x8000_0000 <= x < 0x8000_0000

  /** What the verifier reads from an incoming HTTP request. */
  datatype Request = Request(
    httpMethod: string,           // getMethod(), e.g. "POST"
    requestUri: string,           // getRequestURI(), context path included
    contextPath: string,          // getContextPath(), "" at the root
    headers: map<string, string>) // header name to value
  {
    /** getHeader(name): the header's value, or null when the request has none. */
    function GetHeader(name: string): Option<string>
    {
      if name in headers then Some(headers[name]) else None
    }
  }

  /** A `javax.servlet.http.Cookie` after its setters have run. */
  datatype Cookie = Cookie(
    name: string,
    value: Option<string>,
    path: string,
    secure: bool,
    httpOnly: bool,
    maxAge: int32)

  /** The platform's `Server`: where it is deployed and whether it is served over HTTPS. */
  datatype Server = Server(contextPath: string, isSecured: bool)

  /** The cookies an `HttpServletResponse` will send, in the order they were added. */
  class Response {
    var cookies: seq<Cookie>

    constructor ()
      ensures cookies == []
    {
      cookies := [];
    }

    /** addCookie: the cookie goes after every cookie already added. */
    method AddCookie(cookie: Cookie)
      modifies this
      ensures cookies == old(cookies) + [cookie]
    {
      cookies := cookies + [cookie];
    }
  }
}

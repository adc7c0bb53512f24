# JwtCsrfVerifier, modelled in Dafny

SonarQube's web server guards its state-changing web services against
cross-site request forgery with a "double-submit" scheme: a random state token
is stored in the `XSRF-TOKEN` cookie, and each POST, PUT or DELETE call to a
web service under `/api` must echo that token in the `X-XSRF-TOKEN` header.
A fixed list of URL prefixes still served by the legacy Rails application is
exempt. `JwtCsrfVerifier` makes that decision (`verifyState`) and writes the
state cookie (`generateState`, `refreshState`, `removeState`).

Files:

- `wrappers.dfy`: `Option`, which stands for Java's nullable references.
- `servlet.dfy`: the request, the cookie and the `Server` as values; the response as a class whose cookie list grows in place; Java's `int` as `int32`.
- `string_utils.dfy`: `Character.isWhitespace` (Java 8, Unicode 6.2), commons-lang `StringUtils.isBlank`, and `String.replaceFirst` with an empty replacement, read literally.
- `jwt_csrf_verifier.dfy`: the constants, the specification predicates (`HasRailsPrefix`, `MustBeChecked`, `Verdict`), the `JwtCsrfVerifier` class, and the lemmas.

The private `shouldRequestBeChecked` and `isRailsWsUrl` are static methods of the
class. Each one is proved equal to a specification predicate. `verifyState` is
a method that returns an `Outcome` (`Allowed`, or `Unauthorized` where the
source throws `UnauthorizedException`), and it is proved equal to `Verdict`.
The three cookie writers are methods that append to `Response.cookies`. Their
postconditions give the whole new cookie list, so earlier cookies cannot change.

Besides a mismatch, a checked request is also refused when the cookie state
is null, empty or whitespace only, even if the header repeats it
(`JwtCsrfVerifier.java:75`). The model follows the code (`Vouches`,
`CheckedRefusedExactly`).

## Model

| member | source | states |
|---|---|---|
| `JwtCsrf.JwtCsrfVerifier.constructor` | server/sonar-server/src/main/java/org/sonar/server/authentication/JwtCsrfVerifier.java:56-60 | the verifier keeps the server it is given |
| `JwtCsrf.JwtCsrfVerifier.GenerateState` | server/sonar-server/src/main/java/org/sonar/server/authentication/JwtCsrfVerifier.java:62-68 | returns the token and appends exactly one state cookie carrying it and the timeout; earlier cookies unchanged |
| `JwtCsrf.JwtCsrfVerifier.VerifyState` | server/sonar-server/src/main/java/org/sonar/server/authentication/JwtCsrfVerifier.java:70-78 | the outcome is `Verdict`: refused exactly when the request must be checked and the cookie state is blank or differs from the header |
| `JwtCsrf.JwtCsrfVerifier.RefreshState` | server/sonar-server/src/main/java/org/sonar/server/authentication/JwtCsrfVerifier.java:80-82 | appends exactly one state cookie with the given state and timeout; earlier cookies unchanged |
| `JwtCsrf.JwtCsrfVerifier.RemoveState` | server/sonar-server/src/main/java/org/sonar/server/authentication/JwtCsrfVerifier.java:84-86 | appends exactly one state cookie with a null value and max age 0; earlier cookies unchanged |
| `JwtCsrf.JwtCsrfVerifier.ShouldRequestBeChecked` | server/sonar-server/src/main/java/org/sonar/server/authentication/JwtCsrfVerifier.java:88-95 | true exactly when the method is an update method and the URI without the context path starts with `/api` and with no legacy prefix |
| `JwtCsrf.JwtCsrfVerifier.IsRailsWsUrl` | server/sonar-server/src/main/java/org/sonar/server/authentication/JwtCsrfVerifier.java:97-104 | the early-return loop yields true exactly when some legacy URL is a prefix of the URI |
| `JwtCsrf.NonUpdateMethodAllowed` | server/sonar-server/src/main/java/org/sonar/server/authentication/JwtCsrfVerifier.java:41 | a method other than POST, PUT or DELETE is allowed whatever the cookie and header tokens are |
| `JwtCsrf.RailsUrlsUnderApi` | server/sonar-server/src/main/java/org/sonar/server/authentication/JwtCsrfVerifier.java:42-54 | every URI with a legacy prefix also starts with `/api` |
| `JwtCsrf.CheckedExactly` | server/sonar-server/src/main/java/org/sonar/server/authentication/JwtCsrfVerifier.java:88-94 | when the URI starts with the context path, a request is checked exactly when it is POST, PUT or DELETE and the rest of the URI starts with `/api` and with none of the ten legacy prefixes |
| `JwtCsrf.NonApiPathAllowed` | server/sonar-server/src/main/java/org/sonar/server/authentication/JwtCsrfVerifier.java:91 | a path outside `/api` is allowed for every method and token |
| `JwtCsrf.CheckedRefusedExactly` | server/sonar-server/src/main/java/org/sonar/server/authentication/JwtCsrfVerifier.java:74-77 | a checked request is refused exactly when the state is null, empty or whitespace only, or differs from the `X-XSRF-TOKEN` header |
| `JwtCsrf.MissingHeaderRefused` | server/sonar-server/src/main/java/org/sonar/server/authentication/JwtCsrfVerifier.java:74-75 | a checked request without the header is refused, whatever the state |
| `JwtCsrf.MatchingStateAllowed` | server/sonar-server/src/main/java/org/sonar/server/authentication/JwtCsrfVerifier.java:75 | a non-blank state that the `X-XSRF-TOKEN` header repeats is allowed, whatever other headers the request carries |
| `JwtCsrf.Base32TokenNotBlank` | server/sonar-server/src/main/java/org/sonar/server/authentication/JwtCsrfVerifier.java:65 | a generated base-32 token is never blank |
| `JwtCsrf.GeneratedStateAllowed` | server/sonar-server/src/main/java/org/sonar/server/authentication/JwtCsrfVerifier.java:62-77 | the value of the cookie `generateState` sends, echoed in the header, passes `verifyState` on every request |
| `JwtCsrf.RemovedStateRefused` | server/sonar-server/src/main/java/org/sonar/server/authentication/JwtCsrfVerifier.java:84-86 | the value of the cookie `removeState` sends never lets a checked request through |
| `JwtCsrf.CreateCookieAttributes` | server/sonar-server/src/main/java/org/sonar/server/authentication/JwtCsrfVerifier.java:106-113 | the cookie is named `XSRF-TOKEN`, has path context path + `/`, is secure exactly when the server is, is not HTTP-only, and carries the given value and max age |
| `JwtCsrf.CreateCookieDeterminedByArguments` | server/sonar-server/src/main/java/org/sonar/server/authentication/JwtCsrfVerifier.java:106-113 | two cookies from one verifier are equal exactly when their state and timeout are |
| `JwtCsrf.LegacyExamples` | server/sonar-server/src/main/java/org/sonar/server/authentication/JwtCsrfVerifier.java:43-54 | `/api/server/version` and `/api/events` are exempt |
| `JwtCsrf.IssuesSearchNotLegacy` | server/sonar-server/src/main/java/org/sonar/server/authentication/JwtCsrfVerifier.java:43-54 | `/api/issues/search` has no legacy prefix |
| `JwtCsrf.IssuesSearchChecked` | server/sonar-server/src/main/java/org/sonar/server/authentication/JwtCsrfVerifier.java:88-92 | a POST to `/sonar/api/issues/search` under context path `/sonar` is checked |
| `JwtCsrf.LoginNotChecked` | server/sonar-server/src/main/java/org/sonar/server/authentication/JwtCsrfVerifier.java:91 | a POST to `/sessions/login` is not checked |
| `StringUtils.FirstOccurrence` | server/sonar-server/src/main/java/org/sonar/server/authentication/JwtCsrfVerifier.java:90 | the index found is an occurrence of the context path with no earlier one; None only when it occurs nowhere |
| `StringUtils.RemoveFirstOfPrefix` | server/sonar-server/src/main/java/org/sonar/server/authentication/JwtCsrfVerifier.java:90 | removing the first occurrence of a prefix leaves the rest of the string |
| `StringUtils.RemoveFirstAbsent` | server/sonar-server/src/main/java/org/sonar/server/authentication/JwtCsrfVerifier.java:90 | a string in which the context path never occurs is left unchanged |

## Left out

- Token generation (`new BigInteger(130, new SecureRandom()).toString(32)`, line 65). It uses a random source and library formatting. `GenerateState` takes the token as a parameter. It requires only what that expression always yields: a non-empty string of the base-32 digits 0-9 and a-v.
- `RequestPath`: `String.replaceFirst` takes a regular expression. The model removes the first literal occurrence of the context path. This matches the source only when the context path has no regex metacharacters.
- Header lookup: servlet containers match header names without regard to case; the model looks the name up exactly.
- Repeated headers: a request carries one value per header name, where `getHeader` returns the first of several.
- Java strings are sequences of UTF-16 code units, while a Dafny `string` is a sequence of Unicode scalar values, so lone surrogates cannot be represented. On well-formed strings, prefix tests, equality and `IsBlank` agree with Java's.
- The servlet API (`HttpServletRequest`, `HttpServletResponse`, `Cookie`) and the platform's `Server` are foreign types. They are replaced by the datatypes and the class in `servlet.dfy`. The `Server` is a fixed value, so its context path and secure flag cannot change between calls.
- `ClusterPropertiesTest.java` and `SearchNodeHealthProviderTest.java` test classes whose source is not part of this model: cluster property parsing and validation, and search-node health. They also depend on network interfaces, hostname resolution and mocks.
- `StartupIndexation.java` is an end-to-end test. It drives external processes, pause files, Elasticsearch locks, log tailing and a timeout.
- `ProjectCardOverall-test.js` is a user-interface rendering test.

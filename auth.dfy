/** Request gating: the CSRF rule of src/auth.js and of main.go, and the
    session check of src/auth.js over a table from session token to expiry
    time. The clock is a parameter; an absent cookie or header is the empty
    string. */
module Auth {
  import opened Text

  // ----- CSRF -----

  /** The methods src/auth.js lets through without the header. */
  predicate IsSafeMethod(m: string)
  {
    m == "GET" || m == "HEAD" || m == "OPTIONS"
  }

  predicate IsApiPath(path: string)
  {
    StartsWith(path, "/api/")
  }

  /** src/auth.js: a request is turned away with 403 when its method is not a
      safe one, its path is under `/api/` and it lacks `X-Requested-With:
      XMLHttpRequest`. */
  predicate CsrfRejects(m: string, path: string, requestedWith: string)
  {
    if !IsSafeMethod(m) && IsApiPath(path) then requestedWith != "XMLHttpRequest" else false
  }

  /** main.go: the same check, applied to POST, PUT and DELETE only. */
  predicate GoCsrfRejects(m: string, path: string, requestedWith: string)
  {
    if (m == "POST" || m == "PUT" || m == "DELETE") && IsApiPath(path) then requestedWith != "XMLHttpRequest"
    else false
  }

  /** The header always lets a request through, under both rules. */
  lemma CsrfHeaderPasses(m: string, path: string)
    ensures !CsrfRejects(m, path, "XMLHttpRequest") && !GoCsrfRejects(m, path, "XMLHttpRequest")
  {
  }

  /** Safe methods and paths outside `/api/` always pass; an unsafe method on
      an `/api/` path without the header is always rejected. */
  lemma CsrfRejectsIff(m: string, path: string, requestedWith: string)
    ensures CsrfRejects(m, path, requestedWith)
        <==> !IsSafeMethod(m) && IsApiPath(path) && requestedWith != "XMLHttpRequest"
  {
  }

  /** Whatever main.go rejects, src/auth.js rejects too. */
  lemma GoCsrfStricter(m: string, path: string, requestedWith: string)
    ensures GoCsrfRejects(m, path, requestedWith) ==> CsrfRejects(m, path, requestedWith)
  {
  }

  /** The two rules agree on the six methods main.go's rule is written for. */
  lemma CsrfRulesAgree(m: string, path: string, requestedWith: string)
    requires m in ["GET", "HEAD", "OPTIONS", "POST", "PUT", "DELETE"]
    ensures CsrfRejects(m, path, requestedWith) == GoCsrfRejects(m, path, requestedWith)
  {
  }

  /** They differ on any other method: a PATCH to an `/api/` path without the
      header is rejected by src/auth.js and passed by main.go. */
  lemma CsrfRulesDifferOnPatch(path: string, requestedWith: string)
    requires IsApiPath(path) && requestedWith != "XMLHttpRequest"
    ensures CsrfRejects("PATCH", path, requestedWith) && !GoCsrfRejects("PATCH", path, requestedWith)
  {
  }

  // ----- Sessions -----

  /** What the authentication middleware does with a request. */
  datatype Outcome = Next | Unauthorized | RedirectToLogin

  /** The paths that bypass the session check. */
  predicate IsLoginPath(path: string)
  {
    path == "/login" || path == "/login.html"
  }

  /** A session is valid when the token is present, has a row, and the row's
      expiry lies in the future. */
  predicate SessionValid(expiresAt: map<string, int>, token: string, now: int)
  {
    token != "" && token in expiresAt && now < expiresAt[token]
  }

  /** The middleware's answer: pass login pages and valid sessions, else 401
      for API paths and a redirect to the login page for the rest. */
  function Decide(expiresAt: map<string, int>, path: string, token: string, now: int): (o: Outcome)
    ensures o == Next <==> IsLoginPath(path) || SessionValid(expiresAt, token, now)
    ensures o == Unauthorized <==> !IsLoginPath(path) && !SessionValid(expiresAt, token, now) && IsApiPath(path)
    ensures o == RedirectToLogin <==> !IsLoginPath(path) && !SessionValid(expiresAt, token, now) && !IsApiPath(path)
  {
    if IsLoginPath(path) then Next
    else if SessionValid(expiresAt, token, now) then Next
    else if IsApiPath(path) then Unauthorized
    else RedirectToLogin
  }

  /** The table after the check of `token` at time `now`: the token's row is
      dropped when it has expired, and nothing else changes. */
  function Expire(expiresAt: map<string, int>, token: string, now: int): (r: map<string, int>)
    ensures forall k :: k in r <==> k in expiresAt && !(k == token && token != "" && now >= expiresAt[k])
    ensures forall k :: k in r ==> r[k] == expiresAt[k]
  {
    if token != "" && token in expiresAt && now >= expiresAt[token] then expiresAt - {token} else expiresAt
  }

  /** The table after a request: login paths skip the lookup altogether. */
  function AfterRequest(expiresAt: map<string, int>, path: string, token: string, now: int): map<string, int>
  {
    if IsLoginPath(path) then expiresAt else Expire(expiresAt, token, now)
  }

  /** A valid session's row and every other token's validity survive the
      check. */
  lemma ExpireKeepsValid(expiresAt: map<string, int>, token: string, now: int, other: string)
    ensures SessionValid(expiresAt, other, now) <==> SessionValid(Expire(expiresAt, token, now), other, now)
    ensures SessionValid(expiresAt, token, now) ==> Expire(expiresAt, token, now) == expiresAt
  {
  }

  /** Checking the same token twice changes nothing more, and an expired
      token stays rejected with its row gone. */
  lemma ExpireIdempotent(expiresAt: map<string, int>, token: string, now: int)
    ensures Expire(Expire(expiresAt, token, now), token, now) == Expire(expiresAt, token, now)
    ensures token != "" && token in expiresAt && now >= expiresAt[token] ==> token !in Expire(expiresAt, token, now)
  {
  }

  /** A session valid now was valid at every earlier time; one rejected now
      stays rejected later. */
  lemma ValidityMonotone(expiresAt: map<string, int>, token: string, earlier: int, now: int)
    requires earlier <= now
    ensures SessionValid(expiresAt, token, now) ==> SessionValid(expiresAt, token, earlier)
    ensures !SessionValid(expiresAt, token, earlier) ==> !SessionValid(expiresAt, token, now)
  {
  }

  /** The session table, updated in place by the middleware. */
  class SessionTable {
    var expiresAt: map<string, int>

    constructor (rows: map<string, int>)
      ensures expiresAt == rows
    {
      expiresAt := rows;
    }

    /** `authMiddleware` for a request to `path` carrying the session cookie
        `token` at time `now`. */
    method Authenticate(path: string, token: string, now: int) returns (o: Outcome)
      modifies this
      ensures o == Decide(old(expiresAt), path, token, now)
      ensures expiresAt == AfterRequest(old(expiresAt), path, token, now)
    {
      if path == "/login" || path == "/login.html" {
        return Next;
      }
      var valid := false;
      if token != "" {
        if token in expiresAt {
          if now < expiresAt[token] {
            valid := true;
          } else {
            expiresAt := expiresAt - {token};
          }
        }
      }
      if !valid {
        if StartsWith(path, "/api/") {
          return Unauthorized;
        } else {
          return RedirectToLogin;
        }
      }
      return Next;
    }
  }

  /** Once a request has been turned away for an expired session, a second
      request with the same token is turned away as well. */
  lemma RejectedStaysRejected(expiresAt: map<string, int>, path: string, token: string, now: int, later: int)
    requires !IsLoginPath(path) && Decide(expiresAt, path, token, now) != Next
    requires now <= later
    ensures Decide(AfterRequest(expiresAt, path, token, now), path, token, later) != Next
  {
    ValidityMonotone(expiresAt, token, now, later);
  }
}

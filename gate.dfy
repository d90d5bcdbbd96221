/** The authentication middleware (auth/requireAuth.js). It reads only the
    `auth_token` cookie, never the Authorization header and never the
    store. It either attaches the token's identity to the request and calls
    the next handler, or answers 401 itself. */
module Gate {
  import opened Base
  import opened Security

  const NOT_AUTHENTICATED := "Not authenticated"
  const INVALID_TOKEN := "Invalid or expired token"

  /** What the middleware decides; a denial is always a 401. */
  datatype Decision = Proceed(user: Identity) | Deny(error: string)

  /** The decision for a request carrying `creds` at time nowSec. */
  function Authenticate(creds: Credentials, jwt: Jwt, nowSec: int): (d: Decision)
    ensures d.Proceed? <==> Truthy(creds.authCookie) && jwt.verify(creds.authCookie.value, nowSec).Some?
    ensures d.Proceed? ==>
      exists exp :: jwt.verify(creds.authCookie.value, nowSec) == Some(Claims(d.user.id, d.user.name, d.user.email, exp))
    ensures !Truthy(creds.authCookie) ==> d == Deny(NOT_AUTHENTICATED)
    ensures Truthy(creds.authCookie) && d.Deny? ==> d == Deny(INVALID_TOKEN)
  {
    var token := creds.authCookie;
    if !Truthy(token) then Deny(NOT_AUTHENTICATED)
    else match jwt.verify(token.value, nowSec)
      case None => Deny(INVALID_TOKEN)
      case Some(c) => Proceed(IdentityOf(c))
  }

  /** The Authorization header plays no part in the decision. */
  lemma HeaderIgnored(cookie: Option<string>, h1: Option<string>, h2: Option<string>, jwt: Jwt, nowSec: int)
    ensures Authenticate(Credentials(cookie, h1), jwt, nowSec) == Authenticate(Credentials(cookie, h2), jwt, nowSec)
  {
  }

  /** A Bearer header without the cookie is turned away as unauthenticated,
      even when it carries a token that verifies. */
  lemma BearerAloneRejected(t: string, jwt: Jwt, nowSec: int)
    ensures Authenticate(Credentials(None, Some("Bearer " + t)), jwt, nowSec) == Deny(NOT_AUTHENTICATED)
  {
  }

  /** The request object, of which the middleware writes only `user`. */
  class Request {
    const credentials: Credentials
    var user: Option<Identity>

    constructor (credentials: Credentials)
      ensures this.credentials == credentials && user == None
    {
      this.credentials := credentials;
      user := None;
    }
  }

  /** Whether `next()` was called, or the 401 the middleware sent instead. */
  datatype Outcome = CalledNext | Responded(status: int, error: string)

  /** `requireAuth(req, res, next)`. */
  method RequireAuth(req: Request, jwt: Jwt, nowSec: int) returns (outcome: Outcome)
    modifies req`user
    ensures outcome.CalledNext? <==> Authenticate(req.credentials, jwt, nowSec).Proceed?
    ensures outcome.CalledNext? ==> req.user == Some(Authenticate(req.credentials, jwt, nowSec).user)
    ensures outcome.Responded? ==>
      outcome == Responded(401, Authenticate(req.credentials, jwt, nowSec).error) && req.user == old(req.user)
  {
    var token := req.credentials.authCookie;
    if !Truthy(token) {
      return Responded(401, NOT_AUTHENTICATED);
    }
    var decoded := jwt.verify(token.value, nowSec);
    if decoded.None? {
      return Responded(401, INVALID_TOKEN);
    }
    req.user := Some(Identity(decoded.value.id, decoded.value.name, decoded.value.email));
    outcome := CalledNext;
  }
}

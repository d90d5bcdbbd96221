/** What the authentication code sees of a request and of the two foreign
    libraries it calls. jsonwebtoken and bcryptjs are not modelled: each is a
    pair of function values, and what the code relies on them for is stated
    as a soundness predicate that the end-to-end lemmas take as a
    precondition. */
module Security {
  import opened Base

  /** The payload of a session token. `jwt.sign({id, name, email}, secret,
      {expiresIn: "30d"})` adds `exp`, in seconds since the epoch. */
  datatype Claims = Claims(id: string, name: string, email: string, exp: int)

  /** `req.user` as the authentication middleware attaches it. */
  datatype Identity = Identity(id: string, name: string, email: string)

  /** The identity part of a token's claims (everything but `exp`). */
  function IdentityOf(c: Claims): Identity
  {
    Identity(c.id, c.name, c.email)
  }

  /** `req.user?.email`: the empty string stands for `undefined`. */
  function CallerEmail(caller: Option<Identity>): (e: string)
    ensures caller.None? ==> e == ""
    ensures caller.Some? ==> e == caller.value.email
  {
    match caller
    case None => ""
    case Some(u) => u.email
  }

  /** The two places a token can come from: `req.cookies.auth_token` and
      the `Authorization` header. */
  datatype Credentials = Credentials(authCookie: Option<string>, authorization: Option<string>)

  /** What a response does to the client's `auth_token` cookie. */
  datatype CookieOp = KeepCookie | SetAuthCookie(token: string, maxAgeMs: int) | ClearAuthCookie

  /** The client's copy of the `auth_token` cookie after it receives a
      response carrying `op`. */
  function ApplyCookie(jar: Option<string>, op: CookieOp): (r: Option<string>)
    ensures op.KeepCookie? ==> r == jar
    ensures op.SetAuthCookie? ==> r == Some(op.token)
    ensures op.ClearAuthCookie? ==> r == None
  {
    match op
    case KeepCookie => jar
    case SetAuthCookie(t, _) => Some(t)
    case ClearAuthCookie => None
  }

  /** jsonwebtoken, closed over the process-wide `JWT_SECRET`:
      `sign(claims)` and `verify(token, nowSeconds)`. `verify` answers None
      for a bad signature, a malformed token or an expired one. */
  datatype Jwt = Jwt(sign: Claims -> string, verify: (string, int) -> Option<Claims>)

  /** A token the server signed is a non-empty string (three dot-separated
      parts), verifies to its own claims until `exp`, and is rejected from
      `exp` on. */
  ghost predicate SoundJwt(jwt: Jwt)
  {
    && (forall c: Claims :: jwt.sign(c) != "")
    && (forall c: Claims, now: int ::
          jwt.verify(jwt.sign(c), now) == if now < c.exp then Some(c) else None)
  }

  /** bcryptjs: `hash(password, rounds)` and `compare(password, hash)`. */
  datatype Bcrypt = Bcrypt(hash: (string, nat) -> string, compare: (string, string) -> bool)

  /** A password matches its own hash. */
  ghost predicate SoundBcrypt(bcrypt: Bcrypt)
  {
    forall p: string, rounds: nat :: bcrypt.compare(p, bcrypt.hash(p, rounds))
  }
}

/** The token-issuing authentication routes: signup, login, logout and the
    session check (auth/authRoutes.js). Signup and login answer with the
    public view of the user and set the `auth_token` cookie. */
module Auth {
  import opened Base
  import opened Security
  import opened Store

  /** The cookie's maxAge: 30 days in milliseconds. */
  const THIRTY_DAYS_MS: int := 30 * 24 * 60 * 60 * 1000
  /** The token's lifetime, `expiresIn: "30d"`, in seconds. */
  const TOKEN_LIFETIME_S: int := 30 * 24 * 60 * 60
  const BCRYPT_ROUNDS: nat := 10
  const MIN_PASSWORD_LENGTH: nat := 12
  const BEARER: string := "Bearer "

  const MISSING_SIGNUP_FIELDS := "Name, email and password are required"
  const WEAK_PASSWORD := "Password must be at least 12 characters long."
  const EMAIL_IN_USE := "Email already in use"
  const MISSING_LOGIN_FIELDS := "Email and password are required"
  const INVALID_CREDENTIALS := "Invalid email or password"

  /** The reply of signup and login. A user view has no password field. */
  datatype AuthReply =
    | Rejected(status: int, error: string)
    | Accepted(status: int, message: string, user: UserView, cookie: CookieOp)

  /** The reply of `/check`. */
  datatype CheckReply = CheckReply(status: int, authenticated: bool, user: Option<UserView>)

  const NOT_AUTHENTICATED := CheckReply(401, false, None)

  /** The cookie lifetime is 2,592,000,000 ms, the same 30 days as the token. */
  lemma CookieLifetime()
    ensures THIRTY_DAYS_MS == 2_592_000_000
    ensures THIRTY_DAYS_MS == 1000 * TOKEN_LIFETIME_S
  {
  }

  /** The claims `createToken` signs for a user at time nowSec. */
  function TokenClaims(u: User, nowSec: int): Claims
  {
    Claims(u.id, u.name, u.email, nowSec + TOKEN_LIFETIME_S)
  }

  /** `createToken(user)`. */
  function CreateToken(jwt: Jwt, u: User, nowSec: int): (t: string)
    ensures SoundJwt(jwt) ==> t != ""
    ensures SoundJwt(jwt) ==> jwt.verify(t, nowSec) == Some(Claims(u.id, u.name, u.email, nowSec + TOKEN_LIFETIME_S))
  {
    jwt.sign(TokenClaims(u, nowSec))
  }

  /** A token made by createToken decodes to exactly the user's id, name and
      email for 30 days, and is rejected from then on. */
  lemma CreateTokenDecodes(jwt: Jwt, u: User, nowSec: int, t: int)
    requires SoundJwt(jwt)
    ensures t < nowSec + TOKEN_LIFETIME_S ==>
      jwt.verify(CreateToken(jwt, u, nowSec), t) == Some(Claims(u.id, u.name, u.email, nowSec + 2_592_000))
    ensures t >= nowSec + TOKEN_LIFETIME_S ==>
      jwt.verify(CreateToken(jwt, u, nowSec), t) == None
  {
    assert jwt.verify(jwt.sign(TokenClaims(u, nowSec)), t)
      == if t < TokenClaims(u, nowSec).exp then Some(TokenClaims(u, nowSec)) else None;
  }

  /** `getTokenFromRequest`: a non-empty cookie wins; otherwise a header
      that starts with the case-sensitive "Bearer " gives what follows it;
      otherwise there is no token. */
  function TokenFromRequest(c: Credentials): (t: Option<string>)
    ensures Truthy(c.authCookie) ==> t == c.authCookie
    ensures !Truthy(c.authCookie) ==>
      (t.Some? <==> c.authorization.Some? && StartsWith(c.authorization.value, BEARER))
    ensures !Truthy(c.authCookie) && t.Some? ==> c.authorization == Some(BEARER + t.value)
  {
    if Truthy(c.authCookie) then c.authCookie
    else if Truthy(c.authorization) && StartsWith(c.authorization.value, BEARER) then
      var h := c.authorization.value;
      assert h == h[..|BEARER|] + h[|BEARER|..];
      Some(h[|BEARER|..])
    else None
  }

  /** Without a cookie, `Authorization: Bearer t` yields exactly t. */
  lemma BearerYieldsToken(cookie: Option<string>, t: string)
    requires !Truthy(cookie)
    ensures TokenFromRequest(Credentials(cookie, Some(BEARER + t))) == Some(t)
  {
    var h := BEARER + t;
    assert h[..|BEARER|] == BEARER && h[|BEARER|..] == t;
  }

  /** The prefix test is case-sensitive: `bearer t` yields no token. */
  lemma LowerCaseBearerRejected(t: string)
    ensures TokenFromRequest(Credentials(None, Some("bearer " + t))) == None
  {
    var h := "bearer " + t;
    assert h[0] == 'b' != BEARER[0];
  }

  /** The claims of the request's token, when it has one that verifies. */
  function VerifiedClaims(jwt: Jwt, creds: Credentials, nowSec: int): Option<Claims>
  {
    var t := TokenFromRequest(creds);
    if Truthy(t) then jwt.verify(t.value, nowSec) else None
  }

  /** POST /signup. Checks run in order: a missing field (400), a password
      shorter than 12 characters (400), an email already registered (409);
      none of them writes. Otherwise one user is inserted with the hashed
      password, an empty bio and no picture, and the reply is 201 with the
      user's public view and a 30-day auth cookie. */
  method Signup(db: Db, jwt: Jwt, bcrypt: Bcrypt,
                name: Option<string>, email: Option<string>, password: Option<string>,
                newId: string, nowSec: int) returns (r: AuthReply)
    requires db.Valid()
    requires IsObjectId(newId) && !HasKey(db.users, UserId, newId)
    modifies db`users
    ensures db.Valid()
    ensures !(Truthy(name) && Truthy(email) && Truthy(password)) ==>
      r == Rejected(400, MISSING_SIGNUP_FIELDS) && db.users == old(db.users)
    ensures Truthy(name) && Truthy(email) && Truthy(password) && |password.value| < MIN_PASSWORD_LENGTH ==>
      r == Rejected(400, WEAK_PASSWORD) && db.users == old(db.users)
    ensures (Truthy(name) && Truthy(email) && Truthy(password) && |password.value| >= MIN_PASSWORD_LENGTH
             && HasKey(old(db.users), UserEmail, email.value)) ==>
      r == Rejected(409, EMAIL_IN_USE) && db.users == old(db.users)
    ensures (Truthy(name) && Truthy(email) && Truthy(password) && |password.value| >= MIN_PASSWORD_LENGTH
             && !HasKey(old(db.users), UserEmail, email.value)) ==>
      var u := User(newId, name.value, email.value, bcrypt.hash(password.value, BCRYPT_ROUNDS), Some(""), None);
      && db.users == old(db.users) + [u]
      && r == Accepted(201, "User created", View(u), SetAuthCookie(CreateToken(jwt, u, nowSec), THIRTY_DAYS_MS))
  {
    if !Truthy(name) || !Truthy(email) || !Truthy(password) {
      return Rejected(400, MISSING_SIGNUP_FIELDS);
    }
    if |password.value| < MIN_PASSWORD_LENGTH {
      return Rejected(400, WEAK_PASSWORD);
    }
    var existing := FirstWithKey(db.users, UserEmail, email.value);
    if existing.Some? {
      return Rejected(409, EMAIL_IN_USE);
    }
    var hashed := bcrypt.hash(password.value, BCRYPT_ROUNDS);
    var u := User(newId, name.value, email.value, hashed, Some(""), None);
    AppendKeepsDistinct(db.users, UserId, u);
    AppendKeepsDistinct(db.users, UserEmail, u);
    db.users := db.users + [u];
    var token := CreateToken(jwt, u, nowSec);
    r := Accepted(201, "User created", View(u), SetAuthCookie(token, THIRTY_DAYS_MS));
  }

  /** POST /login. A missing field gives 400. An unknown email and a wrong
      password give the same 401 reply. Otherwise the reply is 200 with the
      stored user's public view and a fresh 30-day auth cookie. The users
      collection is only read. */
  method Login(db: Db, jwt: Jwt, bcrypt: Bcrypt,
               email: Option<string>, password: Option<string>, nowSec: int) returns (r: AuthReply)
    ensures !(Truthy(email) && Truthy(password)) ==> r == Rejected(400, MISSING_LOGIN_FIELDS)
    ensures Truthy(email) && Truthy(password) && !HasKey(db.users, UserEmail, email.value) ==>
      r == Rejected(401, INVALID_CREDENTIALS)
    ensures Truthy(email) && Truthy(password) && HasKey(db.users, UserEmail, email.value) ==>
      var u := db.users[FirstWithKey(db.users, UserEmail, email.value).value];
      r == if bcrypt.compare(password.value, u.password)
           then Accepted(200, "Login successful", View(u), SetAuthCookie(CreateToken(jwt, u, nowSec), THIRTY_DAYS_MS))
           else Rejected(401, INVALID_CREDENTIALS)
  {
    if !Truthy(email) || !Truthy(password) {
      return Rejected(400, MISSING_LOGIN_FIELDS);
    }
    var found := FirstWithKey(db.users, UserEmail, email.value);
    if found.None? {
      return Rejected(401, INVALID_CREDENTIALS);
    }
    var u := db.users[found.value];
    var isMatch := bcrypt.compare(password.value, u.password);
    if !isMatch {
      return Rejected(401, INVALID_CREDENTIALS);
    }
    var token := CreateToken(jwt, u, nowSec);
    r := Accepted(200, "Login successful", View(u), SetAuthCookie(token, THIRTY_DAYS_MS));
  }

  /** POST /logout: clears the cookie and changes nothing on the server. */
  function Logout(): (r: (int, string, CookieOp))
    ensures r.2 == ClearAuthCookie
  {
    (200, "Logged out successfully", ClearAuthCookie)
  }

  /** GET /check. Without a token, with a token that does not verify, with
      claims whose id is not an ObjectId, or with no user of that id, the
      reply is 401 `{authenticated: false}`. Otherwise it is the live user
      record of that id, without its password. */
  method Check(db: Db, jwt: Jwt, creds: Credentials, nowSec: int) returns (r: CheckReply)
    ensures VerifiedClaims(jwt, creds, nowSec).None? ==> r == NOT_AUTHENTICATED
    ensures VerifiedClaims(jwt, creds, nowSec).Some? ==>
      var id := VerifiedClaims(jwt, creds, nowSec).value.id;
      && (r.authenticated <==> IsObjectId(id) && HasKey(db.users, UserId, id))
      && (!r.authenticated ==> r == NOT_AUTHENTICATED)
      && (r.authenticated ==> r == CheckReply(200, true, Some(View(db.users[FirstWithKey(db.users, UserId, id).value]))))
  {
    var token := TokenFromRequest(creds);
    if !Truthy(token) {
      return NOT_AUTHENTICATED;
    }
    var decoded := jwt.verify(token.value, nowSec);
    if decoded.None? {
      return NOT_AUTHENTICATED;
    }
    var id := decoded.value.id;
    if !IsObjectId(id) {
      return NOT_AUTHENTICATED;
    }
    var found := FirstWithKey(db.users, UserId, id);
    if found.None? {
      return NOT_AUTHENTICATED;
    }
    r := CheckReply(200, true, Some(View(db.users[found.value])));
  }
}

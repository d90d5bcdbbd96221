/** Requests in sequence against one store: the session a signup opens,
    what login and `/check` then see, and what logout leaves behind. */
module Sessions {
  import opened Base
  import opened Security
  import opened Store
  import Auth
  import Gate

  /** The cookie signup and login set passes the gate, as the user's id,
      name and email, for 30 days, and is refused from then on. */
  lemma IssuedCookiePassesGate(jwt: Jwt, u: User, nowSec: int, t: int, header: Option<string>)
    requires SoundJwt(jwt)
    ensures Gate.Authenticate(Credentials(Some(Auth.CreateToken(jwt, u, nowSec)), header), jwt, t)
      == if t < nowSec + Auth.TOKEN_LIFETIME_S then Gate.Proceed(Identity(u.id, u.name, u.email))
         else Gate.Deny(Gate.INVALID_TOKEN)
  {
    Auth.CreateTokenDecodes(jwt, u, nowSec, t);
    assert Auth.CreateToken(jwt, u, nowSec) != "";
  }

  /** After logout the browser holds no cookie, so the gate answers
      "Not authenticated" whatever header comes along. */
  lemma LogoutEndsSession(jar: Option<string>, header: Option<string>, jwt: Jwt, nowSec: int)
    ensures Gate.Authenticate(Credentials(ApplyCookie(jar, Auth.Logout().2), header), jwt, nowSec)
      == Gate.Deny(Gate.NOT_AUTHENTICATED)
  {
  }

  /** Signup on an empty store, login with the same password, then `/check`
      with the cookie login set, within 30 days: the three replies agree on
      the same user, and a second signup with that email is refused. */
  method SignupLoginCheck(jwt: Jwt, bcrypt: Bcrypt, name: string, email: string, password: string,
                          newId: string, otherId: string, nowSec: int, later: int)
    returns (signup: Auth.AuthReply, login: Auth.AuthReply, check: Auth.CheckReply, again: Auth.AuthReply)
    requires SoundJwt(jwt) && SoundBcrypt(bcrypt)
    requires name != "" && email != "" && |password| >= Auth.MIN_PASSWORD_LENGTH
    requires IsObjectId(newId) && IsObjectId(otherId) && otherId != newId
    requires nowSec <= later < nowSec + Auth.TOKEN_LIFETIME_S
    ensures signup.Accepted? && signup.status == 201
    ensures signup.user == UserView(newId, name, email, Some(""), None)
    ensures login.Accepted? && login.status == 200 && login.user == signup.user
    ensures check == Auth.CheckReply(200, true, Some(signup.user))
    ensures again == Auth.Rejected(409, Auth.EMAIL_IN_USE)
  {
    var db := new Db();
    signup := Auth.Signup(db, jwt, bcrypt, Some(name), Some(email), Some(password), newId, nowSec);
    var u := User(newId, name, email, bcrypt.hash(password, Auth.BCRYPT_ROUNDS), Some(""), None);
    assert db.users == [u];
    assert FirstWithKey(db.users, UserEmail, email) == Some(0);
    login := Auth.Login(db, jwt, bcrypt, Some(email), Some(password), nowSec);
    var creds := Credentials(ApplyCookie(None, login.cookie), None);
    Auth.CreateTokenDecodes(jwt, u, nowSec, later);
    assert Auth.CreateToken(jwt, u, nowSec) != "";
    assert Auth.TokenFromRequest(creds) == Some(Auth.CreateToken(jwt, u, nowSec));
    assert FirstWithKey(db.users, UserId, newId) == Some(0);
    check := Auth.Check(db, jwt, creds, later);
    again := Auth.Signup(db, jwt, bcrypt, Some(name), Some(email), Some(password), otherId, nowSec);
  }
}

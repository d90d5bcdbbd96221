/** The older signup and login routes (routes/authRoutes.js), which issue no
    token and set no cookie. Signup stores only the name, the email and the
    hash; login answers with the id, name and email alone. */
module LegacyAuth {
  import opened Base
  import opened Security
  import opened Store
  import Auth

  /** The reply of signup: 201 with the new id, name and email, or an error. */
  datatype SignupReply =
    | SignupFailed(status: int, error: string)
    | Created(status: int, message: string, userId: string, name: string, email: string)

  /** The reply of login: the user's id, name and email, or an error. */
  datatype LoginReply =
    | LoginFailed(status: int, error: string)
    | LoggedIn(status: int, message: string, user: Identity)

  /** POST /signup: the same three checks in the same order as the
      token-issuing route, none of which writes; then one insert of
      {name, email, hashed password}. */
  method Signup(db: Db, bcrypt: Bcrypt,
                name: Option<string>, email: Option<string>, password: Option<string>,
                newId: string) returns (r: SignupReply)
    requires db.Valid()
    requires IsObjectId(newId) && !HasKey(db.users, UserId, newId)
    modifies db`users
    ensures db.Valid()
    ensures !(Truthy(name) && Truthy(email) && Truthy(password)) ==>
      r == SignupFailed(400, Auth.MISSING_SIGNUP_FIELDS) && db.users == old(db.users)
    ensures Truthy(name) && Truthy(email) && Truthy(password) && |password.value| < Auth.MIN_PASSWORD_LENGTH ==>
      r == SignupFailed(400, Auth.WEAK_PASSWORD) && db.users == old(db.users)
    ensures (Truthy(name) && Truthy(email) && Truthy(password) && |password.value| >= Auth.MIN_PASSWORD_LENGTH
             && HasKey(old(db.users), UserEmail, email.value)) ==>
      r == SignupFailed(409, Auth.EMAIL_IN_USE) && db.users == old(db.users)
    ensures (Truthy(name) && Truthy(email) && Truthy(password) && |password.value| >= Auth.MIN_PASSWORD_LENGTH
             && !HasKey(old(db.users), UserEmail, email.value)) ==>
      && db.users == old(db.users) + [User(newId, name.value, email.value,
                                           bcrypt.hash(password.value, Auth.BCRYPT_ROUNDS), None, None)]
      && r == Created(201, "User created", newId, name.value, email.value)
  {
    if !Truthy(name) || !Truthy(email) || !Truthy(password) {
      return SignupFailed(400, Auth.MISSING_SIGNUP_FIELDS);
    }
    if |password.value| < Auth.MIN_PASSWORD_LENGTH {
      return SignupFailed(400, Auth.WEAK_PASSWORD);
    }
    var existing := FirstWithKey(db.users, UserEmail, email.value);
    if existing.Some? {
      return SignupFailed(409, Auth.EMAIL_IN_USE);
    }
    var hashed := bcrypt.hash(password.value, Auth.BCRYPT_ROUNDS);
    var u := User(newId, name.value, email.value, hashed, None, None);
    AppendKeepsDistinct(db.users, UserId, u);
    AppendKeepsDistinct(db.users, UserEmail, u);
    db.users := db.users + [u];
    r := Created(201, "User created", newId, name.value, email.value);
  }

  /** POST /login: 400 for a missing field, one identical 401 for an unknown
      email and for a wrong password, and otherwise the stored user's id,
      name and email. The users collection is only read. */
  method Login(db: Db, bcrypt: Bcrypt, email: Option<string>, password: Option<string>)
    returns (r: LoginReply)
    ensures !(Truthy(email) && Truthy(password)) ==> r == LoginFailed(400, Auth.MISSING_LOGIN_FIELDS)
    ensures Truthy(email) && Truthy(password) && !HasKey(db.users, UserEmail, email.value) ==>
      r == LoginFailed(401, Auth.INVALID_CREDENTIALS)
    ensures Truthy(email) && Truthy(password) && HasKey(db.users, UserEmail, email.value) ==>
      var u := db.users[FirstWithKey(db.users, UserEmail, email.value).value];
      r == if bcrypt.compare(password.value, u.password)
           then LoggedIn(200, "Login successful", Identity(u.id, u.name, u.email))
           else LoginFailed(401, Auth.INVALID_CREDENTIALS)
  {
    if !Truthy(email) || !Truthy(password) {
      return LoginFailed(400, Auth.MISSING_LOGIN_FIELDS);
    }
    var found := FirstWithKey(db.users, UserEmail, email.value);
    if found.None? {
      return LoginFailed(401, Auth.INVALID_CREDENTIALS);
    }
    var u := db.users[found.value];
    if !bcrypt.compare(password.value, u.password) {
      return LoginFailed(401, Auth.INVALID_CREDENTIALS);
    }
    r := LoggedIn(200, "Login successful", Identity(u.id, u.name, u.email));
  }
}

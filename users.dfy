/** The profile update handler (controllers/userController.js). It collects
    the fields to set one by one, refuses an email another user holds, and
    answers with the updated user without its password. */
module Users {
  import opened Base
  import opened Store

  const NOT_LOGGED_IN := "Unauthorized: User not logged in."
  const USER_NOT_FOUND := "User not found."
  const EMAIL_TAKEN := "Email already taken."
  const NO_FIELDS := "No fields to update."
  const SERVER_ERROR := "Internal server error during profile update."
  const PROFILE_UPDATED := "Profile updated successfully"
  const UPLOAD_PREFIX := "/uploads/"

  /** The multipart body: None for a field that was not sent, and the stored
      name of the uploaded picture, if any. */
  datatype ProfileForm = ProfileForm(
    name: Option<string>,
    email: Option<string>,
    aboutMe: Option<string>,
    upload: Option<string>)

  /** The `$set` document; None for a key it does not have. */
  datatype UpdateFields = UpdateFields(
    name: Option<string>,
    email: Option<string>,
    aboutMe: Option<string>,
    profilePicUrl: Option<string>)

  /** `Object.keys(updateFields).length === 0`. */
  predicate NoFields(f: UpdateFields)
  {
    f.name.None? && f.email.None? && f.aboutMe.None? && f.profilePicUrl.None?
  }

  /** What the request asks to change for the user `current`: a non-empty
      name; aboutMe whenever it was sent, even empty (that clears the bio);
      a non-empty email only when it differs from the current one; the
      picture's path when a file came with the request. */
  function RequestedFields(form: ProfileForm, current: User): (f: UpdateFields)
    ensures f.name.Some? <==> Truthy(form.name)
    ensures f.aboutMe == form.aboutMe
    ensures f.email.Some? <==> Truthy(form.email) && form.email.value != current.email
    ensures f.email.Some? ==> f.email == form.email
    ensures f.name.Some? ==> f.name == form.name
    ensures f.profilePicUrl.Some? <==> form.upload.Some?
    ensures form.upload.Some? ==> f.profilePicUrl == Some(UPLOAD_PREFIX + form.upload.value)
  {
    UpdateFields(
      if Truthy(form.name) then form.name else None,
      if Truthy(form.email) && form.email.value != current.email then form.email else None,
      form.aboutMe,
      if form.upload.Some? then Some(UPLOAD_PREFIX + form.upload.value) else None)
  }

  /** `$set: updateFields` on one user. */
  function ApplyFields(u: User, f: UpdateFields): (v: User)
    ensures v.id == u.id && v.password == u.password
    ensures v.name == (if f.name.Some? then f.name.value else u.name)
    ensures v.email == (if f.email.Some? then f.email.value else u.email)
    ensures v.aboutMe == (if f.aboutMe.Some? then f.aboutMe else u.aboutMe)
    ensures v.profilePicUrl == (if f.profilePicUrl.Some? then f.profilePicUrl else u.profilePicUrl)
    ensures NoFields(f) ==> v == u
  {
    u.(name := if f.name.Some? then f.name.value else u.name,
       email := if f.email.Some? then f.email.value else u.email,
       aboutMe := if f.aboutMe.Some? then f.aboutMe else u.aboutMe,
       profilePicUrl := if f.profilePicUrl.Some? then f.profilePicUrl else u.profilePicUrl)
  }

  /** Rewriting one user with fields whose email, if any, nobody holds
      keeps ids ObjectIds and ids and emails unique. */
  lemma ApplyKeepsUsersValid(users: seq<User>, i: nat, f: UpdateFields)
    requires UsersValid(users) && i < |users|
    requires f.email.Some? ==> !HasKey(users, UserEmail, f.email.value)
    ensures UsersValid(users[i := ApplyFields(users[i], f)])
  {
    var v := ApplyFields(users[i], f);
    ReplaceKeepsDistinct(users, UserId, i, v);
    ReplaceKeepsDistinct(users, UserEmail, i, v);
  }

  /** PATCH /profile for the user whose id the token carries. An empty id
      gives 401; an id that is not an ObjectId makes `new ObjectId` throw,
      which the handler turns into 500; an unknown id gives 404; a new email
      another user holds gives 409; a request with nothing to change gives
      400. None of these writes. Otherwise exactly that user is rewritten
      and the reply carries the updated user without the password. */
  method UpdateUserProfile(db: Db, userId: string, form: ProfileForm) returns (r: Reply<(string, UserView)>)
    requires db.Valid()
    modifies db`users
    ensures db.Valid()
    ensures userId == "" ==> r == Err(401, NOT_LOGGED_IN) && db.users == old(db.users)
    ensures userId != "" && !IsObjectId(userId) ==> r == Err(500, SERVER_ERROR) && db.users == old(db.users)
    ensures IsObjectId(userId) && !HasKey(old(db.users), UserId, userId) ==>
      r == Err(404, USER_NOT_FOUND) && db.users == old(db.users)
    ensures IsObjectId(userId) && HasKey(old(db.users), UserId, userId) ==>
      var i := FirstWithKey(old(db.users), UserId, userId).value;
      var f := RequestedFields(form, old(db.users)[i]);
      if f.email.Some? && HasKey(old(db.users), UserEmail, f.email.value) then
        r == Err(409, EMAIL_TAKEN) && db.users == old(db.users)
      else if NoFields(f) then
        r == Err(400, NO_FIELDS) && db.users == old(db.users)
      else
        && db.users == old(db.users)[i := ApplyFields(old(db.users)[i], f)]
        && r == Ok(200, (PROFILE_UPDATED, View(db.users[i])))
  {
    if userId == "" {
      return Err(401, NOT_LOGGED_IN);
    }
    if !IsObjectId(userId) {
      return Err(500, SERVER_ERROR);
    }
    var found := FirstWithKey(db.users, UserId, userId);
    if found.None? {
      return Err(404, USER_NOT_FOUND);
    }
    var i := found.value;
    var currentUser := db.users[i];

    var name: Option<string> := None;
    var email: Option<string> := None;
    var aboutMe: Option<string> := None;
    var profilePicUrl: Option<string> := None;
    if Truthy(form.name) {
      name := form.name;
    }
    if form.aboutMe.Some? {
      aboutMe := form.aboutMe;
    }
    if Truthy(form.email) && form.email.value != currentUser.email {
      var existingUser := FirstWithKey(db.users, UserEmail, form.email.value);
      if existingUser.Some? {
        return Err(409, EMAIL_TAKEN);
      }
      email := form.email;
    }
    if form.upload.Some? {
      profilePicUrl := Some(UPLOAD_PREFIX + form.upload.value);
    }
    var fields := UpdateFields(name, email, aboutMe, profilePicUrl);
    if NoFields(fields) {
      return Err(400, NO_FIELDS);
    }
    ApplyKeepsUsersValid(db.users, i, fields);
    var updated := ApplyFields(currentUser, fields);
    db.users := db.users[i := updated];
    r := Ok(200, (PROFILE_UPDATED, View(updated)));
  }

  /** Sending one's own current email is never a conflict and on its own is
      not something to update. */
  lemma OwnEmailIsNoChange(form: ProfileForm, current: User)
    requires form.email == Some(current.email)
    ensures RequestedFields(form, current).email.None?
    ensures form.name.None? && form.aboutMe.None? && form.upload.None? ==> NoFields(RequestedFields(form, current))
  {
  }
}

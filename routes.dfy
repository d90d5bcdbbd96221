/** The router (routes.js): the upload filter and limits, and the table of
    routes with the middleware each one runs before its handler. */
module Routes {
  import opened Base
  import opened Security
  import opened Gate

  const ALLOWED_TYPES: seq<string> := ["image/jpeg", "image/png", "image/webp"]
  const FILE_TYPE_ERROR := "Only JPG, PNG, WEBP allowed"
  /** `limits.fileSize`, in bytes. */
  const MAX_FILE_SIZE: nat := 5 * 1024 * 1024
  const MAX_RECIPE_IMAGES: nat := 3

  /** One uploaded part: the form field it came under, its MIME type and
      its size in bytes. */
  datatype FilePart = FilePart(field: string, mimetype: string, size: nat)

  /** What `fileFilter` tells multer. */
  datatype FilterVerdict = AcceptFile | RejectFile(error: string)

  /** `fileFilter`: accept exactly JPEG, PNG and WebP images. */
  function FileFilter(mimetype: string): (v: FilterVerdict)
    ensures v.AcceptFile? <==> mimetype == "image/jpeg" || mimetype == "image/png" || mimetype == "image/webp"
    ensures v.RejectFile? ==> v.error == FILE_TYPE_ERROR
  {
    if mimetype in ALLOWED_TYPES then AcceptFile else RejectFile(FILE_TYPE_ERROR)
  }

  /** The per-file limit is 5,242,880 bytes. */
  lemma MaxFileSize()
    ensures MAX_FILE_SIZE == 5_242_880
  {
  }

  /** `upload.array(field, maxCount)` or `upload.single(field)`. */
  datatype Upload = ArrayUpload(field: string, maxCount: nat) | SingleUpload(field: string)

  /** Whether multer lets the request's files through: every part under the
      expected field, of an allowed type, within the size limit, and no more
      parts than the field allows. */
  predicate UploadAccepts(u: Upload, files: seq<FilePart>)
  {
    && |files| <= (if u.ArrayUpload? then u.maxCount else 1)
    && forall i :: 0 <= i < |files| ==>
         && files[i].field == u.field
         && FileFilter(files[i].mimetype).AcceptFile?
         && files[i].size <= MAX_FILE_SIZE
  }

  /** The middleware a route runs, in order, before its handler. */
  datatype Guard = AttachDb | RequireAuth | UploadFiles(upload: Upload)

  datatype Verb = GET | POST | PUT | DELETE

  /** A path segment: fixed text, or a `:name` parameter. */
  datatype Segment = Lit(text: string) | Param(name: string)

  datatype Handler =
    | GetAllRecipes | GetFeaturedRecipes | GetRecipeByTitle | GetCommentsForRecipe
    | CreateRecipe | UpdateRecipe | DeleteRecipe
    | AddFavorite | GetFavorites | RemoveFavorite
    | AddComment | SubscribeNewsletter
    | UpdateUserProfile | DeleteUserProfile | UpdatePassword
    | GetMealPlan | SaveMealPlan

  datatype Route = Route(verb: Verb, path: seq<Segment>, guards: seq<Guard>, handler: Handler)

  /** The routes in registration order. */
  const ROUTES: seq<Route> := [
    Route(GET, [Lit("recipes")], [AttachDb], GetAllRecipes),
    Route(GET, [Lit("recipes"), Lit("featured")], [AttachDb], GetFeaturedRecipes),
    Route(GET, [Lit("recipes"), Param("title")], [AttachDb], GetRecipeByTitle),
    Route(GET, [Lit("comments"), Param("title")], [AttachDb], GetCommentsForRecipe),
    Route(POST, [Lit("recipes")],
          [AttachDb, RequireAuth, UploadFiles(ArrayUpload("images", MAX_RECIPE_IMAGES))], CreateRecipe),
    Route(PUT, [Lit("recipes"), Param("title")],
          [AttachDb, RequireAuth, UploadFiles(ArrayUpload("images", MAX_RECIPE_IMAGES))], UpdateRecipe),
    Route(DELETE, [Lit("recipes"), Param("title")], [AttachDb, RequireAuth], DeleteRecipe),
    Route(POST, [Lit("favorites"), Param("title")], [AttachDb, RequireAuth], AddFavorite),
    Route(GET, [Lit("favorites")], [AttachDb, RequireAuth], GetFavorites),
    Route(DELETE, [Lit("favorites"), Param("title")], [AttachDb, RequireAuth], RemoveFavorite),
    Route(POST, [Lit("comments"), Param("title")], [AttachDb, RequireAuth], AddComment),
    Route(POST, [Lit("newsletter"), Lit("subscribe")], [AttachDb], SubscribeNewsletter),
    Route(PUT, [Lit("users"), Lit("profile")],
          [AttachDb, RequireAuth, UploadFiles(SingleUpload("profilePicture"))], UpdateUserProfile),
    Route(DELETE, [Lit("users"), Lit("profile")], [RequireAuth], DeleteUserProfile),
    Route(PUT, [Lit("users"), Lit("password")], [RequireAuth], UpdatePassword),
    Route(GET, [Lit("meal-plans"), Param("weekStartDate")], [AttachDb, RequireAuth], GetMealPlan),
    Route(PUT, [Lit("meal-plans")], [AttachDb, RequireAuth], SaveMealPlan)
  ]

  /** ASCII lower case of one character; every other character is kept. */
  function LowerChar(c: char): (d: char)
    ensures 'A' <= c <= 'Z' ==> d as int == c as int + 32
    ensures !('A' <= c <= 'Z') ==> d == c
  {
    if 'A' <= c <= 'Z' then (c as int + 32) as char else c
  }

  /** ASCII lower case of a string. The route literals are ASCII, and a
      case-insensitive regular expression folds no other character onto an
      ASCII one, so comparing lower cases is how the router compares. */
  function Lower(s: string): (r: string)
    ensures |r| == |s|
    ensures forall i :: 0 <= i < |s| ==> r[i] == LowerChar(s[i])
  {
    seq(|s|, i requires 0 <= i < |s| => LowerChar(s[i]))
  }

  /** Whether a route's pattern matches a request: same verb, same number
      of segments, fixed segments equal up to case (`express.Router()` is
      not case-sensitive by default), parameters non-empty. */
  predicate Matches(r: Route, verb: Verb, path: seq<string>)
  {
    && r.verb == verb
    && |r.path| == |path|
    && forall i :: 0 <= i < |path| ==>
         (if r.path[i].Lit? then Lower(path[i]) == Lower(r.path[i].text) else path[i] != "")
  }

  /** The index of the first registered route that matches. */
  function Dispatch(routes: seq<Route>, verb: Verb, path: seq<string>): (r: Option<nat>)
    ensures r.Some? ==> r.value < |routes| && Matches(routes[r.value], verb, path)
    ensures r.Some? ==> forall j :: 0 <= j < r.value ==> !Matches(routes[j], verb, path)
    ensures r.None? ==> forall j :: 0 <= j < |routes| ==> !Matches(routes[j], verb, path)
  {
    if |routes| == 0 then None
    else if Matches(routes[0], verb, path) then Some(0)
    else match Dispatch(routes[1..], verb, path)
      case None => None
      case Some(i) => Some(i + 1)
  }

  /** A matching route that no earlier route matches is the one chosen. */
  lemma DispatchAt(routes: seq<Route>, verb: Verb, path: seq<string>, i: nat)
    requires i < |routes| && Matches(routes[i], verb, path)
    requires forall j :: 0 <= j < i ==> !Matches(routes[j], verb, path)
    ensures Dispatch(routes, verb, path) == Some(i)
  {
    var d := Dispatch(routes, verb, path);
    assert d.Some?;
    assert !(d.value < i) && !(d.value > i);
  }

  /** Where a request stops: the handler ran, the gate answered 401, or
      multer refused the files. */
  datatype Stage = RanHandler | AuthRejected(error: string) | UploadRejected

  /** Running a route's middleware in order, given the gate's decision for
      the request and the files it carries. */
  function RunGuards(guards: seq<Guard>, auth: Decision, files: seq<FilePart>): (st: Stage)
    ensures st.AuthRejected? ==> RequireAuth in guards && auth.Deny? && st.error == auth.error
    ensures st.RanHandler? ==>
      && (RequireAuth in guards ==> auth.Proceed?)
      && forall j :: 0 <= j < |guards| && guards[j].UploadFiles? ==> UploadAccepts(guards[j].upload, files)
    ensures st.UploadRejected? ==>
      exists j :: 0 <= j < |guards| && guards[j].UploadFiles? && !UploadAccepts(guards[j].upload, files)
  {
    if |guards| == 0 then RanHandler
    else match guards[0]
      case AttachDb => RunGuards(guards[1..], auth, files)
      case RequireAuth =>
        if auth.Deny? then AuthRejected(auth.error) else RunGuards(guards[1..], auth, files)
      case UploadFiles(u) =>
        if UploadAccepts(u, files) then RunGuards(guards[1..], auth, files) else UploadRejected
  }

  /** No upload before the gate: every upload guard comes after a
      RequireAuth. */
  predicate AuthBeforeUpload(guards: seq<Guard>)
  {
    forall j :: 0 <= j < |guards| && guards[j].UploadFiles? ==>
      exists i :: 0 <= i < j && guards[i] == RequireAuth
  }

  /** A chain with the gate, and no upload ahead of it, turns every denied
      request away with the gate's message before any file is accepted;
      a chain without the gate never answers 401. */
  lemma {:induction false} GateDecides(guards: seq<Guard>, auth: Decision, files: seq<FilePart>)
    ensures RequireAuth in guards && AuthBeforeUpload(guards) && auth.Deny? ==>
      RunGuards(guards, auth, files) == AuthRejected(auth.error)
    ensures RequireAuth !in guards ==> !RunGuards(guards, auth, files).AuthRejected?
  {
    if |guards| > 0 {
      var rest := guards[1..];
      GateDecides(rest, auth, files);
      if guards[0] != RequireAuth && RequireAuth in guards {
        assert RequireAuth in rest;
        if guards[0].UploadFiles? {
          assert !AuthBeforeUpload(guards);
        } else if AuthBeforeUpload(guards) {
          forall j | 0 <= j < |rest| && rest[j].UploadFiles?
            ensures exists i :: 0 <= i < j && rest[i] == RequireAuth
          {
            assert guards[j + 1] == rest[j];
            var i :| 0 <= i < j + 1 && guards[i] == RequireAuth;
            assert rest[i - 1] == guards[i];
          }
        }
      }
    }
  }

  /** The routes that run without the gate. */
  predicate IsPublic(h: Handler)
  {
    h.GetAllRecipes? || h.GetFeaturedRecipes? || h.GetRecipeByTitle? || h.GetCommentsForRecipe?
    || h.SubscribeNewsletter?
  }

  /** Exactly the four recipe and comment reads and the newsletter
      subscription are public; every other route has the gate. */
  lemma GuardTable()
    ensures forall i :: 0 <= i < |ROUTES| ==> (RequireAuth in ROUTES[i].guards <==> !IsPublic(ROUTES[i].handler))
    ensures forall i :: 0 <= i < |ROUTES| && IsPublic(ROUTES[i].handler) ==>
      ROUTES[i].verb == GET || ROUTES[i].handler == SubscribeNewsletter
  {
  }

  /** On every route the gate comes before any upload, so no file of an
      unauthenticated request is accepted. */
  lemma GateBeforeUploads()
    ensures forall i :: 0 <= i < |ROUTES| ==> AuthBeforeUpload(ROUTES[i].guards)
  {
    forall i | 0 <= i < |ROUTES|
      ensures AuthBeforeUpload(ROUTES[i].guards)
    {
      var g := ROUTES[i].guards;
      if |g| == 3 {
        assert g[1] == RequireAuth;
      }
    }
  }

  /** A request without a valid auth cookie never reaches the handler of a
      guarded route, and is always answered 401 with the gate's message;
      on a public route the gate plays no part. */
  lemma DeniedRequestsStopAtGate(i: nat, creds: Credentials, jwt: Jwt, nowSec: int, files: seq<FilePart>)
    requires i < |ROUTES|
    requires Authenticate(creds, jwt, nowSec).Deny?
    ensures !IsPublic(ROUTES[i].handler) ==>
      RunGuards(ROUTES[i].guards, Authenticate(creds, jwt, nowSec), files)
      == AuthRejected(Authenticate(creds, jwt, nowSec).error)
    ensures IsPublic(ROUTES[i].handler) ==>
      !RunGuards(ROUTES[i].guards, Authenticate(creds, jwt, nowSec), files).AuthRejected?
  {
    GuardTable();
    GateBeforeUploads();
    GateDecides(ROUTES[i].guards, Authenticate(creds, jwt, nowSec), files);
  }

  /** A title that reads "featured" in any mix of cases reaches the
      featured handler, any other title the title handler: the fixed route
      is registered first, and it is matched without regard to case. Path
      segments are compared as they arrive, still percent-encoded, so only
      an unescaped segment that folds to "featured" is taken by the fixed
      route. */
  lemma FeaturedBeforeTitle(title: string)
    requires title != ""
    ensures ROUTES[1].handler == GetFeaturedRecipes && ROUTES[2].handler == GetRecipeByTitle
    ensures Lower(title) == "featured" ==> Dispatch(ROUTES, GET, ["recipes", title]) == Some(1)
    ensures Lower(title) != "featured" ==> Dispatch(ROUTES, GET, ["recipes", title]) == Some(2)
  {
    var path := ["recipes", title];
    var r0, r1, r2 := ROUTES[0], ROUTES[1], ROUTES[2];
    assert r0.path == [Lit("recipes")] && r1.path == [Lit("recipes"), Lit("featured")];
    assert r2 == Route(GET, [Lit("recipes"), Param("title")], [AttachDb], GetRecipeByTitle);
    assert Lower("recipes") == "recipes";
    assert Lower("featured") == "featured";
    assert !Matches(r0, GET, path);
    if Lower(title) == "featured" {
      assert Matches(r1, GET, path);
      DispatchAt(ROUTES, GET, path, 1);
    } else {
      assert Lower(path[1]) != Lower(r1.path[1].text);
      assert !Matches(r1, GET, path);
      assert Matches(r2, GET, path);
      DispatchAt(ROUTES, GET, path, 2);
    }
  }

  /** "Featured" and "FEATURED" are sent to the featured handler too. */
  lemma FeaturedAnyCase()
    ensures Dispatch(ROUTES, GET, ["recipes", "Featured"]) == Some(1)
    ensures Dispatch(ROUTES, GET, ["recipes", "FEATURED"]) == Some(1)
  {
    assert Lower("Featured") == "featured";
    assert Lower("FEATURED") == "featured";
    FeaturedBeforeTitle("Featured");
    FeaturedBeforeTitle("FEATURED");
  }

  /** An escaped spelling of "featured" is not a literal match, so it
      reaches the title handler, which receives the decoded title. */
  lemma EscapedFeaturedReachesTitle()
    ensures Dispatch(ROUTES, GET, ["recipes", "%46eatured"]) == Some(2)
  {
    assert Lower("%46eatured")[0] == '%';
    FeaturedBeforeTitle("%46eatured");
  }

  /** Recipe create and update take up to three files under `images`, the
      profile update one file under `profilePicture`. */
  lemma UploadLimits()
    ensures UploadFiles(ArrayUpload("images", 3)) in ROUTES[4].guards && ROUTES[4].handler == CreateRecipe
    ensures UploadFiles(ArrayUpload("images", 3)) in ROUTES[5].guards && ROUTES[5].handler == UpdateRecipe
    ensures UploadFiles(SingleUpload("profilePicture")) in ROUTES[12].guards
      && ROUTES[12].handler == UpdateUserProfile
  {
    assert ROUTES[4].guards[2] == UploadFiles(ArrayUpload("images", 3));
    assert ROUTES[5].guards[2] == UploadFiles(ArrayUpload("images", 3));
    assert ROUTES[12].guards[2] == UploadFiles(SingleUpload("profilePicture"));
  }

  /** Four images are refused on recipe routes, and so is a file one byte
      over the limit or of another type. */
  lemma UploadRefusals(f: FilePart)
    ensures !UploadAccepts(ArrayUpload("images", 3), [f, f, f, f])
    ensures f.size > MAX_FILE_SIZE ==> !UploadAccepts(ArrayUpload("images", 3), [f])
    ensures f.mimetype == "image/gif" ==> !UploadAccepts(SingleUpload("profilePicture"), [f])
  {
    assert [f][0] == f;
    if f.mimetype == "image/gif" {
      assert f.mimetype[6] == 'g';
      assert !FileFilter(f.mimetype).AcceptFile?;
    }
  }
}

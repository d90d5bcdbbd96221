# Plateful backend — a verified model of its request handlers

Plateful is an Express/MongoDB backend for a recipe-sharing site: users sign
up and log in with a cookie-borne JSON Web Token, post recipes with images,
favorite and comment on recipes, subscribe to a newsletter and plan their
meals week by week. This project models the decision logic of those
handlers in Dafny, against an in-memory store, and proves what each handler
promises.

The store is the class `Store.Db`. It has one `seq` field per collection
(`users`, `recipes`, `favorites`, `comments`, `newsletter`, `mealPlans`), in
natural insertion order. A `findOne`, `updateOne` or `deleteOne` acts on the
FIRST document with the key (`Base.FirstWithKey`). A handler that writes
is a method that may modify only the collection it writes (`modifies
db`recipes` and so on), so "nothing else changes" follows from its frame.
A handler that only reads is a method without `modifies` or a function that
`reads db` (`Favorites.GetFavorites`,
`Comments.GetCommentsForRecipe`, `MealPlans.GetMealPlan`); GET /recipes
is the function `Recipes.NormalizeAll` applied to `db.recipes`. Most replies are
a `Base.Reply` (status and body, or status and error message). The
authentication code has its own reply types: `Auth.AuthReply`,
`Auth.CheckReply`, `LegacyAuth`'s replies, and `Gate.Outcome`. The
invariant `Db.Valid()` says that user ids are ObjectIds, that user ids and
emails are unique, and that there is at most one document per key for
recipe ids, favorites (email, title), newsletter emails and meal plans
(user, week). Every handler that writes one of those collections states
that it preserves the invariant, assuming requests run one at a time.
`Comments.AddComment` writes only `comments`, which the invariant does not
constrain, so its frame alone keeps it.

Modules, one per source file:

- `Base`: Option and Reply, JavaScript truthiness (`Truthy`), `slice(1)`
  (`Tail`), first-match lookup and filtering over collections, and the
  lemmas about them.
- `Security`: JWT claims, the caller identity, request credentials, and
  cookie operations. jsonwebtoken and bcrypt are pairs of function values
  (`Jwt`, `Bcrypt`). Two predicates state what the code relies on them
  for. `SoundJwt`: a signed token is non-empty and verifies to its own
  claims until `exp`. `SoundBcrypt`: `compare(p, hash(p))` holds.
- `Store`: documents and the `Db` class.
- `Auth` (auth/authRoutes.js), `Gate` (auth/requireAuth.js), `LegacyAuth`
  (routes/authRoutes.js), `Recipes`, `Favorites`, `Users`, `Comments`,
  `MealPlans`, `Newsletter` (the controllers), `Routes` (routes.js).
- `Sessions`: requests in sequence (signup, login, `/check`, the gate,
  logout).

The middleware `requireAuth` differs from `/check` in three ways:

- The middleware `requireAuth` reads only the `auth_token` cookie. It has no
  fallback to an `Authorization: Bearer` header. Only `/check` accepts the
  header (`Gate.HeaderIgnored`, `Gate.BearerAloneRejected`).
- The middleware answers with two different 401 messages: "Not
  authenticated" when there is no cookie, and "Invalid or expired token"
  when verification fails.
- The middleware trusts the token's `{id, name, email}` and does not look the
  user up again. Only `/check` re-reads the user record.

## Model

| member | source | states |
|---|---|---|
| `Security.CallerEmail` | controllers/recipeController.js:46 | `req.user?.email`: "" without a caller, the token's email otherwise |
| `Auth.CookieLifetime` | auth/authRoutes.js:13 | the cookie maxAge is 2,592,000,000 ms, 1000 times the token's 30-day lifetime in seconds |
| `Auth.CreateToken` | auth/authRoutes.js:16-26 | with a sound JWT library, the token is non-empty and verifies at issue time to the user's id, name and email with exp 30 days later |
| `Auth.CreateTokenDecodes` | auth/authRoutes.js:16-26 | with a sound JWT library, the token verifies to exactly the user's id, name and email before now + 2,592,000 s, and is rejected from then on |
| `Auth.TokenFromRequest` | auth/authRoutes.js:29-42 | a non-empty cookie wins over any header; without it, a token exists iff the header starts with the case-sensitive "Bearer ", and the header is then "Bearer " + token |
| `Auth.BearerYieldsToken` | auth/authRoutes.js:36-41 | without a cookie, `Authorization: Bearer t` yields exactly t |
| `Auth.LowerCaseBearerRejected` | auth/authRoutes.js:36-41 | "bearer t" yields no token |
| `Auth.Signup` | auth/authRoutes.js:45-110 | checks in order: missing field 400, password shorter than 12 400, known email 409, none writing; otherwise exactly one user appended (hashed password, aboutMe "", no picture), 201 with the password-free view and a 30-day cookie holding that user's token; `Valid()` kept |
| `Auth.Login` | auth/authRoutes.js:113-157 | missing field 400; unknown email and wrong password give the same 401; otherwise 200 with the first matching user's view and a 30-day cookie; no write (no `modifies`) |
| `Auth.Logout` | auth/authRoutes.js:160-168 | the reply clears the cookie |
| `Auth.Check` | auth/authRoutes.js:171-205 | 401 `{authenticated:false}` for no token, a failed verification, an id that is not an ObjectId, or no user with the id; otherwise 200 with the live user record of that id, without its password |
| `Gate.Authenticate` | auth/requireAuth.js:3-25 | proceeds iff the cookie is non-empty and verifies, as the claims' id, name and email; "Not authenticated" without a cookie, "Invalid or expired token" otherwise |
| `Gate.HeaderIgnored` | auth/requireAuth.js:6-10 | the Authorization header never changes the decision |
| `Gate.BearerAloneRejected` | auth/requireAuth.js:6-10 | a Bearer header without a cookie is refused as not authenticated |
| `Gate.RequireAuth` | auth/requireAuth.js:3-25 | `next` is called iff the decision proceeds, and then `req.user` is the token's identity; otherwise a 401 with the decision's message and `req.user` untouched |
| `LegacyAuth.Signup` | routes/authRoutes.js:10-53 | the same three checks in the same order, none writing; otherwise one user {name, email, hash} appended and 201 with id, name and email, no cookie |
| `LegacyAuth.Login` | routes/authRoutes.js:56-92 | missing field 400; one identical 401 for unknown email and wrong password; otherwise 200 with only id, name and email; no write |
| `Recipes.Normalize` | controllers/recipeController.js:9-13 | both image arrays present; absent images become []; an existing extraImages is kept, an absent one is images without its first element; every other field unchanged |
| `Recipes.NormalizeIdempotent` | controllers/recipeController.js:9-13 | normalising a normalised recipe changes nothing |
| `Recipes.NormalizeAll` | controllers/recipeController.js:5-20 | GET /recipes returns every recipe, in order, each normalised |
| `Recipes.GetRecipeByTitle` | controllers/recipeController.js:23-41 | 404 when no recipe has the title; otherwise the in-place patching yields the same document GET /recipes shows for the first recipe of that title |
| `Recipes.ParseList` | controllers/recipeController.js:52-53 | `JSON.parse(field \|\| "[]")`: an absent field is [], a malformed one fails |
| `Recipes.UploadPaths` | controllers/recipeController.js:55-57 | one path per uploaded file, in order, each "/uploads/" + filename |
| `Recipes.NewRecipe` | controllers/recipeController.js:62-74 | title, description and category from the form; whyLove the form's when non-empty, "" otherwise; image is the first path, images all paths, extraImages all but the first, ownerEmail the caller's, createdAt now, no updatedAt |
| `Recipes.NewRecipeIsNormal` | controllers/recipeController.js:62-74 | a created recipe is already in normal form |
| `Recipes.CreateRecipe` | controllers/recipeController.js:44-85 | 401 without a caller email, then 500 for a malformed JSON field, then 400 with no file, none writing; otherwise exactly that recipe appended and its id returned with "Recipe created" |
| `Recipes.OwnerAccess` | controllers/recipeController.js:117-133 | 401 iff no caller email, then 404 iff no recipe has the title, then 403 when the first such recipe has another owner; otherwise that recipe's index, owned by the caller |
| `Recipes.CreatorOwns` | controllers/recipeController.js:129-133 | after creating a recipe under a new title, its creator passes the ownership checks and every other signed-in user gets 403 |
| `Recipes.Refusal` | controllers/recipeController.js:122-133 | a refused request gets an error: 401 exactly when unauthenticated, 404 exactly when the title is unknown, 403 exactly when the caller is not the owner |
| `Recipes.ApplyUpdate` | controllers/recipeController.js:144-158 | id, ownerEmail and createdAt never change; title, description, category, ingredients and steps are replaced; whyLove becomes the form's, or "" when the form omits it (so an update without it erases the stored one); updatedAt is set; with no new files the image fields stay as they were, with files they are derived as on create |
| `Recipes.UpdateRecipe` | controllers/recipeController.js:117-169 | no write unless the caller owns the first recipe of the title and both JSON fields parse (500 otherwise); then only that recipe changes, to `ApplyUpdate` of it |
| `Recipes.DeleteRecipe` | controllers/recipeController.js:171-196 | the same gate; the owner's request removes exactly the first recipe of the title; favorites and comments untouched |
| `Recipes.FeaturedIndex` | controllers/recipeController.js:210-214 | with n recipes, every featured position is below n |
| `Recipes.Featured` | controllers/recipeController.js:209-216 | always four entries; four nulls when there are no recipes |
| `Recipes.PickFeatured` | controllers/recipeController.js:208-214 | the loop's four pushes yield exactly `Featured` of the list: entry i is `normalized[(day % n + i) % n]`, or null when the list is empty |
| `Recipes.GetFeaturedRecipes` | controllers/recipeController.js:197-222 | the reply is `Featured` of the recipes normalised as on GET /recipes |
| `Recipes.FeaturedAreRecipes` | controllers/recipeController.js:209-216 | every entry is one of the normalised recipes, and entries are null only when there are none |
| `Recipes.FeaturedDistinctWhenEnough` | controllers/recipeController.js:209-216 | with at least four recipes, the four entries come from four different positions |
| `Recipes.FeaturedRepeatsWhenFew` | controllers/recipeController.js:213-214 | with n < 4 recipes, entry i + n repeats entry i |
| `Recipes.FeaturedShiftsDaily` | controllers/recipeController.js:209-214 | from one day of the month to the next, the window moves on by one recipe |
| `Favorites.Upsert` | controllers/favoriteController.js:23-33 | the new favorite is present; the size grows by one only when the pair had none; nothing else is added, and other pairs' documents stay |
| `Favorites.Delete` | controllers/favoriteController.js:84-86 | the size drops by one only when the pair had a document; nothing is added, and other pairs' documents stay |
| `Favorites.UpsertKeepsOnePerPair` | controllers/favoriteController.js:23-33 | pairs stay unique, and the pair has exactly one favorite, the new one |
| `Favorites.UpsertKeepsOtherPairs` | controllers/favoriteController.js:23-33 | every other pair's documents are as before |
| `Favorites.UpsertLaterWins` | controllers/favoriteController.js:23-33 | adding a favorite again later is the same as adding it once at the later time: no second document, only createdAt moves |
| `Favorites.DeleteRemovesPair` | controllers/favoriteController.js:84-86 | with unique pairs, the pair is gone afterwards, pairs stay unique, and other pairs are unchanged |
| `Favorites.AddThenRemove` | controllers/favoriteController.js:84-86 | adding a new favorite and removing it restores the collection exactly |
| `Favorites.FavoriteRecipes` | controllers/favoriteController.js:50-65 | a recipe is listed iff it is stored and one of the email's favorites has its title; favorites whose recipe is gone contribute nothing |
| `Favorites.FavoriteListFollowsAddAndRemove` | controllers/favoriteController.js:50-65 | after adding, every recipe with the title is listed; after removing, none is |
| `Favorites.AddFavorite` | controllers/favoriteController.js:3-40 | 401 without a caller email, 404 without a recipe of that title, neither writing; otherwise the upsert on (email, title), and `Valid()` is kept |
| `Favorites.GetFavorites` | controllers/favoriteController.js:43-72 | 401 iff no caller email; otherwise exactly the recipes matching the caller's favorites |
| `Favorites.RemoveFavorite` | controllers/favoriteController.js:74-93 | 401 without a caller email and no write; otherwise only the caller's favorite for the title is deleted, with the same reply whether or not it existed |
| `Users.RequestedFields` | controllers/userController.js:34-63 | name only if non-empty; aboutMe whenever sent, even ""; email only if non-empty and different from the current one; the picture path only when a file came |
| `Users.ApplyFields` | controllers/userController.js:70-74 | only the fields in `$set` change; id and password never do |
| `Users.ApplyKeepsUsersValid` | controllers/userController.js:43-53 | an update whose email nobody holds keeps user ids and emails unique |
| `Users.UpdateUserProfile` | controllers/userController.js:6-99 | empty id 401, non-ObjectId id 500, unknown id 404, new email held by another user 409, nothing to change 400, none writing; otherwise only that user changes and the reply is its password-free view |
| `Users.OwnEmailIsNoChange` | controllers/userController.js:54-67 | resubmitting the current email adds no field, so a request with only that is "No fields to update." |
| `Comments.NewComment` | controllers/commentController.js:11-19 | recipeTitle is the title, rating as given (null when absent), comment defaults to "" |
| `Comments.AddComment` | controllers/commentController.js:2-27 | 400 iff the comment is empty or absent and the rating is absent (a rating of 0 counts as present); otherwise exactly one comment appended and echoed; no other collection touched |
| `Comments.InsertByDate` | controllers/commentController.js:33-37 | inserting into a newest-first list keeps it newest-first, adds exactly that comment, and leaves at the head either it or the old head |
| `Comments.SortNewestFirst` | controllers/commentController.js:33-37 | the result is newest-first and a permutation of the input |
| `Comments.GetCommentsForRecipe` | controllers/commentController.js:29-44 | exactly the comments of the title, each as often as stored, newest first |
| `Comments.NewestCommentListedFirst` | controllers/commentController.js:33-37 | a comment newer than all stored ones heads its title's list |
| `MealPlans.DayOfWeek` | controllers/mealPlanController.js:5 | `getDay()` is in 0..6 |
| `MealPlans.MondayOffset` | controllers/mealPlanController.js:6 | the offset is in 0..6, 6 for Sunday, and stepping forward one day from it gives the weekday |
| `MealPlans.StartOfWeek` | controllers/mealPlanController.js:3-10 | the result is at 00:00, at most six days before the date |
| `MealPlans.StartOfWeekDay` | controllers/mealPlanController.js:3-10 | the start of the week is the first day of the date's Monday-based week number |
| `MealPlans.StartOfWeekIsMonday` | controllers/mealPlanController.js:3-10 | the start of every week is a Monday at midnight |
| `MealPlans.StartOfWeekIdempotent` | controllers/mealPlanController.js:5-7 | a week's start maps to itself |
| `MealPlans.SameWeekSameKey` | controllers/mealPlanController.js:24-29 | two dates get the same plan key iff they fall in the same Monday-to-Sunday week |
| `MealPlans.InitialMeals` | controllers/mealPlanController.js:12-16 | 3 rows of 7 slots, each {id: null, name: "-", imageUrl: null} |
| `Store.IsObjectId` | controllers/mealPlanController.js:27 | definition: 24 hexadecimal digits, the rule assumed for `new ObjectId`, which throws otherwise (some bson versions also accept any 12-character string; the model does not) |
| `MealPlans.PlanMeals` | controllers/mealPlanController.js:24-35 | the empty grid when no plan has the key; with one plan per key, the meals of the plan that has it |
| `MealPlans.GetMealPlan` | controllers/mealPlanController.js:18-40 | 500 iff the id is not an ObjectId; otherwise the meals of a stored plan of the user and week, or the empty grid when there is none |
| `MealPlans.SavePlan` | controllers/mealPlanController.js:64-74 | the key's plan carries the new meals and updatedAt now; createdAt is kept from an existing plan and set only on insert; other plans stay in place |
| `MealPlans.SavePlanKeepsOnePerKey` | controllers/mealPlanController.js:64-74 | one plan per (user, week), and exactly one for the saved key |
| `MealPlans.SaveThenGet` | controllers/mealPlanController.js:24-35 | after a save, reading any date of that week gives the saved meals; other users' and weeks' plans read as before |
| `MealPlans.ModifiedCount` | controllers/mealPlanController.js:64-80 | `modifiedCount` is 0 or 1, and 1 exactly when a stored plan had the key and the update changed the collection |
| `MealPlans.UpsertedCount` | controllers/mealPlanController.js:64-80 | `upsertedCount` is 0 or 1, and 1 exactly when no stored plan had the key |
| `MealPlans.SaveMealPlan` | controllers/mealPlanController.js:42-85 | missing date or meals 400 (an empty meals array is present), non-ObjectId id 500, neither writing; otherwise the upsert, `Valid()` kept, and modifiedCount + upsertedCount at most 1 |
| `Newsletter.Enroll` | controllers/newsletterController.js:9-15 | the collection only grows, by at most one document, the new subscriber, and only for a non-empty email not yet subscribed; afterwards that email is subscribed |
| `Newsletter.EnrollKeepsOnePerEmail` | controllers/newsletterController.js:9-15 | emails stay unique, and the email has exactly one entry |
| `Newsletter.EnrollIdempotent` | controllers/newsletterController.js:9-15 | subscribing the same email again, at any time, changes nothing |
| `Newsletter.SubscribeNewsletter` | controllers/newsletterController.js:3-41 | missing email 400, already subscribed 400, neither writing; a new email is stored before the mail, and a mail failure gives 500 with the subscription kept |
| `Routes.FileFilter` | routes.js:685-688 | a file is accepted iff its type is image/jpeg, image/png or image/webp |
| `Routes.MaxFileSize` | routes.js:693 | the per-file limit is 5,242,880 bytes |
| `Routes.UploadLimits` | routes.js:704-738 | recipe create and update take `images` (at most 3), the profile update one `profilePicture` |
| `Routes.UploadRefusals` | routes.js:690-694 | four images, a file over the limit, or a GIF are refused |
| `Routes.Lower` | routes.js:669 | ASCII lower case, the folding of the default case-insensitive router on the ASCII route literals |
| `Routes.UploadAccepts` | routes.js:690-694 | definition: every part under the expected field, of an allowed type, within 5 MB, and no more parts than the field allows |
| `Routes.Dispatch` | routes.js:696-746 | the first registered route whose pattern matches (literal segments up to case, parameters non-empty) handles the request |
| `Routes.DispatchAt` | routes.js:696-746 | a matching route that no earlier route matches is the one chosen |
| `Routes.FeaturedBeforeTitle` | routes.js:698-700 | a title that lower-cases to "featured" reaches the featured handler, any other title the title handler; a recipe titled "Featured" cannot be read through an unescaped path segment |
| `Routes.EscapedFeaturedReachesTitle` | routes.js:698-700 | segments are matched undecoded, so `/recipes/%46eatured` reaches the title handler |
| `Routes.FeaturedAnyCase` | routes.js:698-700 | "Featured" and "FEATURED" reach the featured handler |
| `Routes.GuardTable` | routes.js:696-746 | exactly the four GET reads and the newsletter subscription are public; every other route has `requireAuth` |
| `Routes.GateBeforeUploads` | routes.js:704-738 | on every route `requireAuth` comes before any upload guard |
| `Routes.RunGuards` | routes.js:704-746 | middleware runs in order: a 401 only from a gate on a denied request, with the gate's message; the handler runs only if every gate passed and every upload was accepted; an upload refusal names a refused upload guard |
| `Routes.GateDecides` | routes.js:704-746 | a chain with the gate and no earlier upload answers every denied request with the gate's 401; a chain without the gate never does |
| `Routes.DeniedRequestsStopAtGate` | routes.js:704-746 | a request the gate denies never reaches a guarded handler and gets the gate's message; public routes do not consult the gate |
| `Sessions.IssuedCookiePassesGate` | auth/requireAuth.js:12-21 | the cookie signup and login set passes the gate as the user's id, name and email for 30 days, and is refused from then on |
| `Sessions.LogoutEndsSession` | auth/authRoutes.js:160-168 | after logout the gate answers "Not authenticated", whatever header is sent |
| `Sessions.SignupLoginCheck` | auth/authRoutes.js:45-205 | signup, login and `/check` on a fresh store agree on the same user; a second signup with the email gets 409 |

## Left out

- Hashing, comparison, signing and verification are calls into bcrypt and
  jsonwebtoken. They are uninterpreted function values. The lemmas that need
  them take `SoundJwt` / `SoundBcrypt` as preconditions.
- The token's `iat` claim is left out. Nothing in the handlers reads it.
- The MongoDB driver, the connection, `attachDb`/`getDb` and db.js are left
  out. The store is in memory and requests run one at a time. The
  check-then-insert races in signup, profile update and newsletter are
  therefore outside the model.
- A store failure that lands in a handler's `catch` (500) is not modelled.
  The exceptions that are modelled are the ones the handlers' own code can
  raise: `JSON.parse` in create and update, and `new ObjectId` in profile
  update, meal plans and `/check`.
- `findOneAndUpdate`'s `result.value` is taken to be the updated document
  (the driver's older result shape, with `returnDocument: "after"`). The
  "User not found after update attempt." branch is therefore unreachable in
  the model.
- Mail is left out: the recipe notification to subscribers and the welcome
  mail. Whether the welcome mail was sent is the parameter `mailSent`.
- Multer's disk storage, the generated file names and static serving are
  left out. File names arrive as parameters.
- `Routes.UploadAccepts` states multer's refusals (wrong field, too many
  files, a file too large, a filter rejection) without multer's error
  objects or the status they lead to.
- JavaScript `Date` is left out. A timestamp is an `int` parameter `now`. A
  date to plan for is an `Instant` (local day number and milliseconds since
  midnight), already parsed. Invalid date strings and daylight-saving shifts
  are not modelled. The featured rotation takes the day of the month as a
  parameter.
- `decodeURIComponent` is left out: titles arrive decoded. A malformed
  escape, which throws and gives 500, is not modelled.
- `Number(rating)` is left out: the rating is an optional integer, so NaN
  and fractional ratings are not modelled.
- Request bodies are typed. A field of the wrong JSON type (an object where
  a string is expected) is not modelled, and neither is an `undefined`
  title or description written on recipe create or update.
- `Comments.SortNewestFirst`: MongoDB leaves the order of comments with
  equal `createdAt` unspecified. The model fixes one order, so the
  contract promises only newest-first order and the same multiset.
- ObjectIds are compared as their hex strings. `new ObjectId` accepts
  upper-case hex, which then compares equal to lower-case; this is not
  modelled.
- String lengths count Dafny characters, not UTF-16 code units, in the
  12-character password check.
- Route matching folds ASCII case only, which is all the route literals
  need. Express's non-strict trailing slash is not modelled, so
  `/recipes/featured/` is not shown to reach the featured handler as it
  does. Path segments are matched undecoded, as Express matches them, so
  an escaped "featured" such as `%46eatured` reaches the title handler
  (`Routes.EscapedFeaturedReachesTitle`); the decoding of the `:title`
  parameter itself is not modelled.
- `deleteUserProfile` and `updatePassword` are only table entries in
  `Routes.ROUTES`. Their handlers are not in controllers/userController.js,
  so they are not part of this model.
- server.js, swagger.js and routes/recipeRoutes.js, routes/commentRoutes.js
  and routes/favoriteRoutes.js only wire routes together and are not part
  of this model.

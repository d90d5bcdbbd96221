/** The recipe handlers (controllers/recipeController.js): normalisation of
    the image fields on read, creation from uploaded files, the
    401/404/403 ownership gate of update and delete, and the day-based
    rotation of featured recipes. */
module Recipes {
  import opened Base
  import opened Security
  import opened Store

  const UPLOAD_PREFIX := "/uploads/"
  const FEATURED_COUNT: nat := 4

  const UNAUTHORIZED := "Unauthorized"
  const RECIPE_NOT_FOUND := "Recipe not found"
  const NOT_OWNER := "Not allowed (not owner)"
  const NO_IMAGE := "At least 1 image required"
  const CREATE_FAILED := "Failed to create recipe"
  const UPDATE_FAILED := "Failed to update recipe"

  // ---------------------------------------------------------------------
  // Normalisation on read
  // ---------------------------------------------------------------------

  /** `r.images || []`. */
  function ImagesOrEmpty(r: Recipe): seq<string>
  {
    if r.images.Some? then r.images.value else []
  }

  /** The normalisation `getAllRecipes` maps over every document: absent
      `images` become [], absent `extraImages` become the images without the
      first, a present `extraImages` is kept, and no other field changes. */
  function Normalize(r: Recipe): (n: Recipe)
    ensures n.images.Some? && n.extraImages.Some?
    ensures r.images.Some? ==> n.images == r.images
    ensures r.images.None? ==> n.images == Some([])
    ensures r.extraImages.Some? ==> n.extraImages == r.extraImages
    ensures r.extraImages.None? && |n.images.value| > 0 ==> [n.images.value[0]] + n.extraImages.value == n.images.value
    ensures r.extraImages.None? && |n.images.value| == 0 ==> n.extraImages == Some([])
    ensures n.(images := r.images, extraImages := r.extraImages) == r
  {
    var images := ImagesOrEmpty(r);
    r.(images := Some(images),
       extraImages := if r.extraImages.Some? then r.extraImages else Some(Tail(images)))
  }

  /** Normalising twice is normalising once. */
  lemma NormalizeIdempotent(r: Recipe)
    ensures Normalize(Normalize(r)) == Normalize(r)
  {
  }

  /** GET /recipes: every document, normalised, in natural order. */
  function NormalizeAll(rs: seq<Recipe>): (ns: seq<Recipe>)
    ensures |ns| == |rs|
    ensures forall i :: 0 <= i < |rs| ==> ns[i] == Normalize(rs[i])
  {
    if |rs| == 0 then [] else [Normalize(rs[0])] + NormalizeAll(rs[1..])
  }

  /** GET /recipes/:title. The handler patches the found document in place,
      images first and then extraImages from the patched images; the result
      is the same normalisation GET /recipes applies. */
  method GetRecipeByTitle(db: Db, title: string) returns (r: Reply<Recipe>)
    ensures !HasKey(db.recipes, RecipeTitle, title) ==> r == Err(404, RECIPE_NOT_FOUND)
    ensures HasKey(db.recipes, RecipeTitle, title) ==>
      r == Ok(200, NormalizeAll(db.recipes)[FirstWithKey(db.recipes, RecipeTitle, title).value])
  {
    var found := FirstWithKey(db.recipes, RecipeTitle, title);
    if found.None? {
      return Err(404, RECIPE_NOT_FOUND);
    }
    var recipe := db.recipes[found.value];
    recipe := recipe.(images := if recipe.images.Some? then recipe.images else Some([]));
    recipe := recipe.(extraImages := if recipe.extraImages.Some? then recipe.extraImages
                                     else Some(Tail(recipe.images.value)));
    r := Ok(200, recipe);
  }

  // ---------------------------------------------------------------------
  // Create
  // ---------------------------------------------------------------------

  /** A form field holding JSON text: absent (parsed as "[]"), a list, or
      text that `JSON.parse` rejects. */
  datatype JsonField = Absent | Parsed(items: seq<string>) | Malformed

  /** `JSON.parse(field || "[]")`; None when it throws. */
  function ParseList(f: JsonField): (r: Option<seq<string>>)
    ensures r.None? <==> f.Malformed?
    ensures f.Absent? ==> r == Some([])
    ensures f.Parsed? ==> r == Some(f.items)
  {
    match f
    case Absent => Some([])
    case Parsed(items) => Some(items)
    case Malformed => None
  }

  /** The text fields of the multipart body. */
  datatype RecipeForm = RecipeForm(
    title: string,
    description: string,
    category: string,
    whyLove: Option<string>,
    ingredients: JsonField,
    steps: JsonField)

  /** `whyLove || ""`. */
  function OrEmpty(s: Option<string>): string
  {
    if Truthy(s) then s.value else ""
  }

  /** The public path of each uploaded file, in upload order. */
  function UploadPaths(filenames: seq<string>): (paths: seq<string>)
    ensures |paths| == |filenames|
    ensures forall i :: 0 <= i < |filenames| ==> paths[i] == UPLOAD_PREFIX + filenames[i]
  {
    if |filenames| == 0 then [] else [UPLOAD_PREFIX + filenames[0]] + UploadPaths(filenames[1..])
  }

  /** The document `createRecipe` inserts. */
  function NewRecipe(id: string, form: RecipeForm, ingredients: seq<string>, steps: seq<string>,
                     paths: seq<string>, ownerEmail: string, now: int): (r: Recipe)
    requires |paths| > 0
    ensures r.image == Some(paths[0]) && r.images == Some(paths)
    ensures r.extraImages.Some? && [paths[0]] + r.extraImages.value == paths
    ensures r.ownerEmail == Some(ownerEmail) && r.createdAt == Some(now) && r.updatedAt == None
    ensures r.id == id && r.title == form.title && r.ingredients == ingredients && r.steps == steps
    ensures r.description == form.description && r.category == form.category
    ensures Truthy(form.whyLove) ==> r.whyLove == form.whyLove.value
    ensures !Truthy(form.whyLove) ==> r.whyLove == ""
  {
    Recipe(id, form.title, form.description, form.category, OrEmpty(form.whyLove),
           Some(paths[0]), Some(paths), Some(paths[1..]),
           ingredients, steps, Some(ownerEmail), Some(now), None)
  }

  /** A created recipe is already in normal form. */
  lemma NewRecipeIsNormal(id: string, form: RecipeForm, ingredients: seq<string>, steps: seq<string>,
                          paths: seq<string>, ownerEmail: string, now: int)
    requires |paths| > 0
    ensures Normalize(NewRecipe(id, form, ingredients, steps, paths, ownerEmail, now))
         == NewRecipe(id, form, ingredients, steps, paths, ownerEmail, now)
  {
  }

  /** POST /recipes. 401 without a caller email; 500 when a JSON field does
      not parse (checked before the images); 400 with no uploaded file;
      none of these inserts. Otherwise one recipe owned by the caller is
      appended and its id returned. The notification mail to subscribers is
      not part of this model. */
  method CreateRecipe(db: Db, caller: Option<Identity>, form: RecipeForm, filenames: seq<string>,
                      newId: string, now: int) returns (r: Reply<(string, string)>)
    requires db.Valid() && !HasKey(db.recipes, RecipeId, newId)
    modifies db`recipes
    ensures db.Valid()
    ensures CallerEmail(caller) == "" ==>
      r == Err(401, UNAUTHORIZED) && db.recipes == old(db.recipes)
    ensures CallerEmail(caller) != "" && (form.ingredients.Malformed? || form.steps.Malformed?) ==>
      r == Err(500, CREATE_FAILED) && db.recipes == old(db.recipes)
    ensures (CallerEmail(caller) != "" && !form.ingredients.Malformed? && !form.steps.Malformed?
             && |filenames| == 0) ==>
      r == Err(400, NO_IMAGE) && db.recipes == old(db.recipes)
    ensures (CallerEmail(caller) != "" && !form.ingredients.Malformed? && !form.steps.Malformed?
             && |filenames| > 0) ==>
      && r == Ok(200, ("Recipe created", newId))
      && db.recipes == old(db.recipes) + [NewRecipe(newId, form, ParseList(form.ingredients).value,
                                                    ParseList(form.steps).value, UploadPaths(filenames),
                                                    CallerEmail(caller), now)]
  {
    var userEmail := CallerEmail(caller);
    if userEmail == "" {
      return Err(401, UNAUTHORIZED);
    }
    var ingredients := ParseList(form.ingredients);
    var steps := ParseList(form.steps);
    if ingredients.None? || steps.None? {
      return Err(500, CREATE_FAILED);
    }
    var imagePaths := UploadPaths(filenames);
    if |imagePaths| == 0 {
      return Err(400, NO_IMAGE);
    }
    var recipe := NewRecipe(newId, form, ingredients.value, steps.value, imagePaths, userEmail, now);
    AppendKeepsDistinct(db.recipes, RecipeId, recipe);
    db.recipes := db.recipes + [recipe];
    r := Ok(200, ("Recipe created", newId));
  }

  // ---------------------------------------------------------------------
  // Update and delete: the ownership gate
  // ---------------------------------------------------------------------

  /** The outcome of the checks update and delete share. */
  datatype Access = Unauthenticated | NotFound | NotOwner | Owner(index: nat)

  /** 401 without a caller email, then 404 when no recipe has the title,
      then 403 when the first such recipe belongs to someone else. */
  function OwnerAccess(recipes: seq<Recipe>, userEmail: string, title: string): (a: Access)
    ensures a.Unauthenticated? <==> userEmail == ""
    ensures a.NotFound? <==> userEmail != "" && !HasKey(recipes, RecipeTitle, title)
    ensures a.NotOwner? ==>
      && HasKey(recipes, RecipeTitle, title)
      && recipes[FirstWithKey(recipes, RecipeTitle, title).value].ownerEmail != Some(userEmail)
    ensures a.Owner? ==>
      && Some(a.index) == FirstWithKey(recipes, RecipeTitle, title)
      && recipes[a.index].ownerEmail == Some(userEmail) && userEmail != ""
  {
    if userEmail == "" then Unauthenticated
    else match FirstWithKey(recipes, RecipeTitle, title)
      case None => NotFound
      case Some(i) => if recipes[i].ownerEmail != Some(userEmail) then NotOwner else Owner(i)
  }

  /** Whoever creates a recipe under a new title may then update and
      delete it; every other signed-in user is refused with 403. */
  lemma CreatorOwns(recipes: seq<Recipe>, r: Recipe, email: string, other: string)
    requires !HasKey(recipes, RecipeTitle, r.title)
    requires r.ownerEmail == Some(email) && email != ""
    ensures OwnerAccess(recipes + [r], email, r.title) == Owner(|recipes|)
    ensures other != "" && other != email ==> OwnerAccess(recipes + [r], other, r.title) == NotOwner
  {
    var s := recipes + [r];
    assert RecipeTitle(s[|recipes|]) == r.title;
    assert forall j :: 0 <= j < |recipes| ==> s[j] == recipes[j];
    assert FirstWithKey(s, RecipeTitle, r.title) == Some(|recipes|);
  }

  /** The reply for a request the gate turns away. */
  function Refusal<T>(a: Access): (r: Reply<T>)
    requires !a.Owner?
    ensures r.Err?
    ensures r.status == 401 <==> a.Unauthenticated?
    ensures r.status == 404 <==> a.NotFound?
    ensures r.status == 403 <==> a.NotOwner?
  {
    match a
    case Unauthenticated => Err(401, UNAUTHORIZED)
    case NotFound => Err(404, RECIPE_NOT_FOUND)
    case NotOwner => Err(403, NOT_OWNER)
  }

  /** The document after `$set: updateDoc`. */
  function ApplyUpdate(r: Recipe, form: RecipeForm, ingredients: seq<string>, steps: seq<string>,
                       newImages: seq<string>, now: int): (u: Recipe)
    ensures u.id == r.id && u.ownerEmail == r.ownerEmail && u.createdAt == r.createdAt
    ensures u.title == form.title && u.description == form.description && u.category == form.category
    ensures u.ingredients == ingredients && u.steps == steps && u.updatedAt == Some(now)
    ensures Truthy(form.whyLove) ==> u.whyLove == form.whyLove.value
    ensures !Truthy(form.whyLove) ==> u.whyLove == ""
    ensures |newImages| == 0 ==> u.image == r.image && u.images == r.images && u.extraImages == r.extraImages
    ensures |newImages| > 0 ==>
      && u.image == Some(newImages[0]) && u.images == Some(newImages)
      && u.extraImages.Some? && [newImages[0]] + u.extraImages.value == newImages
  {
    var updated := r.(title := form.title, description := form.description, category := form.category,
                      whyLove := OrEmpty(form.whyLove), ingredients := ingredients, steps := steps,
                      updatedAt := Some(now));
    if |newImages| > 0 then
      updated.(image := Some(newImages[0]), images := Some(newImages), extraImages := Some(newImages[1..]))
    else updated
  }

  /** PUT /recipes/:title. Nothing is written unless the caller owns the
      first recipe with that title and both JSON fields parse; then that
      recipe, and only it, gets the new fields. */
  method UpdateRecipe(db: Db, caller: Option<Identity>, title: string, form: RecipeForm,
                      filenames: seq<string>, now: int) returns (r: Reply<string>)
    requires db.Valid()
    modifies db`recipes
    ensures db.Valid()
    ensures !OwnerAccess(old(db.recipes), CallerEmail(caller), title).Owner? ==>
      r == Refusal(OwnerAccess(old(db.recipes), CallerEmail(caller), title)) && db.recipes == old(db.recipes)
    ensures OwnerAccess(old(db.recipes), CallerEmail(caller), title).Owner? ==>
      var i := OwnerAccess(old(db.recipes), CallerEmail(caller), title).index;
      if form.ingredients.Malformed? || form.steps.Malformed? then
        r == Err(500, UPDATE_FAILED) && db.recipes == old(db.recipes)
      else
        && r == Ok(200, "Recipe updated")
        && db.recipes == old(db.recipes)[i := ApplyUpdate(old(db.recipes)[i], form,
                                                          ParseList(form.ingredients).value,
                                                          ParseList(form.steps).value,
                                                          UploadPaths(filenames), now)]
  {
    var access := OwnerAccess(db.recipes, CallerEmail(caller), title);
    if !access.Owner? {
      return Refusal(access);
    }
    var i := access.index;
    var ingredients := ParseList(form.ingredients);
    var steps := ParseList(form.steps);
    if ingredients.None? || steps.None? {
      return Err(500, UPDATE_FAILED);
    }
    var newImages := UploadPaths(filenames);
    var updated := ApplyUpdate(db.recipes[i], form, ingredients.value, steps.value, newImages, now);
    ReplaceKeepsDistinct(db.recipes, RecipeId, i, updated);
    db.recipes := db.recipes[i := updated];
    r := Ok(200, "Recipe updated");
  }

  /** DELETE /recipes/:title. The same gate; the owner's request removes the
      first recipe with that title. Favorites and comments that name it stay. */
  method DeleteRecipe(db: Db, caller: Option<Identity>, title: string) returns (r: Reply<string>)
    requires db.Valid()
    modifies db`recipes
    ensures db.Valid()
    ensures db.favorites == old(db.favorites) && db.comments == old(db.comments)
    ensures !OwnerAccess(old(db.recipes), CallerEmail(caller), title).Owner? ==>
      r == Refusal(OwnerAccess(old(db.recipes), CallerEmail(caller), title)) && db.recipes == old(db.recipes)
    ensures OwnerAccess(old(db.recipes), CallerEmail(caller), title).Owner? ==>
      && r == Ok(200, "Recipe deleted")
      && db.recipes == RemoveAt(old(db.recipes), OwnerAccess(old(db.recipes), CallerEmail(caller), title).index)
  {
    var access := OwnerAccess(db.recipes, CallerEmail(caller), title);
    if !access.Owner? {
      return Refusal(access);
    }
    RemoveKeepsDistinct(db.recipes, RecipeId, access.index);
    db.recipes := RemoveAt(db.recipes, access.index);
    r := Ok(200, "Recipe deleted");
  }

  // ---------------------------------------------------------------------
  // Featured recipes
  // ---------------------------------------------------------------------

  /** The position of the i-th featured recipe among n on day `day` of the
      month. */
  function FeaturedIndex(n: nat, day: nat, i: nat): (k: nat)
    requires n > 0
    ensures k < n
  {
    (day % n + i) % n
  }

  /** The four featured entries: a window of four consecutive recipes,
      wrapping around, starting at the day of the month mod n. With no recipes every index is
      NaN and every entry is `undefined`, sent as null. */
  function Featured(normalized: seq<Recipe>, day: nat): (f: seq<Option<Recipe>>)
    ensures |f| == FEATURED_COUNT
    ensures |normalized| == 0 ==> forall i :: 0 <= i < |f| ==> f[i] == None
  {
    var n := |normalized|;
    seq(FEATURED_COUNT, i requires 0 <= i < FEATURED_COUNT =>
      if n == 0 then None else Some(normalized[FeaturedIndex(n, day, i)]))
  }

  /** The loop of `getFeaturedRecipes`: four pushes, starting at the day of
      the month mod n and wrapping around. */
  method PickFeatured(normalized: seq<Recipe>, day: nat) returns (featured: seq<Option<Recipe>>)
    ensures featured == Featured(normalized, day)
  {
    var n := |normalized|;
    ghost var spec := Featured(normalized, day);
    featured := [];
    var i := 0;
    while i < FEATURED_COUNT
      invariant 0 <= i <= FEATURED_COUNT && |featured| == i
      invariant forall j :: 0 <= j < i ==> featured[j] == spec[j]
    {
      if n == 0 {
        featured := featured + [None];
      } else {
        featured := featured + [Some(normalized[FeaturedIndex(n, day, i)])];
      }
      i := i + 1;
    }
  }

  /** GET /recipes/featured: the recipes normalised as on GET /recipes,
      then the four picks; `day` is the day of the month the clock gives. */
  method GetFeaturedRecipes(db: Db, day: nat) returns (featured: seq<Option<Recipe>>)
    ensures featured == Featured(NormalizeAll(db.recipes), day)
  {
    var normalized := NormalizeAll(db.recipes);
    featured := PickFeatured(normalized, day);
  }

  /** Every featured entry is one of the normalised recipes; there are none
      only when there are no recipes. */
  lemma FeaturedAreRecipes(normalized: seq<Recipe>, day: nat)
    ensures forall i :: 0 <= i < FEATURED_COUNT ==>
      (Featured(normalized, day)[i].Some? <==> |normalized| > 0)
    ensures forall i :: 0 <= i < FEATURED_COUNT && Featured(normalized, day)[i].Some? ==>
      Featured(normalized, day)[i].value in normalized
  {
  }

  /** With at least four recipes the four entries sit at four different
      positions. */
  lemma {:induction false} FeaturedDistinctWhenEnough(n: nat, day: nat)
    requires n >= FEATURED_COUNT
    ensures forall i, j :: 0 <= i < j < FEATURED_COUNT ==> FeaturedIndex(n, day, i) != FeaturedIndex(n, day, j)
  {
    var s := day % n;
    forall i, j | 0 <= i < j < FEATURED_COUNT
      ensures FeaturedIndex(n, day, i) != FeaturedIndex(n, day, j)
    {
      ModBelowTwice(s + i, n);
      ModBelowTwice(s + j, n);
    }
  }

  /** From one day to the next the window moves on by one recipe. */
  lemma {:induction false} FeaturedShiftsDaily(normalized: seq<Recipe>, day: nat, i: nat)
    requires |normalized| > 0 && i + 1 < FEATURED_COUNT
    ensures Featured(normalized, day + 1)[i] == Featured(normalized, day)[i + 1]
  {
    var n := |normalized|;
    var q := day / n;
    var r := day % n;
    assert day == q * n + r;
    if r + 1 < n {
      DivModUnique(day + 1, n, q, r + 1);
    } else {
      assert day + 1 == (q + 1) * n + 0;
      DivModUnique(day + 1, n, q + 1, 0);
      ModAddPeriod(i, n);
      assert r + (i + 1) == i + n;
    }
  }

  /** Below twice the modulus, the remainder is at most one subtraction. */
  lemma ModBelowTwice(x: int, n: int)
    requires n > 0 && 0 <= x < 2 * n
    ensures x % n == if x < n then x else x - n
  {
    if x >= n {
      assert x == 1 * n + (x - n);
    }
  }

  /** With fewer than four recipes the window wraps: entry i + n repeats
      entry i. */
  lemma FeaturedRepeatsWhenFew(normalized: seq<Recipe>, day: nat, i: nat)
    requires 0 < |normalized| && i + |normalized| < FEATURED_COUNT
    ensures Featured(normalized, day)[i + |normalized|] == Featured(normalized, day)[i]
  {
    var n := |normalized|;
    var s := day % n;
    assert (s + i + n) % n == (s + i) % n by {
      ModAddPeriod(s + i, n);
    }
  }

  /** Adding the modulus does not change the remainder. */
  lemma ModAddPeriod(a: nat, n: nat)
    requires n > 0
    ensures (a + n) % n == a % n
  {
    var q := a / n;
    assert a == q * n + a % n;
    assert a + n == (q + 1) * n + a % n;
    DivModUnique(a + n, n, q + 1, a % n);
  }
}

/** The favorites handlers (controllers/favoriteController.js). A favorite
    links a user email to a recipe title; adding upserts on that pair,
    removing deletes one document of that pair, and listing joins the
    caller's favorites with the recipes of the same title. */
module Favorites {
  import opened Base
  import opened Security
  import opened Store

  const UNAUTHORIZED := "Unauthorized"
  const RECIPE_NOT_FOUND := "Recipe not found"

  /** `updateOne({userEmail, title}, {$set: {userEmail, title, createdAt}},
      {upsert: true})`: the first document of the pair is rewritten where it
      stands, or a new one is appended. */
  function Upsert(favs: seq<Favorite>, email: string, title: string, now: int): (r: seq<Favorite>)
    ensures Favorite(email, title, now) in r
    ensures |r| == if HasKey(favs, FavoriteKey, (email, title)) then |favs| else |favs| + 1
    ensures forall f :: f in r ==> f in favs || f == Favorite(email, title, now)
    ensures forall j :: 0 <= j < |favs| && FavoriteKey(favs[j]) != (email, title) ==> favs[j] in r
  {
    match FirstWithKey(favs, FavoriteKey, (email, title))
    case Some(i) =>
      var r := favs[i := Favorite(email, title, now)];
      assert r[i] == Favorite(email, title, now);
      assert forall j :: 0 <= j < |favs| && j != i ==> r[j] == favs[j];
      r
    case None => favs + [Favorite(email, title, now)]
  }

  /** `deleteOne({userEmail, title})`: the first document of the pair goes,
      nothing else changes. */
  function Delete(favs: seq<Favorite>, email: string, title: string): (r: seq<Favorite>)
    ensures |r| == if HasKey(favs, FavoriteKey, (email, title)) then |favs| - 1 else |favs|
    ensures forall f :: f in r ==> f in favs
    ensures forall j :: 0 <= j < |favs| && FavoriteKey(favs[j]) != (email, title) ==> favs[j] in r
  {
    match FirstWithKey(favs, FavoriteKey, (email, title))
    case Some(i) =>
      var r := RemoveAt(favs, i);
      assert forall j :: 0 <= j < i ==> r[j] == favs[j];
      assert forall j :: i < j < |favs| ==> r[j - 1] == favs[j];
      r
    case None => favs
  }

  /** After an upsert the pair has exactly one document, the new one, and
      pairs stay unique. */
  lemma UpsertKeepsOnePerPair(favs: seq<Favorite>, email: string, title: string, now: int)
    requires KeysDistinct(favs, FavoriteKey)
    ensures KeysDistinct(Upsert(favs, email, title, now), FavoriteKey)
    ensures WithKey(Upsert(favs, email, title, now), FavoriteKey, (email, title)) == [Favorite(email, title, now)]
  {
    var x := Favorite(email, title, now);
    match FirstWithKey(favs, FavoriteKey, (email, title))
    case Some(i) =>
      ReplaceKeepsDistinct(favs, FavoriteKey, i, x);
      WithKeyOfDistinct(favs[i := x], FavoriteKey, i);
    case None =>
      AppendKeepsDistinct(favs, FavoriteKey, x);
      WithKeyOfDistinct(favs + [x], FavoriteKey, |favs|);
  }

  /** An upsert leaves the documents of every other pair as they were. */
  lemma UpsertKeepsOtherPairs(favs: seq<Favorite>, email: string, title: string, now: int, k: (string, string))
    requires k != (email, title)
    ensures WithKey(Upsert(favs, email, title, now), FavoriteKey, k) == WithKey(favs, FavoriteKey, k)
  {
    var x := Favorite(email, title, now);
    match FirstWithKey(favs, FavoriteKey, (email, title))
    case Some(i) =>
      WithKeyUpdateOther(favs, FavoriteKey, i, x, k);
    case None =>
      WithKeyAppend(favs, [x], FavoriteKey, k);
  }

  /** Adding a favorite again later is the same as adding it once, at the
      later time: the second upsert rewrites the document the first one
      left, and only its `createdAt` changes. */
  lemma {:induction false} UpsertLaterWins(favs: seq<Favorite>, email: string, title: string, n1: int, n2: int)
    ensures Upsert(Upsert(favs, email, title, n1), email, title, n2) == Upsert(favs, email, title, n2)
  {
    match FirstWithKey(favs, FavoriteKey, (email, title))
    case Some(i) => RewriteTwice(favs, email, title, n1, n2, i);
    case None => AppendThenRewrite(favs, email, title, n1, n2);
  }

  /** The pair is stored at i: both upserts rewrite position i. */
  lemma RewriteTwice(favs: seq<Favorite>, email: string, title: string, n1: int, n2: int, i: nat)
    requires FirstWithKey(favs, FavoriteKey, (email, title)) == Some(i)
    ensures Upsert(Upsert(favs, email, title, n1), email, title, n2) == Upsert(favs, email, title, n2)
  {
    var once := favs[i := Favorite(email, title, n1)];
    UpsertRewrites(favs, email, title, n1, i);
    UpsertRewrites(favs, email, title, n2, i);
    FirstWithKeyAt(once, FavoriteKey, (email, title), i);
    UpsertRewrites(once, email, title, n2, i);
    assert once[i := Favorite(email, title, n2)] == favs[i := Favorite(email, title, n2)];
  }

  /** The pair is new: the first upsert appends, the second rewrites the
      appended document. */
  lemma AppendThenRewrite(favs: seq<Favorite>, email: string, title: string, n1: int, n2: int)
    requires FirstWithKey(favs, FavoriteKey, (email, title)) == None
    ensures Upsert(Upsert(favs, email, title, n1), email, title, n2) == Upsert(favs, email, title, n2)
  {
    var once := favs + [Favorite(email, title, n1)];
    UpsertAppends(favs, email, title, n1);
    UpsertAppends(favs, email, title, n2);
    assert forall j :: 0 <= j < |favs| ==> once[j] == favs[j];
    FirstWithKeyAt(once, FavoriteKey, (email, title), |favs|);
    UpsertRewrites(once, email, title, n2, |favs|);
    assert once[|favs| := Favorite(email, title, n2)] == favs + [Favorite(email, title, n2)];
  }

  /** When the pair's first document is at i, the upsert rewrites it there. */
  lemma UpsertRewrites(favs: seq<Favorite>, email: string, title: string, now: int, i: nat)
    requires FirstWithKey(favs, FavoriteKey, (email, title)) == Some(i)
    ensures Upsert(favs, email, title, now) == favs[i := Favorite(email, title, now)]
  {
  }

  /** When the pair has no document, the upsert appends one. */
  lemma UpsertAppends(favs: seq<Favorite>, email: string, title: string, now: int)
    requires FirstWithKey(favs, FavoriteKey, (email, title)) == None
    ensures Upsert(favs, email, title, now) == favs + [Favorite(email, title, now)]
  {
  }

  /** With one document per pair, a removal leaves none of that pair, keeps
      pairs unique and leaves every other pair's documents as they were. */
  lemma DeleteRemovesPair(favs: seq<Favorite>, email: string, title: string, k: (string, string))
    requires KeysDistinct(favs, FavoriteKey)
    ensures KeysDistinct(Delete(favs, email, title), FavoriteKey)
    ensures !HasKey(Delete(favs, email, title), FavoriteKey, (email, title))
    ensures k != (email, title) ==>
      WithKey(Delete(favs, email, title), FavoriteKey, k) == WithKey(favs, FavoriteKey, k)
  {
    match FirstWithKey(favs, FavoriteKey, (email, title))
    case Some(i) =>
      RemoveKeepsDistinct(favs, FavoriteKey, i);
      var r := RemoveAt(favs, i);
      forall j | 0 <= j < |r|
        ensures FavoriteKey(r[j]) != (email, title)
      {
        if j >= i {
          assert r[j] == favs[j + 1];
        }
      }
      if k != (email, title) {
        WithKeyRemoveOther(favs, FavoriteKey, i, k);
      }
    case None =>
  }

  /** Adding a favorite that was not there and removing it again restores
      the collection exactly. */
  lemma AddThenRemove(favs: seq<Favorite>, email: string, title: string, now: int)
    requires !HasKey(favs, FavoriteKey, (email, title))
    ensures Delete(Upsert(favs, email, title, now), email, title) == favs
  {
    var x := Favorite(email, title, now);
    var once := favs + [x];
    assert Upsert(favs, email, title, now) == once;
    assert forall j :: 0 <= j < |favs| ==> once[j] == favs[j];
    assert FirstWithKey(once, FavoriteKey, (email, title)) == Some(|favs|);
    assert RemoveAt(once, |favs|) == favs;
  }

  /** The `$match`, `$lookup`, `$unwind`, `$replaceRoot` pipeline: for each
      favorite of the email in collection order, every recipe with its
      title, in collection order; a favorite whose recipe is gone yields
      nothing. */
  function FavoriteRecipes(favs: seq<Favorite>, recipes: seq<Recipe>, email: string): (r: seq<Recipe>)
    ensures forall x :: x in r <==>
      x in recipes && exists j :: 0 <= j < |favs| && favs[j].userEmail == email && favs[j].title == x.title
  {
    if |favs| == 0 then []
    else
      var here := if favs[0].userEmail == email then WithKey(recipes, RecipeTitle, favs[0].title) else [];
      var rest := FavoriteRecipes(favs[1..], recipes, email);
      WithKeyMembership(recipes, RecipeTitle, favs[0].title);
      assert forall x :: x in rest ==> exists j :: 0 <= j < |favs| && favs[j].userEmail == email && favs[j].title == x.title by {
        forall x | x in rest
          ensures exists j :: 0 <= j < |favs| && favs[j].userEmail == email && favs[j].title == x.title
        {
          var j' :| 0 <= j' < |favs[1..]| && favs[1..][j'].userEmail == email && favs[1..][j'].title == x.title;
          assert favs[j' + 1] == favs[1..][j'];
        }
      }
      assert forall x ::
        (x in recipes && (exists j :: 0 <= j < |favs| && favs[j].userEmail == email && favs[j].title == x.title))
        ==> x in here + rest by {
        forall x | x in recipes && exists j :: 0 <= j < |favs| && favs[j].userEmail == email && favs[j].title == x.title
          ensures x in here + rest
        {
          var j :| 0 <= j < |favs| && favs[j].userEmail == email && favs[j].title == x.title;
          if j > 0 {
            assert favs[1..][j - 1] == favs[j];
          }
        }
      }
      here + rest
  }

  /** POST /favorites/:title. 401 without a caller email, 404 when no recipe
      has the title; neither writes. Otherwise the caller's favorite for the
      title is upserted. */
  method AddFavorite(db: Db, caller: Option<Identity>, title: string, now: int) returns (r: Reply<string>)
    requires db.Valid()
    modifies db`favorites
    ensures db.Valid()
    ensures CallerEmail(caller) == "" ==> r == Err(401, UNAUTHORIZED) && db.favorites == old(db.favorites)
    ensures CallerEmail(caller) != "" && !HasKey(db.recipes, RecipeTitle, title) ==>
      r == Err(404, RECIPE_NOT_FOUND) && db.favorites == old(db.favorites)
    ensures CallerEmail(caller) != "" && HasKey(db.recipes, RecipeTitle, title) ==>
      r == Ok(200, "Added to favorites") && db.favorites == Upsert(old(db.favorites), CallerEmail(caller), title, now)
  {
    var userEmail := CallerEmail(caller);
    if userEmail == "" {
      return Err(401, UNAUTHORIZED);
    }
    var recipe := FirstWithKey(db.recipes, RecipeTitle, title);
    if recipe.None? {
      return Err(404, RECIPE_NOT_FOUND);
    }
    UpsertKeepsOnePerPair(db.favorites, userEmail, title, now);
    db.favorites := Upsert(db.favorites, userEmail, title, now);
    r := Ok(200, "Added to favorites");
  }

  /** GET /favorites: 401 without a caller email, else the joined recipes. */
  function GetFavorites(db: Db, caller: Option<Identity>): (r: Reply<seq<Recipe>>)
    reads db
    ensures CallerEmail(caller) == "" <==> r == Err(401, UNAUTHORIZED)
    ensures r.Ok? ==> r.status == 200 && forall x :: x in r.body <==>
      x in db.recipes && exists f :: f in db.favorites && f.userEmail == CallerEmail(caller) && f.title == x.title
  {
    if CallerEmail(caller) == "" then Err(401, UNAUTHORIZED)
    else Ok(200, FavoriteRecipes(db.favorites, db.recipes, CallerEmail(caller)))
  }

  /** DELETE /favorites/:title. 401 without a caller email; otherwise the
      caller's favorite for the title is deleted, and the reply is the same
      whether or not there was one. */
  method RemoveFavorite(db: Db, caller: Option<Identity>, title: string) returns (r: Reply<string>)
    requires db.Valid()
    modifies db`favorites
    ensures db.Valid()
    ensures CallerEmail(caller) == "" ==> r == Err(401, UNAUTHORIZED) && db.favorites == old(db.favorites)
    ensures CallerEmail(caller) != "" ==>
      r == Ok(200, "Favorite removed") && db.favorites == Delete(old(db.favorites), CallerEmail(caller), title)
  {
    var userEmail := CallerEmail(caller);
    if userEmail == "" {
      return Err(401, UNAUTHORIZED);
    }
    DeleteRemovesPair(db.favorites, userEmail, title, (userEmail, title));
    db.favorites := Delete(db.favorites, userEmail, title);
    r := Ok(200, "Favorite removed");
  }

  /** A recipe the caller has just favorited is in the caller's list, and
      after removing the favorite no recipe of that title is. */
  lemma FavoriteListFollowsAddAndRemove(favs: seq<Favorite>, recipes: seq<Recipe>, email: string,
                                        title: string, now: int)
    requires KeysDistinct(favs, FavoriteKey)
    ensures forall x :: x in recipes && x.title == title ==>
      x in FavoriteRecipes(Upsert(favs, email, title, now), recipes, email)
    ensures forall x :: x in FavoriteRecipes(Delete(favs, email, title), recipes, email) ==> x.title != title
  {
    var up := Upsert(favs, email, title, now);
    var j :| 0 <= j < |up| && up[j] == Favorite(email, title, now);
    var del := Delete(favs, email, title);
    DeleteRemovesPair(favs, email, title, (email, title));
    assert forall i :: 0 <= i < |del| ==> FavoriteKey(del[i]) != (email, title);
  }
}

/** The documents of the six collections the handlers read and write, and
    the database as an object whose collections the handlers update in
    place. Each collection is a sequence in natural (insertion) order. */
module Store {
  import opened Base

  /** `ObjectId.toString()`: 24 hexadecimal digits. `new ObjectId(s)`
      throws for any string that is not of this form. */
  predicate IsObjectId(s: string)
  {
    |s| == 24 && forall i :: 0 <= i < |s| ==> s[i] in "0123456789abcdefABCDEF"
  }

  /** A `users` document. `password` holds the bcrypt hash. `aboutMe` and
      `profilePicUrl` are None when absent or null. */
  datatype User = User(
    id: string,
    name: string,
    email: string,
    password: string,
    aboutMe: Option<string>,
    profilePicUrl: Option<string>)

  /** What the handlers send back about a user: every field but the hash. */
  datatype UserView = UserView(
    id: string,
    name: string,
    email: string,
    aboutMe: Option<string>,
    profilePicUrl: Option<string>)

  function View(u: User): UserView
  {
    UserView(u.id, u.name, u.email, u.aboutMe, u.profilePicUrl)
  }

  /** A `recipes` document. The image fields are optional because documents
      written before they existed lack them. */
  datatype Recipe = Recipe(
    id: string,
    title: string,
    description: string,
    category: string,
    whyLove: string,
    image: Option<string>,
    images: Option<seq<string>>,
    extraImages: Option<seq<string>>,
    ingredients: seq<string>,
    steps: seq<string>,
    ownerEmail: Option<string>,
    createdAt: Option<int>,
    updatedAt: Option<int>)

  /** A `favorites` document. */
  datatype Favorite = Favorite(userEmail: string, title: string, createdAt: int)

  /** A `comments` document; `rating` is None for null. */
  datatype Comment = Comment(recipeTitle: string, rating: Option<int>, comment: string, createdAt: int)

  /** A `newsletter` document. */
  datatype Subscriber = Subscriber(email: string, date: int)

  /** A local date-time: a day number (day 0 is 1970-01-01) and the
      milliseconds since midnight. */
  datatype Instant = Instant(day: int, millis: int)

  /** One cell of the weekly grid. */
  datatype MealSlot = MealSlot(id: Option<string>, name: string, imageUrl: Option<string>)

  /** A `mealPlans` document. */
  datatype MealPlan = MealPlan(
    userId: string,
    weekStartDate: Instant,
    meals: seq<seq<MealSlot>>,
    createdAt: int,
    updatedAt: int)

  // The keys the handlers look documents up by.
  function UserId(u: User): string { u.id }
  function UserEmail(u: User): string { u.email }
  function RecipeId(r: Recipe): string { r.id }
  function RecipeTitle(r: Recipe): string { r.title }
  function FavoriteKey(f: Favorite): (string, string) { (f.userEmail, f.title) }
  function CommentTitle(c: Comment): string { c.recipeTitle }
  function SubscriberEmail(s: Subscriber): string { s.email }
  function PlanKey(p: MealPlan): (string, Instant) { (p.userId, p.weekStartDate) }

  /** The invariant of the `users` collection under sequential requests:
      every id is an ObjectId, and ids and emails are unique. */
  ghost predicate UsersValid(users: seq<User>)
  {
    && (forall i :: 0 <= i < |users| ==> IsObjectId(users[i].id))
    && KeysDistinct(users, UserId)
    && KeysDistinct(users, UserEmail)
  }

  class Db {
    var users: seq<User>
    var recipes: seq<Recipe>
    var favorites: seq<Favorite>
    var comments: seq<Comment>
    var newsletter: seq<Subscriber>
    var mealPlans: seq<MealPlan>

    /** What every handler keeps: at most one document per key where a
        handler checks or upserts on that key. */
    ghost predicate Valid()
      reads this
    {
      && UsersValid(users)
      && KeysDistinct(recipes, RecipeId)
      && KeysDistinct(favorites, FavoriteKey)
      && KeysDistinct(newsletter, SubscriberEmail)
      && KeysDistinct(mealPlans, PlanKey)
    }

    constructor ()
      ensures Valid()
      ensures users == [] && recipes == [] && favorites == []
      ensures comments == [] && newsletter == [] && mealPlans == []
    {
      users, recipes, favorites := [], [], [];
      comments, newsletter, mealPlans := [], [], [];
    }
  }
}

/** The weekly meal plan handlers (controllers/mealPlanController.js). A plan
    is stored per user and per week, the week being named by its Monday at
    00:00; reading a week that has no plan gives an empty 3 x 7 grid. */
module MealPlans {
  import opened Base
  import opened Store

  const MISSING_DATA := "Missing dateString or meals data."
  const PLAN_SAVED := "Meal plan saved successfully"
  const FETCH_FAILED := "Failed to fetch meal plan"
  const SAVE_FAILED := "Failed to save meal plan"

  /** `Date.prototype.getDay`: 0 for Sunday up to 6 for Saturday. Day 0,
      1970-01-01, was a Thursday. */
  function DayOfWeek(day: int): (w: int)
    ensures 0 <= w < 7
  {
    (day + 4) % 7
  }

  /** How many days back the week's Monday lies: 6 on a Sunday, one less
      than the weekday otherwise. */
  function MondayOffset(weekday: int): (k: int)
    requires 0 <= weekday < 7
    ensures 0 <= k < 7
    ensures (k + 1) % 7 == weekday
  {
    if weekday == 0 then 6 else weekday - 1
  }

  /** `getStartOfWeek`: step the date back to its Monday, then set the
      clock to 00:00:00.000. */
  function StartOfWeek(t: Instant): (s: Instant)
    ensures s.millis == 0
    ensures t.day - 6 <= s.day <= t.day
  {
    Instant(t.day - MondayOffset(DayOfWeek(t.day)), 0)
  }

  /** The Monday-based week a day belongs to: week 0 runs from Monday
      1969-12-29 (day -3) to Sunday 1970-01-04 (day 3). */
  function WeekNumber(day: int): int
  {
    (day + 3) / 7
  }

  /** The start of the week is the first day of the day's week number. */
  lemma {:induction false} StartOfWeekDay(t: Instant)
    ensures StartOfWeek(t).day == 7 * WeekNumber(t.day) - 3
  {
    var q := (t.day + 3) / 7;
    var m := (t.day + 3) % 7;
    assert t.day + 3 == q * 7 + m;
    if m < 6 {
      DivModUnique(t.day + 4, 7, q, m + 1);
    } else {
      DivModUnique(t.day + 4, 7, q + 1, 0);
    }
  }

  /** The start of every week is a Monday at midnight. */
  lemma StartOfWeekIsMonday(t: Instant)
    ensures DayOfWeek(StartOfWeek(t).day) == 1 && StartOfWeek(t).millis == 0
  {
    StartOfWeekDay(t);
    var q := WeekNumber(t.day);
    DivModUnique(StartOfWeek(t).day + 4, 7, q, 1);
  }

  /** A week's start is its own start: Mondays at midnight are fixed. */
  lemma StartOfWeekIdempotent(t: Instant)
    ensures StartOfWeek(StartOfWeek(t)) == StartOfWeek(t)
  {
    StartOfWeekDay(t);
    var s := StartOfWeek(t);
    var q := WeekNumber(t.day);
    DivModUnique(s.day + 3, 7, q, 0);
    StartOfWeekDay(s);
  }

  /** Two dates share a plan key exactly when they fall in the same
      Monday-to-Sunday week, whatever their time of day. */
  lemma SameWeekSameKey(a: Instant, b: Instant)
    ensures StartOfWeek(a) == StartOfWeek(b) <==> WeekNumber(a.day) == WeekNumber(b.day)
  {
    StartOfWeekDay(a);
    StartOfWeekDay(b);
  }

  const EMPTY_SLOT := MealSlot(None, "-", None)

  /** `INITIAL_MEAL_DATA`: three rows of seven empty slots. */
  function InitialMeals(): (m: seq<seq<MealSlot>>)
    ensures |m| == 3
    ensures forall i :: 0 <= i < |m| ==> |m[i]| == 7
    ensures forall i, j :: 0 <= i < |m| && 0 <= j < |m[i]| ==> m[i][j] == MealSlot(None, "-", None)
  {
    seq(3, _ => seq(7, _ => EMPTY_SLOT))
  }

  /** The meals of the user's plan for the week, or the empty grid. */
  function PlanMeals(plans: seq<MealPlan>, userId: string, week: Instant): (m: seq<seq<MealSlot>>)
    ensures (forall j :: 0 <= j < |plans| ==> PlanKey(plans[j]) != (userId, week)) ==> m == InitialMeals()
    ensures KeysDistinct(plans, PlanKey) ==>
      forall j :: 0 <= j < |plans| && PlanKey(plans[j]) == (userId, week) ==> m == plans[j].meals
  {
    match FirstWithKey(plans, PlanKey, (userId, week))
    case Some(i) => plans[i].meals
    case None => InitialMeals()
  }

  /** GET /meal-plans/:weekStartDate. An id that is not an ObjectId makes
      `new ObjectId` throw, which gives 500; otherwise the meals of the plan
      for the date's week, or the empty grid. */
  function GetMealPlan(db: Db, userId: string, date: Instant): (r: Reply<seq<seq<MealSlot>>>)
    reads db
    ensures r.Err? <==> !IsObjectId(userId)
    ensures r.Err? ==> r == Err(500, FETCH_FAILED)
    ensures r.Ok? && !HasKey(db.mealPlans, PlanKey, (userId, StartOfWeek(date))) ==> r.body == InitialMeals()
    ensures r.Ok? && HasKey(db.mealPlans, PlanKey, (userId, StartOfWeek(date))) ==>
      exists i :: 0 <= i < |db.mealPlans| && PlanKey(db.mealPlans[i]) == (userId, StartOfWeek(date))
        && r.body == db.mealPlans[i].meals
  {
    if !IsObjectId(userId) then Err(500, FETCH_FAILED)
    else Ok(200, PlanMeals(db.mealPlans, userId, StartOfWeek(date)))
  }

  /** The upsert `saveMealPlan` sends: `$set` meals and updatedAt on the
      plan of the key, `$setOnInsert` createdAt when there is none. */
  function SavePlan(plans: seq<MealPlan>, userId: string, week: Instant,
                    meals: seq<seq<MealSlot>>, now: int): (r: seq<MealPlan>)
    ensures |r| == if HasKey(plans, PlanKey, (userId, week)) then |plans| else |plans| + 1
    ensures forall j :: 0 <= j < |plans| && PlanKey(plans[j]) != (userId, week) ==> r[j] == plans[j]
    ensures forall j :: |plans| <= j < |r| ==> PlanKey(r[j]) == (userId, week)
    ensures FirstWithKey(r, PlanKey, (userId, week)).Some?
    ensures
      var p := r[FirstWithKey(r, PlanKey, (userId, week)).value];
      && p.meals == meals && p.updatedAt == now
      && p.createdAt == (match FirstWithKey(plans, PlanKey, (userId, week))
                         case Some(i) => plans[i].createdAt
                         case None => now)
  {
    var key := (userId, week);
    match FirstWithKey(plans, PlanKey, key)
    case Some(i) =>
      var r := plans[i := plans[i].(meals := meals, updatedAt := now)];
      assert PlanKey(plans[i]) == key && PlanKey(r[i]) == key;
      assert forall j :: 0 <= j < i ==> r[j] == plans[j] && PlanKey(r[j]) != key;
      assert FirstWithKey(r, PlanKey, key) == Some(i);
      r
    case None =>
      var r := plans + [MealPlan(userId, week, meals, now, now)];
      assert PlanKey(r[|plans|]) == key;
      assert forall j :: 0 <= j < |plans| ==> r[j] == plans[j] && PlanKey(r[j]) != key;
      assert FirstWithKey(r, PlanKey, key) == Some(|plans|);
      r
  }

  /** Saving keeps one plan per (user, week) and leaves exactly one for the
      key it saved. */
  lemma SavePlanKeepsOnePerKey(plans: seq<MealPlan>, userId: string, week: Instant,
                               meals: seq<seq<MealSlot>>, now: int)
    requires KeysDistinct(plans, PlanKey)
    ensures KeysDistinct(SavePlan(plans, userId, week, meals, now), PlanKey)
    ensures |WithKey(SavePlan(plans, userId, week, meals, now), PlanKey, (userId, week))| == 1
  {
    var key := (userId, week);
    var r := SavePlan(plans, userId, week, meals, now);
    match FirstWithKey(plans, PlanKey, key)
    case Some(i) =>
      var p := plans[i].(meals := meals, updatedAt := now);
      ReplaceKeepsDistinct(plans, PlanKey, i, p);
      assert r == plans[i := p];
      WithKeyOfDistinct(r, PlanKey, i);
    case None =>
      var p := MealPlan(userId, week, meals, now, now);
      AppendKeepsDistinct(plans, PlanKey, p);
      assert r == plans + [p];
      WithKeyOfDistinct(r, PlanKey, |plans|);
  }

  /** Once a week is saved, reading any date of that week gives the saved
      meals; every other user's and week's plan reads as before. */
  lemma {:induction false} SaveThenGet(plans: seq<MealPlan>, userId: string, saved: Instant,
                                       meals: seq<seq<MealSlot>>, now: int, userId': string, read: Instant)
    ensures WeekNumber(read.day) == WeekNumber(saved.day) && userId' == userId ==>
      PlanMeals(SavePlan(plans, userId, StartOfWeek(saved), meals, now), userId', StartOfWeek(read)) == meals
    ensures (userId', StartOfWeek(read)) != (userId, StartOfWeek(saved)) ==>
      PlanMeals(SavePlan(plans, userId, StartOfWeek(saved), meals, now), userId', StartOfWeek(read))
      == PlanMeals(plans, userId', StartOfWeek(read))
  {
    SameWeekSameKey(saved, read);
    var key := (userId, StartOfWeek(saved));
    var other := (userId', StartOfWeek(read));
    var r := SavePlan(plans, userId, StartOfWeek(saved), meals, now);
    if other != key {
      FirstWithKeyAgree(plans, r, PlanKey, other);
    }
  }

  /** A store that extends s while agreeing with it on every document of key
      k finds the same first document of that key. */
  lemma FirstWithKeyAgree<T, K>(s: seq<T>, t: seq<T>, key: T -> K, k: K)
    requires |s| <= |t|
    requires forall j :: 0 <= j < |s| && key(s[j]) == k ==> t[j] == s[j]
    requires forall j :: 0 <= j < |s| && key(s[j]) != k ==> key(t[j]) != k
    requires forall j :: |s| <= j < |t| ==> key(t[j]) != k
    ensures FirstWithKey(s, key, k) == FirstWithKey(t, key, k)
    ensures FirstWithKey(s, key, k).Some? ==> t[FirstWithKey(s, key, k).value] == s[FirstWithKey(s, key, k).value]
  {
    var a := FirstWithKey(s, key, k);
    if a.Some? {
      assert key(t[a.value]) == k;
    }
  }

  /** `result.modifiedCount`: 1 when an existing plan's document changed. */
  function ModifiedCount(plans: seq<MealPlan>, userId: string, week: Instant,
                         meals: seq<seq<MealSlot>>, now: int): (c: nat)
    ensures c <= 1
    ensures c == 1 <==> HasKey(plans, PlanKey, (userId, week)) && SavePlan(plans, userId, week, meals, now) != plans
  {
    match FirstWithKey(plans, PlanKey, (userId, week))
    case Some(i) => if plans[i].(meals := meals, updatedAt := now) != plans[i] then 1 else 0
    case None => 0
  }

  /** `result.upsertedCount`: 1 when no plan had the key. */
  function UpsertedCount(plans: seq<MealPlan>, userId: string, week: Instant): (c: nat)
    ensures c <= 1
    ensures c == 1 <==> forall j :: 0 <= j < |plans| ==> PlanKey(plans[j]) != (userId, week)
  {
    if HasKey(plans, PlanKey, (userId, week)) then 0 else 1
  }

  /** PUT /meal-plans. A missing date or missing meals gives 400 (an empty
      meals array is present); an id that is not an ObjectId gives 500;
      neither writes. Otherwise the plan of the user and the date's week is
      upserted, and the reply reports whether it was modified or inserted. */
  method SaveMealPlan(db: Db, userId: string, date: Option<Instant>, meals: Option<seq<seq<MealSlot>>>, now: int)
    returns (r: Reply<(string, nat, nat)>)
    requires db.Valid()
    modifies db`mealPlans
    ensures db.Valid()
    ensures date.None? || meals.None? ==> r == Err(400, MISSING_DATA) && db.mealPlans == old(db.mealPlans)
    ensures date.Some? && meals.Some? && !IsObjectId(userId) ==>
      r == Err(500, SAVE_FAILED) && db.mealPlans == old(db.mealPlans)
    ensures date.Some? && meals.Some? && IsObjectId(userId) ==>
      var week := StartOfWeek(date.value);
      && db.mealPlans == SavePlan(old(db.mealPlans), userId, week, meals.value, now)
      && r == Ok(200, (PLAN_SAVED, ModifiedCount(old(db.mealPlans), userId, week, meals.value, now),
                       UpsertedCount(old(db.mealPlans), userId, week)))
      && ModifiedCount(old(db.mealPlans), userId, week, meals.value, now)
         + UpsertedCount(old(db.mealPlans), userId, week) <= 1
  {
    if date.None? || meals.None? {
      return Err(400, MISSING_DATA);
    }
    if !IsObjectId(userId) {
      return Err(500, SAVE_FAILED);
    }
    var week := StartOfWeek(date.value);
    var modified := ModifiedCount(db.mealPlans, userId, week, meals.value, now);
    var upserted := UpsertedCount(db.mealPlans, userId, week);
    SavePlanKeepsOnePerKey(db.mealPlans, userId, week, meals.value, now);
    db.mealPlans := SavePlan(db.mealPlans, userId, week, meals.value, now);
    r := Ok(200, (PLAN_SAVED, modified, upserted));
  }
}

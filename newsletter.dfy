/** The newsletter subscription handler
    (controllers/newsletterController.js): check, insert, then send the
    welcome mail. Whether the mail went out is a parameter. */
module Newsletter {
  import opened Base
  import opened Store

  const EMAIL_REQUIRED := "Email is required"
  const ALREADY_SUBSCRIBED := "This email is already subscribed."
  const SUBSCRIPTION_FAILED := "Subscription failed"
  const SUBSCRIBED := "Subscribed successfully! Check your email."

  /** What a subscription request does to the `newsletter` collection: a
      missing or known email leaves it as it is, a new one is appended. */
  function Enroll(list: seq<Subscriber>, email: Option<string>, now: int): (r: seq<Subscriber>)
    ensures |list| <= |r| <= |list| + 1 && r[..|list|] == list
    ensures |r| == |list| + 1 <==> Truthy(email) && !HasKey(list, SubscriberEmail, email.value)
    ensures |r| == |list| + 1 ==> r[|list|] == Subscriber(email.value, now)
    ensures Truthy(email) ==> HasKey(r, SubscriberEmail, email.value)
  {
    if !Truthy(email) || HasKey(list, SubscriberEmail, email.value) then list
    else list + [Subscriber(email.value, now)]
  }

  /** Subscribing keeps at most one entry per email, and afterwards the
      email is subscribed exactly once. */
  lemma EnrollKeepsOnePerEmail(list: seq<Subscriber>, email: string, now: int)
    requires KeysDistinct(list, SubscriberEmail)
    ensures KeysDistinct(Enroll(list, Some(email), now), SubscriberEmail)
    ensures email != "" ==> |WithKey(Enroll(list, Some(email), now), SubscriberEmail, email)| == 1
  {
    var r := Enroll(list, Some(email), now);
    if email != "" {
      match FirstWithKey(list, SubscriberEmail, email)
      case Some(i) =>
        WithKeyOfDistinct(list, SubscriberEmail, i);
      case None =>
        AppendKeepsDistinct(list, SubscriberEmail, Subscriber(email, now));
        WithKeyOfDistinct(r, SubscriberEmail, |list|);
    }
  }

  /** Subscribing the same email again, at any later time, changes nothing. */
  lemma EnrollIdempotent(list: seq<Subscriber>, email: Option<string>, t1: int, t2: int)
    ensures Enroll(Enroll(list, email, t1), email, t2) == Enroll(list, email, t1)
  {
    var once := Enroll(list, email, t1);
    if Truthy(email) {
      assert HasKey(once, SubscriberEmail, email.value);
    }
  }

  /** POST /newsletter/subscribe. A missing email and an email already
      subscribed give 400 and write nothing. A new email is stored first;
      then a failed welcome mail gives 500 but the subscription stays. */
  method SubscribeNewsletter(db: Db, email: Option<string>, mailSent: bool, now: int) returns (r: Reply<string>)
    requires db.Valid()
    modifies db`newsletter
    ensures db.Valid()
    ensures db.newsletter == Enroll(old(db.newsletter), email, now)
    ensures !Truthy(email) ==> r == Err(400, EMAIL_REQUIRED)
    ensures Truthy(email) && HasKey(old(db.newsletter), SubscriberEmail, email.value) ==>
      r == Err(400, ALREADY_SUBSCRIBED)
    ensures Truthy(email) && !HasKey(old(db.newsletter), SubscriberEmail, email.value) ==>
      r == if mailSent then Ok(200, SUBSCRIBED) else Err(500, SUBSCRIPTION_FAILED)
  {
    if !Truthy(email) {
      return Err(400, EMAIL_REQUIRED);
    }
    var existing := FirstWithKey(db.newsletter, SubscriberEmail, email.value);
    if existing.Some? {
      return Err(400, ALREADY_SUBSCRIBED);
    }
    EnrollKeepsOnePerEmail(db.newsletter, email.value, now);
    db.newsletter := db.newsletter + [Subscriber(email.value, now)];
    if !mailSent {
      return Err(500, SUBSCRIPTION_FAILED);
    }
    r := Ok(200, SUBSCRIBED);
  }
}

/** The comment handlers (controllers/commentController.js): adding a rating
    or comment for a recipe title, and listing a title's comments newest
    first. */
module Comments {
  import opened Base
  import opened Store

  const RATING_OR_COMMENT_REQUIRED := "Rating or comment is required"
  const COMMENT_ADDED := "Comment added"

  /** The comment document `addComment` builds: an absent rating is stored
      as null, an absent or empty comment as "". */
  function NewComment(title: string, rating: Option<int>, comment: Option<string>, now: int): (c: Comment)
    ensures c.recipeTitle == title && c.rating == rating && c.createdAt == now
    ensures Truthy(comment) ==> c.comment == comment.value
    ensures !Truthy(comment) ==> c.comment == ""
  {
    Comment(title, rating, if Truthy(comment) then comment.value else "", now)
  }

  /** POST /comments/:title. A request with neither a non-empty comment nor
      a rating is refused with 400 and writes nothing; anything else appends
      one comment and echoes it. */
  method AddComment(db: Db, title: string, rating: Option<int>, comment: Option<string>, now: int)
    returns (r: Reply<(string, Comment)>)
    modifies db`comments
    ensures (!Truthy(comment) && rating.None?) <==> r.Err?
    ensures r.Err? ==> r == Err(400, RATING_OR_COMMENT_REQUIRED) && db.comments == old(db.comments)
    ensures r.Ok? ==>
      && r == Ok(200, (COMMENT_ADDED, NewComment(title, rating, comment, now)))
      && db.comments == old(db.comments) + [NewComment(title, rating, comment, now)]
  {
    if !Truthy(comment) && rating.None? {
      return Err(400, RATING_OR_COMMENT_REQUIRED);
    }
    var doc := NewComment(title, rating, comment, now);
    db.comments := db.comments + [doc];
    r := Ok(200, (COMMENT_ADDED, doc));
  }

  /** `sort({createdAt: -1})`: never an older comment before a newer one. */
  ghost predicate NewestFirst(s: seq<Comment>)
  {
    forall i, j :: 0 <= i < j < |s| ==> s[i].createdAt >= s[j].createdAt
  }

  /** Puts c into a newest-first sequence, ahead of every comment that is not
      newer. The head afterwards is c or the old head. */
  function InsertByDate(c: Comment, s: seq<Comment>): (r: seq<Comment>)
    requires NewestFirst(s)
    ensures NewestFirst(r)
    ensures multiset(r) == multiset(s) + multiset{c}
    ensures |r| == |s| + 1 && (r[0] == c || (|s| > 0 && r[0] == s[0]))
  {
    if |s| == 0 || c.createdAt >= s[0].createdAt then [c] + s
    else
      var rest := InsertByDate(c, s[1..]);
      assert s == [s[0]] + s[1..];
      assert s[0].createdAt >= rest[0].createdAt;
      [s[0]] + rest
  }

  /** The newest-first order of a list of comments. */
  function SortNewestFirst(s: seq<Comment>): (r: seq<Comment>)
    ensures NewestFirst(r)
    ensures multiset(r) == multiset(s)
  {
    if |s| == 0 then []
    else
      assert s == [s[0]] + s[1..];
      InsertByDate(s[0], SortNewestFirst(s[1..]))
  }

  /** Two sequences with the same multiset hold the same elements. */
  lemma SameMultisetSameMembers(a: seq<Comment>, b: seq<Comment>)
    requires multiset(a) == multiset(b)
    ensures forall c :: c in a <==> c in b
  {
    assert forall c :: c in a <==> c in multiset(a);
  }

  /** GET /comments/:title: exactly the comments stored for that title,
      each as often as it is stored, newest first. */
  function GetCommentsForRecipe(db: Db, title: string): (r: seq<Comment>)
    reads db
    ensures NewestFirst(r)
    ensures multiset(r) == multiset(WithKey(db.comments, CommentTitle, title))
    ensures forall c :: c in r <==> c in db.comments && c.recipeTitle == title
  {
    var r := SortNewestFirst(WithKey(db.comments, CommentTitle, title));
    WithKeyMembership(db.comments, CommentTitle, title);
    SameMultisetSameMembers(r, WithKey(db.comments, CommentTitle, title));
    r
  }

  /** A comment added later than every stored one heads its title's list. */
  lemma {:induction false} NewestCommentListedFirst(db: Db, title: string, rating: Option<int>,
                                                    comment: Option<string>, now: int)
    requires forall c :: c in db.comments ==> c.createdAt < now
    ensures
      var listed := SortNewestFirst(WithKey(db.comments + [NewComment(title, rating, comment, now)], CommentTitle, title));
      |listed| > 0 && listed[0] == NewComment(title, rating, comment, now)
  {
    var d := NewComment(title, rating, comment, now);
    var all := db.comments + [d];
    var listed := WithKey(all, CommentTitle, title);
    WithKeyMembership(all, CommentTitle, title);
    var r := SortNewestFirst(listed);
    assert d in listed;
    assert d in multiset(r);
    var k :| 0 <= k < |r| && r[k] == d;
    assert r[0] in multiset(listed);
    assert r[0] in all;
    assert r[0].createdAt >= r[k].createdAt;
  }
}

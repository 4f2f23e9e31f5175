/** The documents the social feed works on, and the array updates the
    engagement routes apply to them (`$push` appends, `$pull` removes every
    occurrence). */
module Social {
  import opened Options
  import Query

  /** One entry of a post's `comments` array. */
  datatype Comment = Comment(
    commentId: string,
    userId: string,
    text: string,
    parentId: string,
    likes: seq<string>,
    createdAt: string)

  /** A post document. `userId.uid`, the author reference the feed joins on,
      is `authorUid`; `createdAt` is the creation time in milliseconds, as
      `$toLong` reads it; `bookmarks` may be missing from older documents. */
  datatype Post = Post(
    postId: string,
    authorUid: string,
    content: string,
    impressions: nat,
    commentsCount: nat,
    repostsCount: nat,
    likes: seq<string>,
    bookmarks: Option<seq<string>>,
    comments: seq<Comment>,
    createdAt: int,
    isRepost: bool,
    originalPostId: Option<string>)

  /** The part of a user document the feed reads and the engagement routes
      write: the subscription flag the ranking rewards, and the mirrors of the
      posts the user liked and bookmarked. */
  datatype User = User(uid: string, subscribed: bool, likes: seq<string>, bookmarks: seq<string>)

  /** The post's bookmarks, a missing field read as empty (`post.bookmarks ?? []`). */
  function BookmarksOf(p: Post): (b: seq<string>)
    ensures p.bookmarks.None? ==> b == []
    ensures p.bookmarks.Some? ==> b == p.bookmarks.value
  {
    p.bookmarks.GetOr([])
  }

  /** `$pull`: every occurrence of `x` leaves the array, nothing else does. */
  function Pull(s: seq<string>, x: string): (r: seq<string>)
    ensures x !in r
    ensures forall y :: y != x ==> (y in r <==> y in s)
  {
    Query.Filter(s, y => y != x)
  }

  /** `add ? $push : $pull` of `x`: afterwards `x` is present exactly when it
      was pushed, and no other element changes membership. */
  function PushOrPull(s: seq<string>, x: string, add: bool): (r: seq<string>)
    ensures x in r <==> add
    ensures forall y :: y != x ==> (y in r <==> y in s)
  {
    if add then s + [x] else Pull(s, x)
  }

  /** A toggle: pull `x` when present, push it when absent. */
  function Toggled(s: seq<string>, x: string): (r: seq<string>)
    ensures x in r <==> x !in s
    ensures forall y :: y != x ==> (y in r <==> y in s)
  {
    PushOrPull(s, x, x !in s)
  }

  /** Two toggles by the same actor restore the membership of every element,
      and restore the array itself when the actor was absent at first. */
  lemma ToggleTwice(s: seq<string>, x: string)
    ensures forall y :: y in Toggled(Toggled(s, x), x) <==> y in s
    ensures x !in s ==> Toggled(Toggled(s, x), x) == s
  {
    if x !in s {
      assert Toggled(s, x) == s + [x];
      assert Toggled(s + [x], x) == Pull(s + [x], x);
      Query.FilterConcat(s, [x], y => y != x);
      Query.FilterKeepsAll(s, y => y != x);
    }
  }

  /** `n` toggles in a row by the same actor. */
  function Toggles(s: seq<string>, x: string, n: nat): seq<string> {
    if n == 0 then s else Toggled(Toggles(s, x, n - 1), x)
  }

  /** After `n` toggles the actor is present iff it was present at first xor
      `n` is odd; every other element keeps its membership. */
  lemma {:induction false} TogglesParity(s: seq<string>, x: string, n: nat)
    ensures x in Toggles(s, x, n) <==> (x in s) != (n % 2 == 1)
    ensures forall y :: y != x ==> (y in Toggles(s, x, n) <==> y in s)
  {
    if n > 0 {
      TogglesParity(s, x, n - 1);
    }
  }
}

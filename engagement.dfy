/** The engagement routes of `/posts`: like, bookmark, impression, comment,
    comment like and repost, as state changes of a store of post and user
    documents keyed by `postId` and `uid`. */
module Engagement {
  import opened Options
  import opened Http
  import opened Social

  const PostNotFound := "Post not found"
  /** The TypeError messages a missing post or comment raises in the comment-like route. */
  const NullPostError := "Cannot read properties of null (reading 'comments')"
  const UndefinedCommentError := "Cannot read properties of undefined (reading 'likes')"

  // ---------------------------------------------------------------------
  // The invariant the engagement routes keep

  /** Every document sits under its own id. */
  ghost predicate KeyedById(posts: map<string, Post>, users: map<string, User>) {
    && (forall k :: k in posts ==> posts[k].postId == k)
    && (forall k :: k in users ==> users[k].uid == k)
  }

  /** A post's likes name a user exactly when that user's likes name the
      post, and a user's likes name only existing posts. */
  ghost predicate LikesMirrored(posts: map<string, Post>, users: map<string, User>) {
    && (forall p, u :: p in posts && u in users ==> (u in posts[p].likes <==> p in users[u].likes))
    && (forall u, p :: u in users && p in users[u].likes ==> p in posts)
  }

  /** The same for bookmarks, a missing `bookmarks` field read as empty. */
  ghost predicate BookmarksMirrored(posts: map<string, Post>, users: map<string, User>) {
    && (forall p, u :: p in posts && u in users ==> (u in BookmarksOf(posts[p]) <==> p in users[u].bookmarks))
    && (forall u, p :: u in users && p in users[u].bookmarks ==> p in posts)
  }

  ghost predicate StoreConsistent(posts: map<string, Post>, users: map<string, User>) {
    KeyedById(posts, users) && LikesMirrored(posts, users) && BookmarksMirrored(posts, users)
  }

  // ---------------------------------------------------------------------
  // The documents the routes build

  /** The `{ new: true }` document of a liked post. */
  function WithLikeToggled(p: Post, userId: string): (q: Post)
    ensures q == p.(likes := q.likes)
    ensures userId in q.likes <==> userId !in p.likes
    ensures forall y :: y != userId ==> (y in q.likes <==> y in p.likes)
  {
    p.(likes := Toggled(p.likes, userId))
  }

  /** The post after a bookmark toggle; a missing array is created by `$push`. */
  function WithBookmarkToggled(p: Post, userId: string): (q: Post)
    ensures q == p.(bookmarks := q.bookmarks) && q.bookmarks.Some?
    ensures userId in BookmarksOf(q) <==> userId !in BookmarksOf(p)
    ensures forall y :: y != userId ==> (y in BookmarksOf(q) <==> y in BookmarksOf(p))
  {
    p.(bookmarks := Some(Toggled(BookmarksOf(p), userId)))
  }

  /** `User.updateOne({ uid: userId }, ...)` on the user's likes: matches no
      document when the user does not exist. */
  function MirrorLike(users: map<string, User>, userId: string, postId: string, add: bool): (r: map<string, User>)
    ensures r.Keys == users.Keys
    ensures forall k :: k in users && k != userId ==> r[k] == users[k]
    ensures userId in users ==>
      && r[userId] == users[userId].(likes := r[userId].likes)
      && (postId in r[userId].likes <==> add)
      && forall y :: y != postId ==> (y in r[userId].likes <==> y in users[userId].likes)
  {
    if userId in users then users[userId := users[userId].(likes := PushOrPull(users[userId].likes, postId, add))]
    else users
  }

  function MirrorBookmark(users: map<string, User>, userId: string, postId: string, add: bool): (r: map<string, User>)
    ensures r.Keys == users.Keys
    ensures forall k :: k in users && k != userId ==> r[k] == users[k]
    ensures userId in users ==>
      && r[userId] == users[userId].(bookmarks := r[userId].bookmarks)
      && (postId in r[userId].bookmarks <==> add)
      && forall y :: y != postId ==> (y in r[userId].bookmarks <==> y in users[userId].bookmarks)
  {
    if userId in users then users[userId := users[userId].(bookmarks := PushOrPull(users[userId].bookmarks, postId, add))]
    else users
  }

  /** The comment the route builds: `parentId || ""`, no likes yet. */
  function NewComment(commentId: string, userId: string, text: string, parentId: Option<string>, now: string): (c: Comment)
    ensures c.commentId == commentId && c.userId == userId && c.text == text
    ensures c.likes == []
    ensures c.parentId == (if parentId.Some? then parentId.value else "")
    ensures c.createdAt == now
  {
    Comment(commentId, userId, text, parentId.GetOr(""), [], now)
  }

  /** The first index whose comment carries `commentId`, as `Array.find` and
      the positional operator `comments.$` both pick it. */
  function FindComment(cs: seq<Comment>, commentId: string): (r: Option<nat>)
    ensures r.Some? ==> r.value < |cs| && cs[r.value].commentId == commentId
    ensures r.Some? ==> forall k :: 0 <= k < r.value ==> cs[k].commentId != commentId
    ensures r.None? <==> forall k :: 0 <= k < |cs| ==> cs[k].commentId != commentId
  {
    if cs == [] then None
    else if cs[0].commentId == commentId then Some(0)
    else match FindComment(cs[1..], commentId)
         case None => None
         case Some(i) => Some(i + 1)
  }

  /** The repost document: a fresh post referring to the original. */
  function NewRepost(postId: string, userId: string, originalPostId: string, content: string, now: int): (p: Post)
    ensures p.postId == postId && p.authorUid == userId && p.content == content
    ensures p.isRepost && p.originalPostId == Some(originalPostId)
    ensures p.impressions == 0 && p.commentsCount == 0 && p.repostsCount == 0
    ensures p.likes == [] && BookmarksOf(p) == [] && p.comments == []
    ensures p.createdAt == now
  {
    Post(postId, userId, content, 0, 0, 0, [], Some([]), [], now, true, Some(originalPostId))
  }

  /** The store after saving `rp` and `$inc`ing the repost count of the post
      that then carries `originalPostId`. */
  function AfterRepost(posts: map<string, Post>, rp: Post, originalPostId: string): (r: map<string, Post>)
    ensures r.Keys == posts.Keys + {rp.postId}
    ensures rp.postId != originalPostId ==> r[rp.postId] == rp
    ensures forall k :: k in posts && k != rp.postId && k != originalPostId ==> r[k] == posts[k]
    ensures originalPostId in posts && originalPostId != rp.postId ==>
              r[originalPostId] == posts[originalPostId].(repostsCount := posts[originalPostId].repostsCount + 1)
    ensures originalPostId == rp.postId ==> r[rp.postId] == rp.(repostsCount := rp.repostsCount + 1)
  {
    var saved := posts[rp.postId := rp];
    if originalPostId in saved
    then saved[originalPostId := saved[originalPostId].(repostsCount := saved[originalPostId].repostsCount + 1)]
    else saved
  }

  // ---------------------------------------------------------------------
  // Each route keeps the invariant

  /** A like toggle keeps likes mirrored: the post's likes and the liker's
      likes move in the same direction. */
  lemma LikeKeepsLikesMirrored(posts: map<string, Post>, users: map<string, User>, postId: string, userId: string)
    requires LikesMirrored(posts, users) && postId in posts
    ensures LikesMirrored(posts[postId := WithLikeToggled(posts[postId], userId)],
                          MirrorLike(users, userId, postId, userId !in posts[postId].likes))
  {
    var posts' := posts[postId := WithLikeToggled(posts[postId], userId)];
    var users' := MirrorLike(users, userId, postId, userId !in posts[postId].likes);
    forall p, u | p in posts' && u in users'
      ensures u in posts'[p].likes <==> p in users'[u].likes
    {
      assert u in posts[p].likes <==> p in users[u].likes;
    }
  }

  /** A like toggle touches no bookmark and no key. */
  lemma LikeKeepsBookmarksMirrored(posts: map<string, Post>, users: map<string, User>, postId: string, userId: string)
    requires KeyedById(posts, users) && BookmarksMirrored(posts, users) && postId in posts
    ensures var posts' := posts[postId := WithLikeToggled(posts[postId], userId)];
            var users' := MirrorLike(users, userId, postId, userId !in posts[postId].likes);
            KeyedById(posts', users') && BookmarksMirrored(posts', users')
  {
    var posts' := posts[postId := WithLikeToggled(posts[postId], userId)];
    var users' := MirrorLike(users, userId, postId, userId !in posts[postId].likes);
    forall p, u | p in posts' && u in users'
      ensures u in BookmarksOf(posts'[p]) <==> p in users'[u].bookmarks
    {
      assert u in BookmarksOf(posts[p]) <==> p in users[u].bookmarks;
    }
  }

  /** A like toggle keeps the store consistent. */
  lemma LikeKeepsConsistency(posts: map<string, Post>, users: map<string, User>, postId: string, userId: string)
    requires StoreConsistent(posts, users) && postId in posts
    ensures StoreConsistent(posts[postId := WithLikeToggled(posts[postId], userId)],
                            MirrorLike(users, userId, postId, userId !in posts[postId].likes))
  {
    LikeKeepsLikesMirrored(posts, users, postId, userId);
    LikeKeepsBookmarksMirrored(posts, users, postId, userId);
  }

  /** A bookmark toggle keeps bookmarks mirrored. */
  lemma BookmarkKeepsBookmarksMirrored(posts: map<string, Post>, users: map<string, User>, postId: string, userId: string)
    requires BookmarksMirrored(posts, users) && postId in posts
    ensures BookmarksMirrored(posts[postId := WithBookmarkToggled(posts[postId], userId)],
                              MirrorBookmark(users, userId, postId, userId !in BookmarksOf(posts[postId])))
  {
    var posts' := posts[postId := WithBookmarkToggled(posts[postId], userId)];
    var users' := MirrorBookmark(users, userId, postId, userId !in BookmarksOf(posts[postId]));
    forall p, u | p in posts' && u in users'
      ensures u in BookmarksOf(posts'[p]) <==> p in users'[u].bookmarks
    {
      assert u in BookmarksOf(posts[p]) <==> p in users[u].bookmarks;
    }
  }

  /** A bookmark toggle touches no like and no key. */
  lemma BookmarkKeepsLikesMirrored(posts: map<string, Post>, users: map<string, User>, postId: string, userId: string)
    requires KeyedById(posts, users) && LikesMirrored(posts, users) && postId in posts
    ensures var posts' := posts[postId := WithBookmarkToggled(posts[postId], userId)];
            var users' := MirrorBookmark(users, userId, postId, userId !in BookmarksOf(posts[postId]));
            KeyedById(posts', users') && LikesMirrored(posts', users')
  {
    var posts' := posts[postId := WithBookmarkToggled(posts[postId], userId)];
    var users' := MirrorBookmark(users, userId, postId, userId !in BookmarksOf(posts[postId]));
    forall p, u | p in posts' && u in users'
      ensures u in posts'[p].likes <==> p in users'[u].likes
    {
      assert u in posts[p].likes <==> p in users[u].likes;
    }
  }

  /** A bookmark toggle keeps the store consistent. */
  lemma BookmarkKeepsConsistency(posts: map<string, Post>, users: map<string, User>, postId: string, userId: string)
    requires StoreConsistent(posts, users) && postId in posts
    ensures StoreConsistent(posts[postId := WithBookmarkToggled(posts[postId], userId)],
                            MirrorBookmark(users, userId, postId, userId !in BookmarksOf(posts[postId])))
  {
    BookmarkKeepsBookmarksMirrored(posts, users, postId, userId);
    BookmarkKeepsLikesMirrored(posts, users, postId, userId);
  }

  /** Replacing a post by one with the same id, likes and bookmarks (an
      impression, a comment, a comment like) keeps the store consistent. */
  lemma SameEngagementKeepsConsistency(posts: map<string, Post>, users: map<string, User>, postId: string, q: Post)
    requires StoreConsistent(posts, users) && postId in posts
    requires q.postId == postId && q.likes == posts[postId].likes && BookmarksOf(q) == BookmarksOf(posts[postId])
    ensures StoreConsistent(posts[postId := q], users)
  {
    var posts' := posts[postId := q];
    forall p, u | p in posts' && u in users
      ensures u in posts'[p].likes <==> p in users[u].likes
    {
      assert u in posts[p].likes <==> p in users[u].likes;
    }
    forall p, u | p in posts' && u in users
      ensures u in BookmarksOf(posts'[p]) <==> p in users[u].bookmarks
    {
      assert u in BookmarksOf(posts[p]) <==> p in users[u].bookmarks;
    }
  }

  /** Saving a repost under a fresh id keeps the store consistent: nobody
      likes or bookmarks it yet, and no user list names the fresh id. */
  lemma RepostKeepsConsistency(posts: map<string, Post>, users: map<string, User>, rp: Post, originalPostId: string)
    requires StoreConsistent(posts, users) && rp.postId !in posts
    requires rp.likes == [] && BookmarksOf(rp) == []
    ensures StoreConsistent(AfterRepost(posts, rp, originalPostId), users)
  {
    var saved := posts[rp.postId := rp];
    forall p, u | p in saved && u in users
      ensures u in saved[p].likes <==> p in users[u].likes
    {
      if p != rp.postId {
        assert u in posts[p].likes <==> p in users[u].likes;
      }
    }
    forall p, u | p in saved && u in users
      ensures u in BookmarksOf(saved[p]) <==> p in users[u].bookmarks
    {
      if p != rp.postId {
        assert u in BookmarksOf(posts[p]) <==> p in users[u].bookmarks;
      }
    }
    assert StoreConsistent(saved, users);
    if originalPostId in saved {
      SameEngagementKeepsConsistency(saved, users, originalPostId,
        saved[originalPostId].(repostsCount := saved[originalPostId].repostsCount + 1));
    }
  }

  /** Under the invariant the liker's own list is toggled too, so two likes
      in a row restore both the post's and the user's likes. */
  lemma MirrorIsToggle(posts: map<string, Post>, users: map<string, User>, postId: string, userId: string)
    requires StoreConsistent(posts, users) && postId in posts && userId in users
    ensures MirrorLike(users, userId, postId, userId !in posts[postId].likes)[userId].likes == Toggled(users[userId].likes, postId)
    ensures MirrorBookmark(users, userId, postId, userId !in BookmarksOf(posts[postId]))[userId].bookmarks
         == Toggled(users[userId].bookmarks, postId)
  {
    assert userId in posts[postId].likes <==> postId in users[userId].likes;
    assert userId in BookmarksOf(posts[postId]) <==> postId in users[userId].bookmarks;
  }

  /** Two likes in a row by the same user: every membership in the post's
      and in the user's likes is restored, and when the user had not liked
      the post the whole store is exactly as before. */
  lemma LikeTwiceRestores(posts: map<string, Post>, users: map<string, User>, postId: string, userId: string)
    requires StoreConsistent(posts, users) && postId in posts
    ensures
      var posts1 := posts[postId := WithLikeToggled(posts[postId], userId)];
      var users1 := MirrorLike(users, userId, postId, userId !in posts[postId].likes);
      var posts2 := posts1[postId := WithLikeToggled(posts1[postId], userId)];
      var users2 := MirrorLike(users1, userId, postId, userId !in posts1[postId].likes);
      && (forall y :: y in posts2[postId].likes <==> y in posts[postId].likes)
      && (userId in users ==> forall y :: y in users2[userId].likes <==> y in users[userId].likes)
      && (userId !in posts[postId].likes ==> posts2 == posts && users2 == users)
  {
    var p := posts[postId];
    var posts1 := posts[postId := WithLikeToggled(p, userId)];
    var users1 := MirrorLike(users, userId, postId, userId !in p.likes);
    var posts2 := posts1[postId := WithLikeToggled(posts1[postId], userId)];
    var users2 := MirrorLike(users1, userId, postId, userId !in posts1[postId].likes);
    ToggleTwice(p.likes, userId);
    if userId in users {
      var l := users[userId].likes;
      assert userId in p.likes <==> postId in l;
      assert users1[userId].likes == Toggled(l, postId);
      assert users2[userId].likes == Toggled(Toggled(l, postId), postId);
      ToggleTwice(l, postId);
      if userId !in p.likes {
        assert users2[userId] == users[userId];
        assert users2 == users;
      }
    }
    if userId !in p.likes {
      assert posts2[postId] == p;
      assert posts2 == posts;
    }
  }

  /** Two bookmark toggles in a row by the same user: every membership in
      the post's and in the user's bookmarks is restored, and when the post
      had a `bookmarks` array without the user the whole store is exactly as
      before (a missing array comes back as an empty one). */
  lemma BookmarkTwiceRestores(posts: map<string, Post>, users: map<string, User>, postId: string, userId: string)
    requires StoreConsistent(posts, users) && postId in posts
    ensures
      var posts1 := posts[postId := WithBookmarkToggled(posts[postId], userId)];
      var users1 := MirrorBookmark(users, userId, postId, userId !in BookmarksOf(posts[postId]));
      var posts2 := posts1[postId := WithBookmarkToggled(posts1[postId], userId)];
      var users2 := MirrorBookmark(users1, userId, postId, userId !in BookmarksOf(posts1[postId]));
      && (forall y :: y in BookmarksOf(posts2[postId]) <==> y in BookmarksOf(posts[postId]))
      && (userId in users ==> forall y :: y in users2[userId].bookmarks <==> y in users[userId].bookmarks)
      && (userId !in BookmarksOf(posts[postId]) ==> users2 == users)
      && (userId !in BookmarksOf(posts[postId]) && posts[postId].bookmarks.Some? ==> posts2 == posts)
  {
    var p := posts[postId];
    var b := BookmarksOf(p);
    var posts1 := posts[postId := WithBookmarkToggled(p, userId)];
    var users1 := MirrorBookmark(users, userId, postId, userId !in b);
    var posts2 := posts1[postId := WithBookmarkToggled(posts1[postId], userId)];
    var users2 := MirrorBookmark(users1, userId, postId, userId !in BookmarksOf(posts1[postId]));
    assert BookmarksOf(posts1[postId]) == Toggled(b, userId);
    assert BookmarksOf(posts2[postId]) == Toggled(Toggled(b, userId), userId);
    ToggleTwice(b, userId);
    if userId in users {
      var l := users[userId].bookmarks;
      assert userId in b <==> postId in l;
      assert users1[userId].bookmarks == Toggled(l, postId);
      assert users2[userId].bookmarks == Toggled(Toggled(l, postId), postId);
      ToggleTwice(l, postId);
      if userId !in b {
        assert users2[userId] == users[userId];
        assert users2 == users;
      }
    }
    if userId !in b && p.bookmarks.Some? {
      assert posts2[postId] == p;
      assert posts2 == posts;
    }
  }

  // ---------------------------------------------------------------------

  class PostStore {
    var posts: map<string, Post>
    var users: map<string, User>

    ghost predicate Consistent()
      reads this
    {
      StoreConsistent(posts, users)
    }

    constructor (posts: map<string, Post>, users: map<string, User>)
      ensures this.posts == posts && this.users == users
    {
      this.posts := posts;
      this.users := users;
    }

    /** `POST /:postId/like`: replies with the updated post. */
    method ToggleLike(postId: string, userId: string) returns (r: Reply<Post>)
      modifies this
      ensures postId !in old(posts) ==> r == Failed(404, PostNotFound) && posts == old(posts) && users == old(users)
      ensures postId in old(posts) ==>
        && posts == old(posts)[postId := WithLikeToggled(old(posts)[postId], userId)]
        && users == MirrorLike(old(users), userId, postId, userId !in old(posts)[postId].likes)
        && r == Done(200, posts[postId])
      ensures postId in old(posts) ==> (userId in posts[postId].likes <==> userId !in old(posts)[postId].likes)
      ensures postId in old(posts) && userId in old(users) ==>
                (postId in users[userId].likes <==> userId in posts[postId].likes)
      ensures old(Consistent()) ==> Consistent()
    {
      if postId !in posts {
        return Failed(404, PostNotFound);
      }
      if Consistent() {
        LikeKeepsConsistency(posts, users, postId, userId);
      }
      var post := posts[postId];
      var isLiked := userId in post.likes;
      var updated := post.(likes := PushOrPull(post.likes, userId, !isLiked));
      posts := posts[postId := updated];
      if userId in users {
        var user := users[userId];
        users := users[userId := user.(likes := PushOrPull(user.likes, postId, !isLiked))];
      }
      r := Done(200, updated);
    }

    /** `PATCH /:postId/bookmark`: replies with a bare 200. */
    method ToggleBookmark(postId: string, userId: string) returns (r: Reply<()>)
      modifies this
      ensures postId !in old(posts) ==> r == Failed(404, PostNotFound) && posts == old(posts) && users == old(users)
      ensures postId in old(posts) ==>
        && posts == old(posts)[postId := WithBookmarkToggled(old(posts)[postId], userId)]
        && users == MirrorBookmark(old(users), userId, postId, userId !in BookmarksOf(old(posts)[postId]))
        && r == Done(200, ())
      ensures postId in old(posts) ==> (userId in BookmarksOf(posts[postId]) <==> userId !in BookmarksOf(old(posts)[postId]))
      ensures postId in old(posts) && userId in old(users) ==>
                (postId in users[userId].bookmarks <==> userId in BookmarksOf(posts[postId]))
      ensures old(Consistent()) ==> Consistent()
    {
      if postId !in posts {
        return Failed(404, PostNotFound);
      }
      if Consistent() {
        BookmarkKeepsConsistency(posts, users, postId, userId);
      }
      var post := posts[postId];
      var current := post.bookmarks.GetOr([]);
      var isBookmarked := userId in current;
      posts := posts[postId := post.(bookmarks := Some(PushOrPull(current, userId, !isBookmarked)))];
      if userId in users {
        var user := users[userId];
        users := users[userId := user.(bookmarks := PushOrPull(user.bookmarks, postId, !isBookmarked))];
      }
      r := Done(200, ());
    }

    /** `PATCH /:postId/impression`: `$inc: { impressions: 1 }`, replying
        with the new count. */
    method Impression(postId: string) returns (r: Reply<nat>)
      modifies this
      ensures postId !in old(posts) ==> r == Failed(404, PostNotFound) && posts == old(posts)
      ensures postId in old(posts) ==>
        && posts == old(posts)[postId := old(posts)[postId].(impressions := old(posts)[postId].impressions + 1)]
        && r == Done(200, posts[postId].impressions)
      ensures users == old(users)
      ensures old(Consistent()) ==> Consistent()
    {
      if postId !in posts {
        return Failed(404, PostNotFound);
      }
      var post := posts[postId];
      var updated := post.(impressions := post.impressions + 1);
      if Consistent() {
        SameEngagementKeepsConsistency(posts, users, postId, updated);
      }
      posts := posts[postId := updated];
      r := Done(200, updated.impressions);
    }

    /** `POST /:postId/comment`: appends the comment with the generated id
        `commentId`, counts it, and replies with the first comment of the
        updated post that carries that id. */
    method AddComment(postId: string, userId: string, text: string, parentId: Option<string>, commentId: string, now: string)
      returns (r: Reply<Comment>)
      modifies this
      ensures postId !in old(posts) ==> r == Failed(404, PostNotFound) && posts == old(posts)
      ensures postId in old(posts) ==>
        var p := old(posts)[postId];
        var c := NewComment(commentId, userId, text, parentId, now);
        && posts == old(posts)[postId := p.(comments := p.comments + [c], commentsCount := p.commentsCount + 1)]
        && r.Done? && r.status == 201 && r.body.commentId == commentId
        && (FindComment(p.comments, commentId).None? ==> r.body == c)
      ensures users == old(users)
      ensures old(Consistent()) ==> Consistent()
    {
      var c := NewComment(commentId, userId, text, parentId, now);
      if postId !in posts {
        return Failed(404, PostNotFound);
      }
      var post := posts[postId];
      var updated := post.(comments := post.comments + [c], commentsCount := post.commentsCount + 1);
      if Consistent() {
        SameEngagementKeepsConsistency(posts, users, postId, updated);
      }
      posts := posts[postId := updated];
      assert updated.comments[|post.comments|].commentId == commentId;
      var found := FindComment(updated.comments, commentId);
      var i := found.value;
      if FindComment(post.comments, commentId).None? {
        assert i == |post.comments|;
      }
      r := Done(201, updated.comments[i]);
    }

    /** `PATCH /:postId/comments/:commentId/like`: toggles `userId` in the
        first comment carrying `commentId`. A missing post or comment throws
        inside the handler, which replies 500 with the error's message. */
    method ToggleCommentLike(postId: string, commentId: string, userId: string) returns (r: Reply<()>)
      modifies this
      ensures postId !in old(posts) ==> r == Failed(500, NullPostError) && posts == old(posts)
      ensures postId in old(posts) && FindComment(old(posts)[postId].comments, commentId).None? ==>
                r == Failed(500, UndefinedCommentError) && posts == old(posts)
      ensures postId in old(posts) && FindComment(old(posts)[postId].comments, commentId).Some? ==>
        var p := old(posts)[postId];
        var i := FindComment(p.comments, commentId).value;
        && posts == old(posts)[postId := p.(comments := p.comments[i := p.comments[i].(likes := Toggled(p.comments[i].likes, userId))])]
        && r == Done(200, ())
      ensures users == old(users)
      ensures old(Consistent()) ==> Consistent()
    {
      if postId !in posts {
        return Failed(500, NullPostError);
      }
      var post := posts[postId];
      var found := FindComment(post.comments, commentId);
      if found.None? {
        return Failed(500, UndefinedCommentError);
      }
      var i := found.value;
      var comment := post.comments[i];
      var isLiked := userId in comment.likes;
      var liked := comment.(likes := PushOrPull(comment.likes, userId, !isLiked));
      var updated := post.(comments := post.comments[i := liked]);
      if Consistent() {
        SameEngagementKeepsConsistency(posts, users, postId, updated);
      }
      posts := posts[postId := updated];
      r := Done(200, ());
    }

    /** `POST /repost`: saves the repost under the generated id `newPostId`,
        then `$inc`s `repostsCount` of whatever post now carries
        `originalPostId`, and replies with the saved repost. */
    method Repost(userId: string, originalPostId: string, content: string, newPostId: string, now: int)
      returns (r: Reply<Post>)
      requires newPostId !in posts
      modifies this
      ensures posts == AfterRepost(old(posts), NewRepost(newPostId, userId, originalPostId, content, now), originalPostId)
      ensures r == Done(201, NewRepost(newPostId, userId, originalPostId, content, now))
      ensures users == old(users)
      ensures old(Consistent()) ==> Consistent()
    {
      var repost := NewRepost(newPostId, userId, originalPostId, content, now);
      if Consistent() {
        RepostKeepsConsistency(posts, users, repost, originalPostId);
      }
      posts := posts[newPostId := repost];
      if originalPostId in posts {
        var original := posts[originalPostId];
        posts := posts[originalPostId := original.(repostsCount := original.repostsCount + 1)];
      }
      r := Done(201, repost);
    }
  }
}

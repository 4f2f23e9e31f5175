/** The ranked feed of `GET /posts`: each post joined to its author, scored,
    sorted by descending score and cut to the first fifty. */
module Feed {
  import opened Social

  /** A post together with the author document the join found for it. */
  datatype FeedEntry = FeedEntry(post: Post, author: User)

  const FeedLimit: nat := 50

  /** The ranking score: a bonus of 1000 for subscribed authors, 0.1 per
      impression, and the creation time in milliseconds divided by 10^9. */
  function Score(e: FeedEntry): real {
    (if e.author.subscribed then 1000.0 else 0.0)
    + (e.post.impressions as real) * 0.1
    + (e.post.createdAt as real) / 1000000000.0
  }

  /** A subscribed author adds exactly the bonus; at equal authorship more
      impressions or a later creation time never lower the score. */
  lemma ScoreMonotone(e: FeedEntry, f: FeedEntry)
    requires e.author.subscribed == f.author.subscribed
    requires e.post.impressions <= f.post.impressions && e.post.createdAt <= f.post.createdAt
    ensures Score(e) <= Score(f)
    ensures Score(FeedEntry(e.post, e.author.(subscribed := true)))
         == Score(FeedEntry(e.post, e.author.(subscribed := false))) + 1000.0
  {
  }

  /** The `$lookup` on `userId.uid` followed by `$unwind`: one entry per post
      whose author exists, in collection order; a post without author is dropped. */
  function Join(posts: seq<Post>, users: map<string, User>): (r: seq<FeedEntry>)
    ensures |r| <= |posts|
    ensures forall e :: e in r ==> e.post in posts && e.post.authorUid in users && e.author == users[e.post.authorUid]
    ensures forall p :: p in posts && p.authorUid in users ==> FeedEntry(p, users[p.authorUid]) in r
  {
    if posts == [] then []
    else if posts[0].authorUid in users then [FeedEntry(posts[0], users[posts[0].authorUid])] + Join(posts[1..], users)
    else Join(posts[1..], users)
  }

  /** The join keeps collection order and multiplicity: the join of a
      concatenation is the join of each part, one after the other. With the
      ensures of `Join` this fixes the join of every single post, so each
      authored post appears exactly once, in its place. */
  lemma {:induction false} JoinConcat(a: seq<Post>, b: seq<Post>, users: map<string, User>)
    ensures Join(a + b, users) == Join(a, users) + Join(b, users)
  {
    if a == [] {
      assert a + b == b;
    } else {
      assert (a + b)[1..] == a[1..] + b;
      JoinConcat(a[1..], b, users);
    }
  }

  /** Highest score first. */
  ghost predicate SortedByScore(s: seq<FeedEntry>) {
    forall i, j :: 0 <= i < j < |s| ==> Score(s[i]) >= Score(s[j])
  }

  /** Places `e` in front of the first entry it scores at least as high as. */
  function Insert(e: FeedEntry, s: seq<FeedEntry>): seq<FeedEntry> {
    if s == [] then [e]
    else if Score(e) >= Score(s[0]) then [e] + s
    else [s[0]] + Insert(e, s[1..])
  }

  /** The `$sort: { rankingScore: -1 }` stage. */
  function SortByScore(s: seq<FeedEntry>): seq<FeedEntry> {
    if s == [] then [] else Insert(s[0], SortByScore(s[1..]))
  }

  lemma {:induction false} InsertPermutes(e: FeedEntry, s: seq<FeedEntry>)
    ensures multiset(Insert(e, s)) == multiset(s) + multiset{e}
  {
    if s != [] && Score(e) < Score(s[0]) {
      assert s == [s[0]] + s[1..];
      InsertPermutes(e, s[1..]);
    }
  }

  /** A bound on every score survives an insertion of an entry within it. */
  lemma {:induction false} InsertBounded(e: FeedEntry, s: seq<FeedEntry>, b: real)
    requires Score(e) <= b
    requires forall k :: 0 <= k < |s| ==> Score(s[k]) <= b
    ensures forall k :: 0 <= k < |Insert(e, s)| ==> Score(Insert(e, s)[k]) <= b
  {
    if s != [] && Score(e) < Score(s[0]) {
      InsertBounded(e, s[1..], b);
    }
  }

  lemma SortedCons(x: FeedEntry, rest: seq<FeedEntry>)
    requires SortedByScore(rest)
    requires forall k :: 0 <= k < |rest| ==> Score(rest[k]) <= Score(x)
    ensures SortedByScore([x] + rest)
  {
  }

  lemma {:induction false} InsertSorted(e: FeedEntry, s: seq<FeedEntry>)
    requires SortedByScore(s)
    ensures SortedByScore(Insert(e, s))
  {
    if s == [] {
    } else if Score(e) >= Score(s[0]) {
      SortedCons(e, s);
    } else {
      var tail := s[1..];
      assert forall k :: 0 <= k < |tail| ==> Score(tail[k]) <= Score(s[0]) by {
        forall k | 0 <= k < |tail| ensures Score(tail[k]) <= Score(s[0]) {
          assert tail[k] == s[k + 1];
        }
      }
      InsertSorted(e, tail);
      InsertBounded(e, tail, Score(s[0]));
      SortedCons(s[0], Insert(e, tail));
    }
  }

  /** Sorting yields a permutation of its input, highest score first. */
  lemma {:induction false} SortByScoreCorrect(s: seq<FeedEntry>)
    ensures SortedByScore(SortByScore(s))
    ensures multiset(SortByScore(s)) == multiset(s)
  {
    if s != [] {
      SortByScoreCorrect(s[1..]);
      InsertSorted(s[0], SortByScore(s[1..]));
      InsertPermutes(s[0], SortByScore(s[1..]));
      assert s == [s[0]] + s[1..];
    }
  }

  function Min(a: nat, b: nat): nat {
    if a <= b then a else b
  }

  /** The whole pipeline: join, sort, `$limit: 50`. The reply holds at most
      fifty entries, highest score first, each a post of the collection with
      its own author, and as many as the join produced up to the limit. */
  function RankedFeed(posts: seq<Post>, users: map<string, User>): (feed: seq<FeedEntry>)
    ensures |feed| == Min(FeedLimit, |Join(posts, users)|)
    ensures SortedByScore(feed)
    ensures multiset(feed) <= multiset(Join(posts, users))
    ensures forall e :: e in feed ==> e.post in posts && e.post.authorUid in users && e.author == users[e.post.authorUid]
  {
    var sorted := SortByScore(Join(posts, users));
    SortByScoreCorrect(Join(posts, users));
    assert |multiset(sorted)| == |sorted|;
    var n := Min(FeedLimit, |sorted|);
    assert sorted == sorted[..n] + sorted[n..];
    assert forall e :: e in sorted[..n] ==> e in multiset(sorted);
    sorted[..n]
  }

  /** In a sequence sorted by score, whatever lies past a prefix scores no
      higher than anything in the prefix. */
  lemma SortedPrefixIsTop(sorted: seq<FeedEntry>, n: nat)
    requires SortedByScore(sorted) && n <= |sorted|
    ensures forall e, f :: e in multiset(sorted) - multiset(sorted[..n]) && f in sorted[..n] ==> Score(e) <= Score(f)
  {
    assert sorted == sorted[..n] + sorted[n..];
    assert multiset(sorted) - multiset(sorted[..n]) == multiset(sorted[n..]);
    forall e, f | e in multiset(sorted[n..]) && f in sorted[..n]
      ensures Score(e) <= Score(f)
    {
      var j :| 0 <= j < |sorted[n..]| && sorted[n..][j] == e;
      var i :| 0 <= i < n && sorted[..n][i] == f;
      assert sorted[i] == f && sorted[n + j] == e;
    }
  }

  /** The feed is the top of the ranking: every joined entry left out of it
      scores no higher than any entry in it. */
  lemma FeedKeepsTop(posts: seq<Post>, users: map<string, User>)
    ensures forall e, f ::
              e in multiset(Join(posts, users)) - multiset(RankedFeed(posts, users)) && f in RankedFeed(posts, users)
              ==> Score(e) <= Score(f)
  {
    var joined := Join(posts, users);
    var sorted := SortByScore(joined);
    SortByScoreCorrect(joined);
    var n := Min(FeedLimit, |sorted|);
    assert RankedFeed(posts, users) == sorted[..n];
    SortedPrefixIsTop(sorted, n);
  }

  /** A collection with at most fifty authored posts is shown whole. */
  lemma FeedShowsAllWhenFew(posts: seq<Post>, users: map<string, User>)
    requires |Join(posts, users)| <= FeedLimit
    ensures multiset(RankedFeed(posts, users)) == multiset(Join(posts, users))
  {
    var sorted := SortByScore(Join(posts, users));
    SortByScoreCorrect(Join(posts, users));
    assert |multiset(sorted)| == |sorted|;
    assert sorted[..|sorted|] == sorted;
    assert RankedFeed(posts, users) == sorted[..|sorted|];
  }

  /** A post whose author is not a user never reaches the feed. */
  lemma FeedDropsOrphans(posts: seq<Post>, users: map<string, User>, p: Post)
    requires p.authorUid !in users
    ensures forall e :: e in RankedFeed(posts, users) ==> e.post != p
  {
  }
}

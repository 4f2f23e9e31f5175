# iCampus backend: social posts, account details and course lookups

This project models the request handlers of the iCampus Express/MongoDB
backend that carry logic of their own:

- **The social-post engine** (`routes/posts.js`).
  - The ranked feed of `GET /posts`. Each post is joined to its author and
    scored: 1000 for a subscribed author, plus 0.1 per impression, plus the
    creation time in milliseconds divided by 10^9. Posts are then sorted by
    descending score and cut to fifty.
  - Six engagement routes over a store of post and user documents:
    like, bookmark, impression, comment, comment like and repost.
- **The account-details helpers** (`routes/userAccountDetails.js`).
  - The ordinal day suffix and the `formattedDate` label.
  - The random id generator.
  - `POST /account-details`, which validates the payload, selects the
    caller's card and bank records and projects each one by its method.
- **The course lookups** (`routes/class/lecturers.js` and
  `routes/class/students.js`). Each validates a payload of course ids,
  selects the courses the caller teaches or attends, and projects them
  to detail records.

Modules:

- `Query.Filter` models a `find` query: a filter over a collection read in
  its natural order.
- `Social` holds the documents and the array updates. `$push` appends;
  `$pull` removes every occurrence.
- `Feed` is the ranking pipeline, as pure functions.
- `Engagement.PostStore` is a class with two map fields, `posts`
  (keyed by `postId`) and `users` (keyed by `uid`). It has one method per
  engagement route. Each method states the whole new store and keeps the
  invariant `StoreConsistent`:
  - every document sits under its own id;
  - a post's likes name a user exactly when that user's likes name the
    post, and the same holds for bookmarks;
  - a user's lists name only existing posts.
- `Decimal` renders an integer as a template literal does, and parses
  the result back.
- `AccountDetails`, `LecturerCourses` and `StudentCourses` model the three
  lookup handlers.

Replies are `Http.Reply`: `Done(status, body)` or `Failed(status, message)`.

Inputs taken as parameters:
- generated ids: the comment id and the repost id;
- the successive values of `Math.random()`;
- the current date (day, month name and year);
- the creation timestamps.

## Model

| member | source | states |
|---|---|---|
| Social.Pull | routes/posts.js:62-63 | After `$pull` the pulled id is absent; every other id keeps its membership |
| Social.PushOrPull | routes/posts.js:62-63 | After `isLiked ? $pull : $push` the id is present exactly when it was pushed; no other id changes membership |
| Social.Toggled | routes/posts.js:59-63 | The toggled id is present afterwards iff it was absent before; all other memberships are unchanged |
| Social.ToggleTwice | routes/posts.js:59-69 | Two toggles by the same actor restore every membership, and restore the array itself when the actor was absent at first |
| Social.TogglesParity | routes/posts.js:59-69 | After n toggles the actor is present iff it was present at first xor n is odd; other elements are untouched |
| Query.Filter | routes/userAccountDetails.js:52-55 | A `find` returns exactly the documents satisfying the condition, never more than the collection holds |
| Query.FilterConcat | routes/userAccountDetails.js:52-55 | `find` keeps collection order: the matches of a concatenation are the matches of each part, in turn |
| Feed.Score | routes/posts.js:21-33 | Definition of the ranking score: 1000 for a subscribed author, plus 0.1 per impression, plus `createdAt` / 10^9, in exact reals; `Feed.ScoreMonotone` states its properties |
| Feed.ScoreMonotone | routes/posts.js:21-33 | A subscribed author adds exactly 1000; at equal subscription, more impressions or a later creation time never lower the score |
| Feed.Join | routes/posts.js:11-18 | `$lookup` plus `$unwind` yields only posts of the collection, each with its own author; every post whose author exists appears |
| Feed.JoinConcat | routes/posts.js:11-18 | The join keeps collection order and multiplicity: the join of a concatenation is the joins of its parts in turn, so with `Feed.Join`'s ensures each authored post appears exactly once, in place |
| Feed.SortByScore | routes/posts.js:35 | Definition of the `$sort: { rankingScore: -1 }` stage as an insertion sort; `Feed.SortByScoreCorrect` states what it computes |
| Feed.SortByScoreCorrect | routes/posts.js:35 | The sort stage outputs a permutation of its input, non-increasing by score |
| Feed.RankedFeed | routes/posts.js:6-48 | The feed holds min(50, joined) entries, sorted non-increasing by score, drawn from the joined posts, each with its matching author |
| Feed.FeedKeepsTop | routes/posts.js:35-36 | Every joined entry cut by the limit scores no higher than any entry kept |
| Feed.FeedShowsAllWhenFew | routes/posts.js:36 | With at most fifty authored posts the feed is exactly the joined posts, reordered |
| Feed.FeedDropsOrphans | routes/posts.js:18 | A post whose author is not a user never appears in the feed |
| Social.BookmarksOf | routes/posts.js:89 | `post.bookmarks ?? []`: a missing field reads as the empty array, a present one as itself |
| Engagement.WithLikeToggled | routes/posts.js:62 | The post after `$push`/`$pull` of the liker: the liker's membership flips, every other membership stays, and no field other than `likes` changes |
| Engagement.WithBookmarkToggled | routes/posts.js:91 | The post after the bookmark update: the array is present afterwards, the user's membership flips (a missing array read as empty), other memberships stay, and no field other than `bookmarks` changes |
| Engagement.MirrorLike | routes/posts.js:63-68 | `User.updateOne` on likes changes only the liker's document, and only when that user exists; in it the post id is present exactly when pushed, every other like keeps its membership, and no field other than `likes` changes; the set of users is unchanged |
| Engagement.MirrorBookmark | routes/posts.js:92-96 | The same for bookmarks: only the user's own document changes, the post id is present exactly when pushed, other bookmarks keep their membership, and no field other than `bookmarks` changes |
| Engagement.NewComment | routes/posts.js:151-158 | The new comment carries the generated id, the author and the text, no likes, `parentId` or "" when none was given, and the supplied creation time |
| Engagement.FindComment | routes/posts.js:173-175 | `comments.find` by id returns the first comment carrying the id, and none exactly when no comment carries it |
| Engagement.NewRepost | routes/posts.js:226-233 | The repost carries the generated id, the request's `userId` as author, the content, `isRepost`, the original's id and the supplied creation time; its counters, likes, bookmarks and comments start empty (post schema defaults assumed) |
| Engagement.AfterRepost | routes/posts.js:235-238 | Saving adds exactly the repost's key and stores the repost there (unless its own id is the one to increment); the post carrying `originalPostId`, if any, is the same document with `repostsCount` + 1 and every other field unchanged; all other posts are unchanged |
| Engagement.LikeKeepsConsistency | routes/posts.js:59-69 | The like toggle and its mirror on the user keep the store invariant |
| Engagement.BookmarkKeepsConsistency | routes/posts.js:89-97 | The bookmark toggle and its mirror on the user keep the store invariant |
| Engagement.SameEngagementKeepsConsistency | routes/posts.js:112-116 | Replacing a post by one with the same id, likes and bookmarks (impression, comment, comment like) keeps the invariant |
| Engagement.RepostKeepsConsistency | routes/posts.js:226-238 | Saving a repost under a fresh id and incrementing the original keeps the invariant |
| Engagement.MirrorIsToggle | routes/posts.js:59-63 | Under the invariant the user's own list is toggled in the same direction as the post's |
| Engagement.LikeTwiceRestores | routes/posts.js:59-69 | Two likes in a row restore every membership of the post's and the user's likes; when the user had not liked the post, the whole store is restored |
| Engagement.BookmarkTwiceRestores | routes/posts.js:89-97 | Two bookmark toggles restore every membership of both lists; the whole store is restored when the post already had a `bookmarks` array without the user |
| Engagement.PostStore.ToggleLike | routes/posts.js:51-78 | Unknown post: 404 and the store is unchanged. Otherwise: the user is in the post's likes iff not before, the user's likes move the same way, the reply is the updated post, nothing else changes, and the invariant is kept |
| Engagement.PostStore.ToggleBookmark | routes/posts.js:81-103 | Unknown post: 404, unchanged. Otherwise: the same toggle and mirror on bookmarks, a missing array read as empty and created, a bare 200, and the invariant is kept |
| Engagement.PostStore.Impression | routes/posts.js:107-142 | Unknown post: 404, unchanged. Otherwise: `impressions` grows by exactly 1, no other field or document changes, and the reply carries the new count |
| Engagement.PostStore.AddComment | routes/posts.js:145-196 | Unknown post: 404, unchanged. Otherwise: the comment is appended at the end, `commentsCount` grows by 1, and the reply is 201 with a comment carrying the generated id, the new one itself when the id was fresh |
| Engagement.PostStore.ToggleCommentLike | routes/posts.js:199-219 | Missing post or missing comment: 500 with the TypeError message, unchanged. Otherwise: only the first comment carrying the id has the user's like toggled, and the reply is 200 |
| Engagement.PostStore.Repost | routes/posts.js:222-245 | Inserts one new repost post, increments the original's `repostsCount` when it exists, leaves everything else unchanged, and replies 201 with the saved repost |
| Decimal.NatString | routes/userAccountDetails.js:32 | A non-negative number renders as a non-empty string of digits, with no leading zero when it is positive |
| Decimal.IntString | routes/userAccountDetails.js:32 | An integer renders as a non-empty string without spaces |
| Decimal.NatStringRoundTrip | routes/userAccountDetails.js:32 | The digits of n read back as n |
| Decimal.IntStringRoundTrip | routes/userAccountDetails.js:32 | A rendered integer, sign included, reads back as itself |
| AccountDetails.JsRemainder | routes/userAccountDetails.js:17 | JavaScript `%`: equal to the Euclidean remainder for non-negative dividends, in (-b, 0] for negative ones |
| AccountDetails.OrdinalSuffix | routes/userAccountDetails.js:15-27 | The suffix is one of "st", "nd", "rd", "th" |
| AccountDetails.OrdinalSuffixRule | routes/userAccountDetails.js:16-26 | Days 4 to 20 get "th"; outside that range the last digit decides (1 st, 2 nd, 3 rd, else th); negative days get "th" |
| AccountDetails.OrdinalSuffixExamples | routes/userAccountDetails.js:15-27 | 1st, 2nd, 3rd, 11th, 12th, 13th, 21st, 22nd, 23rd, 30th, 31st |
| AccountDetails.OrdinalSuffixIsEnglish | routes/userAccountDetails.js:15-27 | For 0 to 110 the suffix agrees with an independent English rule (11 to 13 are "th", otherwise the last digit) |
| AccountDetails.OrdinalSuffixPartsAt111 | routes/userAccountDetails.js:15-27 | 111 is the first number where the source's rule ("st") and the English rule ("th") differ |
| AccountDetails.FormattedDate | routes/userAccountDetails.js:32 | Definition of the template literal: day, its suffix, a space, the month, a space, the year; `AccountDetails.FormattedDateRoundTrip` states that it is unambiguous |
| AccountDetails.FormattedDateRoundTrip | routes/userAccountDetails.js:32 | The label "day+suffix month year" parses back to the same day, month and year for any month name without spaces |
| AccountDetails.DrawIndex | routes/userAccountDetails.js:38 | `Math.floor(Math.random() * 36)` is a valid index into the alphabet |
| AccountDetails.AlphabetShape | routes/userAccountDetails.js:35 | The alphabet has 36 characters, each a lower-case letter or a digit |
| AccountDetails.UserAccountDetailsId | routes/userAccountDetails.js:34-41 | The id has exactly `length` characters (10 by default, none for a non-positive length); the k-th is the alphabet character the k-th draw picks |
| Http.IsValidPayload | routes/userAccountDetails.js:48 | Definition of the payload guard, negated: `payload.ids` is present and an array; the three handlers' contracts state the 400 reply in both directions |
| AccountDetails.SelectRecords | routes/userAccountDetails.js:52-55 | Selected records are exactly those with `cardOrBankDetailsId` in the ids and owned by the user |
| AccountDetails.Project | routes/userAccountDetails.js:61-78 | A card record keeps method, brand, expiry, creation time and last four digits; a bank record gives method, bank name and last four digits as `bankAccNumber`; any other method is undefined |
| AccountDetails.PostAccountDetails | routes/userAccountDetails.js:46-81 | 400 iff the ids are missing or not an array; 404 iff no record matches; otherwise 200, and no other reply, with one projected entry per selected record, in order |
| AccountDetails.InvalidPayloadSkipsLookup | routes/userAccountDetails.js:48-50 | A malformed payload gets the same reply whatever the stored records are |
| AccountDetails.AccountDetailsInOrder | routes/userAccountDetails.js:52-55 | The selection follows collection order |
| LecturerCourses.TeachingCourses | routes/class/lecturers.js:16-19 | Selected courses are exactly those with `courseId` in the ids and the lecturer in `lecturerIds` |
| LecturerCourses.NumberOfStudents | routes/class/lecturers.js:35 | The count is the length of `studentsEnrolled`, 0 when that is absent |
| LecturerCourses.Detail | routes/class/lecturers.js:28-36 | Definition of one reply entry's seven fields; `LecturerCourses.PostCourses` states the mapping field by field |
| LecturerCourses.PostCourses | routes/class/lecturers.js:9-39 | 400 iff the payload is malformed; 404 iff the lecturer teaches none of the courses; otherwise 200, and no other reply, with one seven-field entry per course, in order, `title` read from `courseTitle` |
| LecturerCourses.InvalidPayloadSkipsLookup | routes/class/lecturers.js:11-13 | A malformed payload gets the same reply whatever the stored courses are |
| LecturerCourses.TeachingCoursesInOrder | routes/class/lecturers.js:16-19 | The selection follows collection order |
| StudentCourses.EnrolledCourses | routes/class/students.js:15-18 | Selected courses are exactly those with `courseId` in the ids and the student in `studentsEnrolled` (an absent array holds nobody) |
| StudentCourses.Detail | routes/class/students.js:27-34 | Definition of one reply entry's six fields; `StudentCourses.PostCourses` states the mapping field by field |
| Courses.EnrolledOf | models.js:41 | An absent `studentsEnrolled` array holds nobody; a present one holds its entries |
| StudentCourses.PostCourses | routes/class/students.js:9-37 | 400 iff the payload is malformed; 404 iff the student attends none of the courses; otherwise 200, and no other reply, with one six-field entry per course, in order, `title` read from `title` |
| StudentCourses.InvalidPayloadSkipsLookup | routes/class/students.js:11-13 | A malformed payload gets the same reply whatever the stored courses are |
| StudentCourses.EnrolledCoursesInOrder | routes/class/students.js:15-18 | The selection follows collection order |
| StudentCourses.SchemaCoursesHaveNoTitle | routes/class/students.js:27-34 | For courses written through the schema, which declares only `courseTitle`, every reply entry comes without a title |

## Notes on the code

- `routes/posts.js:25` reads `authorDetails.isSubscriber`, but the user schema
  declares `hasSubscribed` (`models.js:101`). As written,
  `$eq: ["$authorDetails.isSubscriber", true]` is false for every user written
  through the schema, so likely no post gets the 1000 bonus. The model has a
  single flag, `User.subscribed`, which the score reads, following the
  intended reading.
- The bookmark route replies with a bare 200 (`routes/posts.js:99`), not the
  updated post or any count.
- The comment-like route calls `findOne` without a null check (`routes/posts.js:203-206`).
  A missing post or comment makes the handler throw a TypeError, and the
  catch replies 500 with its message. The model returns those replies and
  leaves the store unchanged.
- `routes/class/students.js:30` reads `course.title`, a field the course
  schema does not declare (`models.js:44` names it `courseTitle`). `Course.title`
  is optional, and `StudentCourses.SchemaCoursesHaveNoTitle` states the
  consequence. Mongoose likely defines no accessor for paths outside the
  schema, so `course.title` is probably undefined even when a stored document
  carries a `title`; a `Course.title` of `Some(..)` is then likely unreachable
  through the route.
- `tableDeclarations.js:18` imports a `PostSchema` that `models.js` never
  defines, so the post schema is absent from the sources. The fields of
  `Post` are the ones the routes read and write.

## Left out

- Socket.io broadcasts (`post_updated`, `post_stats_updated`, `new_comment`): fire-and-forget I/O with no effect on the store.
- The `Promise.all` dual writes of the like and bookmark routes: each toggle is modelled as one atomic step, so concurrent requests and partial failure are not modelled.
- Mongoose `populate` author enrichment and the feed's `$project` (dropping `rankingScore` and the author's password): library behaviour that changes no stored state.
- The 500 replies of the `catch` blocks for database failures: the store is modelled as always reachable. Only the comment-like route's TypeErrors are modelled, because they follow from the data.
- `Math.random`, `new Date()`, `toISOString`, `Intl.DateTimeFormat` (`formattedTime`) and `toLocaleString` month names: ids, random draws, day, month name, year and timestamps are parameters.
- IEEE double arithmetic of the ranking score: `Feed.Score` uses exact reals, so rounding and ties that rounding creates or breaks are not modelled.
- Feed.SortByScore: places equal scores in one fixed order, whereas the order MongoDB gives tied documents is unspecified; no property stated here depends on the tie order.
- Feed.RankedFeed: reads the posts collection as a sequence and the `$lookup` target as the users map keyed by `uid`. The source passes the model object `User` as `from` (`routes/posts.js:12`); serialization likely drops that function-valued field, so as written MongoDB would likely reject the stage and `GET /` would reply 500. The model follows the intended join. It also assumes `uid` is unique: the user schema declares `uid: String` with no unique index (`models.js:84`), and with two users sharing a `uid` the `$unwind` would emit the post once per match and `User.updateOne` would change only the first.
- Engagement.NewRepost: assumes two things the shown sources do not establish. First, the post schema is absent from the sources (`models.js` does not define the `PostSchema` that `tableDeclarations.js:18` imports), so the zero counters and the empty `likes`, `bookmarks` and `comments` of a new repost are assumed schema defaults. Second, `routes/posts.js:228` stores the request's `userId` in the post's `userId` field, which `routes/posts.js:240` populates as a reference, while the feed joins on `userId.uid` (`routes/posts.js:13`). The model puts the request's `userId` into `authorUid`, the field `Feed.Join` reads, so in the model a repost joins to its reposter in the feed.
- Engagement.MirrorLike and Engagement.MirrorBookmark: the user schema (`models.js:83-129`) declares no `likes` or `bookmarks` arrays. Under Mongoose's default strict mode the `User.updateOne` writes at `routes/posts.js:68` and `routes/posts.js:96` would be stripped, so as written the mirror onto the user is likely a no-op. The model gives `User` both arrays and applies the writes as the routes address them, so `StoreConsistent` describes the intended behaviour, not the strict-mode outcome.
- LecturerCourses.PostCourses and StudentCourses.PostCourses: the course schema declares `lecturerIds` and `studentsEnrolled` as ObjectId references (`models.js:40-41`), so Mongoose casts the request's `user` to an ObjectId in `Course.find` (`routes/class/lecturers.js:16-19`, `routes/class/students.js:15-18`). A `user` that does not cast makes the query throw, and the catch replies 500 "Server error" (`routes/class/lecturers.js:40-42`, `routes/class/students.js:38-40`), whereas the model compares plain strings and replies 404. ObjectId equality also ignores the case of the hex digits, which string comparison does not. The model takes ids as already-normalised strings; the cast and its 500 reply are not modelled.
- Request-body values (`userId`, `user`, `payload.ids` entries, e.g. `routes/userAccountDetails.js:46`) are typed as strings. A body carrying an object such as `{"$ne": null}` would act as a MongoDB query operator; that case is not modelled.
- Engagement.PostStore.Repost: requires the generated id to be fresh. Two documents with one `postId` cannot be represented, and the nine-character random id is taken as unique.
- Engagement.PostStore.AddComment: states the reply exactly only when the generated id was fresh in the post; otherwise it states only that the reply carries the id, because `find` returns an older comment with the same id.
- Decimal.IntString: renders integers only; JavaScript's exponent notation from 10^21 upward is not modelled, since days and years never reach it.
- Timestamps: a comment's `createdAt` keeps the ISO string of `routes/posts.js:157`. A post's `createdAt` is milliseconds as an integer, on the assumption that the absent post schema types it as `Date`. The repost route writes an ISO string (`routes/posts.js:232`), and `$toLong` (`routes/posts.js:30`) yields milliseconds only after that cast; on a raw ISO string it would fail and the feed would reply 500.
- `authenticate` middleware, routers and the `req`/`res` objects: only the status and body of each reply are modelled.
- Cursor pagination, the first-page feed cache and checkout/points settlement: no shown source file implements them.
- The thin CRUD routes (`routes/user.js`, `routes/userEvents.js`, `routes/store/products.js`, `routes/verify/*.js`), the schemas' indexes and defaults, and the infrastructure (`index.js`, `rabbitmq.js`, the email producer and worker, the Redis client): they hold no logic beyond single database calls or I/O.

/** The feed queries of lib/social.ts. The backend itself is not modelled:
    what a query returns is an input, either the rows or an error. */
module SocialApi {
  import opened Wrappers
  import opened Schema

  /** The author columns joined onto a post: `profiles (id, name, nickname, avatar_url)`. */
  datatype Author = Author(id: int, name: string, nickname: Option<string>, avatarUrl: Option<string>)

  /** A `shared_data` value: loosely typed JSON that this code only passes
      along, held as its text. */
  datatype SharedData = SharedData(json: string)

  /** The `feed_posts` columns. */
  datatype PostRow = PostRow(
    id: int,
    profileId: int,
    title: Option<string>,
    description: Option<string>,
    postType: PostType,
    privacy: PrivacyLevel,
    sharedData: Option<SharedData>,
    sourceBudgetId: Option<int>,
    sourceTransactionId: Option<int>,
    createdAt: Option<string>,
    updatedAt: Option<string>)

  /** One element of a joined aggregate such as `post_likes ( count )`. */
  datatype CountEntry = CountEntry(count: Option<int>)

  /** The joined author as the query may return it: null, one object, or an array. */
  datatype Joined = NoAuthor | OneAuthor(author: Author) | AuthorList(authors: seq<Author>)

  /** A row as the feed query returns it. */
  datatype FeedRow = FeedRow(row: PostRow, postLikes: seq<CountEntry>, postComments: seq<CountEntry>, profiles: Joined)

  /** A row after normalisation: the spread keeps every column and both
      aggregates, and three fields are added or replaced. */
  datatype Post = Post(
    row: PostRow,
    postLikes: seq<CountEntry>,
    postComments: seq<CountEntry>,
    profiles: Option<Author>,
    likeCount: int,
    commentCount: int)

  /** `{ data, error }` as `getFeedPosts` and `createPost` return it. */
  datatype FeedResponse = FeedResponse(data: Option<seq<Post>>, error: Option<Error>)

  /** What `createPost` inserts. */
  datatype NewPost = NewPost(profileId: int, title: string, description: string, postType: Option<PostType>,
                             sharedData: Option<SharedData>)

  /** `entries[0]?.count ?? 0`: the first aggregate's count, or zero when
      there is no entry or its count is missing. */
  function FirstCount(entries: seq<CountEntry>): (r: int)
    ensures |entries| == 0 ==> r == 0
    ensures |entries| > 0 && entries[0].count.Some? ==> r == entries[0].count.value
    ensures |entries| > 0 && entries[0].count.None? ==> r == 0
  {
    if |entries| == 0 then 0 else entries[0].count.GetOr(0)
  }

  /** `Array.isArray(p) ? p[0] : p`: the first author of an array (none for
      an empty one, where the original reads `undefined`), otherwise the
      value as it is. */
  function FirstAuthor(j: Joined): (r: Option<Author>)
    ensures j.NoAuthor? ==> r.None?
    ensures j.OneAuthor? ==> r == Some(j.author)
    ensures j.AuthorList? ==> (r.Some? <==> |j.authors| > 0)
    ensures j.AuthorList? && |j.authors| > 0 ==> r == Some(j.authors[0])
  {
    match j
    case NoAuthor => None
    case OneAuthor(a) => Some(a)
    case AuthorList(authors) => if |authors| > 0 then Some(authors[0]) else None
  }

  /** The per-row normalisation of `getFeedPosts`. */
  function Normalize(f: FeedRow): (p: Post)
    ensures p.row == f.row && p.postLikes == f.postLikes && p.postComments == f.postComments
    ensures p.likeCount == FirstCount(f.postLikes) && p.commentCount == FirstCount(f.postComments)
    ensures p.profiles == FirstAuthor(f.profiles)
  {
    Post(f.row, f.postLikes, f.postComments, FirstAuthor(f.profiles),
         FirstCount(f.postLikes), FirstCount(f.postComments))
  }

  /** A post whose counts agree with its aggregates. */
  predicate Consistent(p: Post) {
    p.likeCount == FirstCount(p.postLikes) && p.commentCount == FirstCount(p.postComments)
  }

  /** A normalised post with its author given back as a single object. */
  function AsFeedRow(p: Post): FeedRow {
    FeedRow(p.row, p.postLikes, p.postComments,
            if p.profiles.Some? then OneAuthor(p.profiles.value) else NoAuthor)
  }

  /** Normalisation is a projection: normalising a consistent post again,
      with its author as a single object, gives the same post. */
  lemma NormalizeIsProjection(p: Post)
    requires Consistent(p)
    ensures Normalize(AsFeedRow(p)) == p
  {
  }

  /** Every normalised row is consistent. */
  lemma NormalizeConsistent(f: FeedRow)
    ensures Consistent(Normalize(f))
  {
  }

  /** `getFeedPosts` given the query's outcome. On an error, no data and
      the error's message. Otherwise every row normalised, in the order the
      query returned them (newest first), and no error. */
  function GetFeedPosts(query: Result<seq<FeedRow>>): (r: FeedResponse)
    ensures query.Err? ==> r.data.None? && r.error == Some(Error(query.error.message))
    ensures query.Ok? ==> r.error.None? && r.data.Some?
    ensures query.Ok? ==> |r.data.value| == |query.value|
    ensures query.Ok? ==>
      forall i :: 0 <= i < |query.value| ==> r.data.value[i] == Normalize(query.value[i])
  {
    match query
    case Err(e) => FeedResponse(None, Some(Error(e.message)))
    case Ok(rows) => FeedResponse(Some(seq(|rows|, i requires 0 <= i < |rows| => Normalize(rows[i]))), None)
  }

  /** `createPost` given the outcomes of the insert and of the feed read
      that follows it. A failed insert returns its error and no data; a
      successful one returns whatever the feed read returns. */
  function CreatePost(insert: Result<seq<PostRow>>, feed: Result<seq<FeedRow>>): (r: FeedResponse)
    ensures insert.Err? ==> r.data.None? && r.error == Some(insert.error)
    ensures insert.Ok? && feed.Ok? ==> r.error.None? && r.data.Some? && |r.data.value| == |feed.value|
    ensures insert.Ok? && feed.Err? ==> r.data.None? && r.error == Some(Error(feed.error.message))
  {
    match insert
    case Err(e) => FeedResponse(None, Some(e))
    case Ok(_) => GetFeedPosts(feed)
  }

  /** A failed insert never reads the feed: the result does not depend on
      what a feed read would have returned. */
  lemma CreatePostFailureIgnoresFeed(e: Error, feed1: Result<seq<FeedRow>>, feed2: Result<seq<FeedRow>>)
    ensures CreatePost(Err(e), feed1) == CreatePost(Err(e), feed2)
  {
  }

  /** After a successful insert the answer is exactly a fresh feed read. */
  lemma CreatePostSuccessIsFeedRead(rows: seq<PostRow>, feed: Result<seq<FeedRow>>)
    ensures CreatePost(Ok(rows), feed) == GetFeedPosts(feed)
  {
  }
}

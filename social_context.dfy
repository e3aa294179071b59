/** The feed cache of context/SocialContext.tsx: the `posts` and `loading`
    state of the provider and the operations that change them. Each backend
    answer is an input of the operation that awaits it. */
module SocialContext {
  import opened Wrappers
  import opened Schema
  import opened SocialApi

  /** What a screen passes to `createPost`. */
  datatype PostDraft = PostDraft(title: string, description: string, postType: Option<PostType>,
                                 sharedData: Option<SharedData>)

  const NotLoggedIn: string := "You must be logged in to create a post."

  /** The insert `createPost` sends for a draft: the draft with the viewer's id. */
  function Stamped(draft: PostDraft, viewer: Profile): (p: NewPost)
    ensures p.profileId == viewer.id
    ensures p.title == draft.title && p.description == draft.description && p.postType == draft.postType
    ensures p.sharedData == draft.sharedData
  {
    NewPost(viewer.id, draft.title, draft.description, draft.postType, draft.sharedData)
  }

  class SocialStore {
    var posts: seq<Post>
    var loading: bool
    var profile: Option<Profile>

    /** The provider starts with no posts and `loading` set. */
    constructor (viewer: Option<Profile>)
      ensures posts == [] && loading && profile == viewer
    {
      posts := [];
      loading := true;
      profile := viewer;
    }

    /** The part of `refreshFeed` before the query is awaited. */
    method StartRefresh()
      modifies this
      ensures loading
      ensures posts == old(posts) && profile == old(profile)
    {
      loading := true;
    }

    /** The part of `refreshFeed` after the query answered: the posts are
        replaced only when data came back. */
    method FinishRefresh(answer: FeedResponse)
      modifies this
      ensures !loading
      ensures posts == if answer.data.Some? then answer.data.value else old(posts)
      ensures profile == old(profile)
    {
      if answer.data.Some? {
        posts := answer.data.value;
      }
      loading := false;
    }

    /** `refreshFeed` given what the feed query returns. On an error the
        posts are kept. */
    method RefreshFeed(query: Result<seq<FeedRow>>)
      modifies this
      ensures !loading
      ensures query.Ok? ==> posts == GetFeedPosts(query).data.value
      ensures query.Err? ==> posts == old(posts)
      ensures profile == old(profile)
    {
      StartRefresh();
      FinishRefresh(GetFeedPosts(query));
    }

    /** `createPost`. Without a profile nothing is sent and an error is
        returned; otherwise the draft is sent with the viewer's id, the posts
        become the feed returned on success, and the error, if any, is
        returned with its message. `loading` is not touched. */
    method CreatePost(draft: PostDraft, insert: Result<seq<PostRow>>, feed: Result<seq<FeedRow>>)
      returns (sent: Option<NewPost>, err: Option<Error>)
      modifies this
      ensures profile.None? ==> sent.None? && err == Some(Error(NotLoggedIn)) && posts == old(posts)
      ensures profile.Some? ==> sent == Some(Stamped(draft, profile.value))
      ensures profile.Some? ==> err.Some? == (insert.Err? || feed.Err?)
      ensures profile.Some? && insert.Err? ==> err == Some(Error(insert.error.message)) && posts == old(posts)
      ensures profile.Some? && insert.Ok? ==> posts == (if feed.Ok? then GetFeedPosts(feed).data.value else old(posts))
      ensures loading == old(loading) && profile == old(profile)
    {
      if profile.None? {
        return None, Some(Error(NotLoggedIn));
      }
      sent := Some(Stamped(draft, profile.value));
      var answer := SocialApi.CreatePost(insert, feed);
      if answer.data.Some? {
        posts := answer.data.value;
      }
      err := if answer.error.Some? then Some(Error(answer.error.value.message)) else None;
    }

    /** The effect on `profile`: a new non-null profile triggers a refresh;
        a null one changes nothing else. */
    method ProfileChanged(viewer: Option<Profile>, query: Result<seq<FeedRow>>) returns (refreshed: bool)
      modifies this
      ensures profile == viewer
      ensures refreshed <==> viewer.Some?
      ensures refreshed ==> !loading
      ensures refreshed && query.Ok? ==> posts == GetFeedPosts(query).data.value
      ensures !(refreshed && query.Ok?) ==> posts == old(posts)
      ensures !refreshed ==> loading == old(loading)
    {
      profile := viewer;
      refreshed := viewer.Some?;
      if refreshed {
        RefreshFeed(query);
      }
    }
  }
}

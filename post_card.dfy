/** The body of a feed post (components/social/PostCard.tsx): which layout
    its text gets, and what its author avatar shows. */
module PostCard {
  import opened Wrappers
  import opened Text
  import opened Schema
  import opened SocialApi

  /** The two layouts of `renderContent`, each holding the texts it shows.
      The boxed layout shows both fields as they are, null included; the
      plain one shows a field only when it is a non-empty string. */
  datatype Content =
    | Boxed(title: Option<string>, description: Option<string>)
    | Plain(shownTitle: Option<string>, shownDescription: Option<string>)

  /** The post types shown in the boxed layout. */
  predicate IsShared(t: PostType) {
    t == TransactionShare || t == Achievement
  }

  /** `renderContent`. */
  function RenderContent(p: PostRow): (r: Content)
    ensures r.Boxed? <==> p.postType == TransactionShare || p.postType == Achievement
    ensures r.Boxed? ==> r.title == p.title && r.description == p.description
    ensures r.Plain? ==> (r.shownTitle.Some? <==> Truthy(p.title))
    ensures r.Plain? ==> (r.shownDescription.Some? <==> Truthy(p.description))
    ensures r.Plain? && r.shownTitle.Some? ==> r.shownTitle == p.title
    ensures r.Plain? && r.shownDescription.Some? ==> r.shownDescription == p.description
  {
    if IsShared(p.postType) then Boxed(p.title, p.description)
    else Plain(Shown(p.title), Shown(p.description))
  }

  /** A manual post or a metric snapshot with an empty title and description
      shows no text at all. */
  lemma PlainPostWithoutText(p: PostRow)
    requires p.postType == Manual || p.postType == MetricSnapshot
    requires !Truthy(p.title) && !Truthy(p.description)
    ensures RenderContent(p) == Plain(None, None)
  {
  }
}

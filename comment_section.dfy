/** The comment list under a post (components/social/CommentSection.tsx):
    the draft of a new comment, the comment being edited, and which actions
    a viewer gets on a comment. The comment operations themselves
    (`addComment`, `updateComment`) are calls into a context that is not part
    of this model; a new comment's call may fail, an update is not awaited. */
module CommentSection {
  import opened Wrappers
  import opened Text
  import opened Schema
  import opened SocialApi
  import opened Initials

  /** A comment as the list renders it: the `post_comments` columns it reads
      and the joined author. */
  datatype Comment = Comment(id: int, profileId: int, content: string, author: Option<Author>)

  /** `editingComment` when it is not null. */
  datatype Draft = Draft(id: int, content: string)

  /** What `addComment` is called with. */
  datatype NewComment = NewComment(postId: int, content: string)

  /** The buttons under a comment. */
  datatype Action = SaveEdit | CancelEdit | StartEdit | Delete

  /** The guard of `handleAddComment`: a draft that trims to nothing is not
      sent; any other is sent as typed, without trimming. */
  function AddRequest(draft: string): (r: Option<string>)
    ensures r.None? <==> AllWhitespace(draft)
    ensures r.Some? ==> r.value == draft
  {
    if |Trim(draft)| == 0 then None else Some(draft)
  }

  /** The guard of `handleUpdateComment`: nothing is sent when no comment is
      being edited or its new text trims to nothing; otherwise the comment's
      id and new text, untrimmed. */
  function UpdateRequest(editing: Option<Draft>): (r: Option<Draft>)
    ensures r.Some? <==> editing.Some? && !AllWhitespace(editing.value.content)
    ensures r.Some? ==> r == editing
  {
    if editing.None? || |Trim(editing.value.content)| == 0 then None else editing
  }

  /** `profile?.id === comment.profile_id`: false without a viewer. */
  predicate IsOwner(viewer: Option<Profile>, c: Comment) {
    viewer.Some? && viewer.value.id == c.profileId
  }

  /** `editingComment?.id === comment.id`. */
  predicate IsEditing(editing: Option<Draft>, c: Comment) {
    editing.Some? && editing.value.id == c.id
  }

  /** The actions shown under a comment. Only its owner gets any; the owner
      gets save and cancel while editing it, edit and delete otherwise. */
  function OwnerActions(viewer: Option<Profile>, editing: Option<Draft>, c: Comment): (r: seq<Action>)
    ensures |r| > 0 <==> IsOwner(viewer, c)
    ensures forall k :: 0 <= k < |r| ==> ((r[k] == StartEdit || r[k] == Delete) <==> !IsEditing(editing, c))
    ensures |r| == 0 || |r| == 2
  {
    if !IsOwner(viewer, c) then []
    else if IsEditing(editing, c) then [SaveEdit, CancelEdit]
    else [StartEdit, Delete]
  }

  /** The draft box and the edit state of one comment list. */
  class CommentBox {
    const postId: int
    var newComment: string
    var editing: Option<Draft>

    constructor (postId: int)
      ensures this.postId == postId && newComment == "" && editing.None?
    {
      this.postId := postId;
      newComment := "";
      editing := None;
    }

    /** Typing in the new-comment box. */
    method TypeComment(text: string)
      modifies this
      ensures newComment == text && editing == old(editing)
    {
      newComment := text;
    }

    /** `handleAddComment`. `delivered` says whether `addComment` resolved;
        when it throws, the draft stays as it was. */
    method HandleAddComment(delivered: bool) returns (sent: Option<NewComment>)
      modifies this
      ensures sent.None? <==> AllWhitespace(old(newComment))
      ensures sent.Some? ==> sent.value == NewComment(postId, old(newComment))
      ensures newComment == if sent.Some? && delivered then "" else old(newComment)
      ensures editing == old(editing)
    {
      var request := AddRequest(newComment);
      if request.None? {
        return None;
      }
      sent := Some(NewComment(postId, request.value));
      if delivered {
        newComment := "";
      }
    }

    /** The edit button: start editing a comment with its current text. */
    method StartEditing(c: Comment)
      modifies this
      ensures editing == Some(Draft(c.id, c.content))
      ensures newComment == old(newComment)
    {
      editing := Some(Draft(c.id, c.content));
    }

    /** Typing in the edit box, which exists only while editing. */
    method EditText(text: string)
      requires editing.Some?
      modifies this
      ensures editing == Some(Draft(old(editing).value.id, text))
      ensures newComment == old(newComment)
    {
      editing := Some(Draft(editing.value.id, text));
    }

    /** The cancel button. */
    method CancelEditing()
      modifies this
      ensures editing.None? && newComment == old(newComment)
    {
      editing := None;
    }

    /** `handleUpdateComment`: when the guard passes, the edit is sent and
        edit mode ends at once (the update is not awaited); otherwise
        nothing changes. */
    method HandleUpdateComment() returns (sent: Option<Draft>)
      modifies this
      ensures sent.Some? <==> old(editing).Some? && !AllWhitespace(old(editing).value.content)
      ensures sent.Some? ==> sent == old(editing)
      ensures editing == if sent.Some? then None else old(editing)
      ensures newComment == old(newComment)
    {
      sent := UpdateRequest(editing);
      if sent.Some? {
        editing := None;
      }
    }
  }
}

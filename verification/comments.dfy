/**
 * The `Comments` page view and its nested `Comment`, author-thumbnail and
 * creator-heart views (invidious_api_client/models/comments.py).  A page is
 * one response of the comments endpoint; `CommentPage` here is the source's
 * `Comments` class.
 */
module Comments {
  import opened Wrappers
  import opened JsonValues

  datatype CommentPage = CommentPage(data: Json)
  datatype Comment = Comment(data: Json)
  datatype AuthorThumbnail = AuthorThumbnail(data: Json)
  datatype CreatorHeart = CreatorHeart(data: Json)

  // Page accessors.

  /** The cursor of the next page; absent on the last page. */
  function Continuation(p: CommentPage): (r: Result<Option<Json>, Fault>)
    ensures ReadsKey(r, p.data, "continuation")
  {
    Field(p.data, "continuation")
  }

  function CommentCount(p: CommentPage): (r: Result<Option<Json>, Fault>)
    ensures ReadsKey(r, p.data, "commentCount")
  {
    Field(p.data, "commentCount")
  }

  function PageVideoId(p: CommentPage): (r: Result<Option<Json>, Fault>)
    ensures ReadsKey(r, p.data, "videoId")
  {
    Field(p.data, "videoId")
  }

  /** `comments`: one `Comment` per raw element, in order; a page without the
      key raises instead of giving an empty list. */
  function CommentList(p: CommentPage): (r: Result<seq<Comment>, Fault>)
    ensures ListRead(r, p.data, "comments", x => Comment(x))
  {
    ListField(p.data, "comments", x => Comment(x))
  }

  /** Iterating a page visits exactly the comments of `comments`, in order. */
  function IterComments(p: CommentPage): (r: Result<seq<Comment>, Fault>)
    ensures ListRead(r, p.data, "comments", x => Comment(x))
  {
    CommentList(p)
  }

  // Comment accessors.

  function Author(c: Comment): (r: Result<Option<Json>, Fault>)
    ensures ReadsKey(r, c.data, "author")
  {
    Field(c.data, "author")
  }

  /** `author_thumbnails`: one view per raw element, in order; raises when
      the key is missing. */
  function AuthorThumbnails(c: Comment): (r: Result<seq<AuthorThumbnail>, Fault>)
    ensures ListRead(r, c.data, "authorThumbnails", x => AuthorThumbnail(x))
  {
    ListField(c.data, "authorThumbnails", x => AuthorThumbnail(x))
  }

  function AuthorId(c: Comment): (r: Result<Option<Json>, Fault>)
    ensures ReadsKey(r, c.data, "authorId")
  {
    Field(c.data, "authorId")
  }

  function AuthorUrl(c: Comment): (r: Result<Option<Json>, Fault>)
    ensures ReadsKey(r, c.data, "authorUrl")
  {
    Field(c.data, "authorUrl")
  }

  function IsEdited(c: Comment): (r: Result<Option<Json>, Fault>)
    ensures ReadsKey(r, c.data, "isEdited")
  {
    Field(c.data, "isEdited")
  }

  function Content(c: Comment): (r: Result<Option<Json>, Fault>)
    ensures ReadsKey(r, c.data, "content")
  {
    Field(c.data, "content")
  }

  function ContentHtml(c: Comment): (r: Result<Option<Json>, Fault>)
    ensures ReadsKey(r, c.data, "contentHtml")
  {
    Field(c.data, "contentHtml")
  }

  /** `published`: the date of the `published` epoch; a missing or null
      epoch raises. */
  function CommentPublished(c: Comment): (r: Result<int, Fault>)
    ensures ReadsTimestamp(r, c.data, "published")
  {
    TimestampField(c.data, "published")
  }

  function CommentPublishedText(c: Comment): (r: Result<Option<Json>, Fault>)
    ensures ReadsKey(r, c.data, "publishedText")
  {
    Field(c.data, "publishedText")
  }

  function LikeCount(c: Comment): (r: Result<Option<Json>, Fault>)
    ensures ReadsKey(r, c.data, "likeCount")
  {
    Field(c.data, "likeCount")
  }

  function CommentId(c: Comment): (r: Result<Option<Json>, Fault>)
    ensures ReadsKey(r, c.data, "commentId")
  {
    Field(c.data, "commentId")
  }

  function AuthorIsChannelOwner(c: Comment): (r: Result<Option<Json>, Fault>)
    ensures ReadsKey(r, c.data, "authorIsChannelOwner")
  {
    Field(c.data, "authorIsChannelOwner")
  }

  /** `creator_heart` always builds a view: over the bound value, or over
      `None` when the key is missing.  Only a non-dict comment raises. */
  function CreatorHeartOf(c: Comment): (r: Result<CreatorHeart, Fault>)
    ensures r.Failure? <==> !c.data.Obj?
    ensures c.data.Obj? && !HasKey(c.data.entries, "creatorHeart") ==> r == Success(CreatorHeart(Null))
    ensures c.data.Obj? && HasKey(c.data.entries, "creatorHeart") ==> r == Success(CreatorHeart(Lookup(c.data.entries, "creatorHeart").value))
  {
    var raw :- Get(c.data, "creatorHeart");
    Success(CreatorHeart(raw))
  }

  /** Reading a field of the heart view built for a comment without
      `creatorHeart` raises: the view wraps `None`, which has no `.get`. */
  lemma AbsentHeartFieldsRaise(c: Comment)
    requires c.data.Obj? && !HasKey(c.data.entries, "creatorHeart")
    ensures CreatorHeartOf(c).Success?
    ensures CreatorName(CreatorHeartOf(c).value) == Failure(AttributeError("get"))
    ensures CreatorThumbnail(CreatorHeartOf(c).value) == Failure(AttributeError("get"))
  {
  }

  function CreatorThumbnail(h: CreatorHeart): (r: Result<Option<Json>, Fault>)
    ensures ReadsKey(r, h.data, "creatorThumbnail")
  {
    Field(h.data, "creatorThumbnail")
  }

  function CreatorName(h: CreatorHeart): (r: Result<Option<Json>, Fault>)
    ensures ReadsKey(r, h.data, "creatorName")
  {
    Field(h.data, "creatorName")
  }

  /** `replies_data`: the raw `replies` value, `None` when missing. */
  function RepliesData(c: Comment): (r: Result<Json, Fault>)
    ensures r.Failure? <==> !c.data.Obj?
    ensures c.data.Obj? && !HasKey(c.data.entries, "replies") ==> r == Success(Null)
    ensures c.data.Obj? && HasKey(c.data.entries, "replies") ==> r == Success(Lookup(c.data.entries, "replies").value)
  {
    Get(c.data, "replies")
  }

  /** `reply_count`: 0 when `replies` is missing or falsy (None, empty),
      otherwise `replies.get('replyCount')`. */
  function ReplyCount(c: Comment): (r: Result<Option<Json>, Fault>)
    ensures r.Failure? <==> !c.data.Obj? || (Truthy(RepliesData(c).value) && !RepliesData(c).value.Obj?)
    ensures c.data.Obj? && !Truthy(RepliesData(c).value) ==> r == Success(Some(Num(0)))
    ensures c.data.Obj? && Truthy(RepliesData(c).value) ==> ReadsKey(r, RepliesData(c).value, "replyCount")
  {
    var replies :- RepliesData(c);
    if Truthy(replies) then Field(replies, "replyCount") else Success(Some(Num(0)))
  }

  /** `reply_continuation`: absent when `replies` is missing or falsy,
      otherwise `replies.get('replyContinuation')`. */
  function ReplyContinuation(c: Comment): (r: Result<Option<Json>, Fault>)
    ensures r.Failure? <==> !c.data.Obj? || (Truthy(RepliesData(c).value) && !RepliesData(c).value.Obj?)
    ensures c.data.Obj? && !Truthy(RepliesData(c).value) ==> r == Success(None)
    ensures c.data.Obj? && Truthy(RepliesData(c).value) ==> ReadsKey(r, RepliesData(c).value, "replyContinuation")
  {
    var replies :- RepliesData(c);
    if Truthy(replies) then Field(replies, "replyContinuation") else Success(None)
  }

  /** A comment without replies: zero replies and no reply cursor, no error. */
  lemma NoRepliesDefaults(c: Comment)
    requires c.data.Obj?
    requires !HasKey(c.data.entries, "replies") || Lookup(c.data.entries, "replies") in {Some(Null), Some(Obj([]))}
    ensures ReplyCount(c) == Success(Some(Num(0)))
    ensures ReplyContinuation(c) == Success(None)
  {
  }

  // Author-thumbnail accessors.

  function AuthorThumbnailUrl(t: AuthorThumbnail): (r: Result<Option<Json>, Fault>)
    ensures ReadsKey(r, t.data, "url")
  {
    Field(t.data, "url")
  }

  function AuthorThumbnailWidth(t: AuthorThumbnail): (r: Result<Option<Json>, Fault>)
    ensures ReadsKey(r, t.data, "width")
  {
    Field(t.data, "width")
  }

  function AuthorThumbnailHeight(t: AuthorThumbnail): (r: Result<Option<Json>, Fault>)
    ensures ReadsKey(r, t.data, "height")
  {
    Field(t.data, "height")
  }
}

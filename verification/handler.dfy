/**
 The HTTP handlers over the post layer (`src/handlers/post/handler.rs`):
 the five reaction/delete handlers pass the post layer's outcome through
 `?`, and the comment handler sends a comment notice to the receiver unless
 the commenter is the receiver.
 */
module Handler {
  import opened Errors
  import opened Cache
  import opened Post

  datatype Response<T> = Success(body: T) | Failure(error: MyError)

  /** The cache after a request and the response sent back. */
  datatype Reply = Reply(cache: State, response: Response<()>)

  /** A handler that forwards the post layer's outcome: it answers with
      success exactly when the post layer succeeded, and otherwise with the
      post layer's error, unchanged. */
  function Respond(c: State, r: Result<State>): (reply: Reply)
    ensures reply.response.Success? <==> r.Ok?
    ensures r.Ok? ==> reply.cache == r.value
    ensures r.Err? ==> reply == Reply(c, Failure(r.error))
  {
    match r
    case Ok(next) => Reply(next, Success(()))
    case Err(e) => Reply(c, Failure(e))
  }

  function HandleDelete(c: State, id: PostId, deleted: Query<Option<PostId>>): (reply: Reply)
    ensures reply.response.Success? <==> deleted.Rows? && |deleted.rows| > 0
    ensures deleted.Rows? && |deleted.rows| == 0 ==> reply == Reply(c, Failure(Code(RejectCode)))
    ensures deleted.PrepareFailed? || deleted.QueryFailed? ==> reply == Reply(c, Failure(PGError))
    ensures reply.response.Success? ==>
              && Count(reply.cache, id, LikeCount) == 0 && Members(reply.cache, id, Likes) == {}
              && Count(reply.cache, id, HateCount) == 0 && Members(reply.cache, id, Hates) == {}
  {
    Respond(c, Delete(c, id, deleted))
  }

  function HandleLike(c: State, p: PostId, u: UserId, link: Link): (reply: Reply)
    ensures reply.response.Success? <==> link == Up && u !in Members(c, p, Likes)
    ensures link == Up && u in Members(c, p, Likes) ==> reply == Reply(c, Failure(Code(RejectCode)))
    ensures link == Down ==> reply == Reply(c, Failure(CacheError))
    ensures reply.response.Success? ==> Count(reply.cache, p, LikeCount) == Count(c, p, LikeCount) + 1
  {
    Respond(c, Like(c, p, u, link))
  }

  function HandleCancelLike(c: State, p: PostId, u: UserId, link: Link): (reply: Reply)
    ensures reply.response.Success? <==> link == Up && u in Members(c, p, Likes)
    ensures link == Up && u !in Members(c, p, Likes) ==> reply == Reply(c, Failure(Code(RejectCode)))
    ensures link == Down ==> reply == Reply(c, Failure(CacheError))
    ensures reply.response.Success? ==> Count(reply.cache, p, LikeCount) == Count(c, p, LikeCount) - 1
  {
    Respond(c, CancelLike(c, p, u, link))
  }

  function HandleHate(c: State, p: PostId, u: UserId, link: Link): (reply: Reply)
    ensures reply.response.Success? <==> link == Up && u !in Members(c, p, Hates)
    ensures link == Up && u in Members(c, p, Hates) ==> reply == Reply(c, Failure(Code(RejectCode)))
    ensures link == Down ==> reply == Reply(c, Failure(CacheError))
    ensures reply.response.Success? ==> Count(reply.cache, p, HateCount) == Count(c, p, HateCount) + 1
  {
    Respond(c, Hate(c, p, u, link))
  }

  function HandleCancelHate(c: State, p: PostId, u: UserId, link: Link): (reply: Reply)
    ensures reply.response.Success? <==> link == Up && u in Members(c, p, Hates)
    ensures link == Up && u !in Members(c, p, Hates) ==> reply == Reply(c, Failure(Code(RejectCode)))
    ensures link == Down ==> reply == Reply(c, Failure(CacheError))
    ensures reply.response.Success? ==> Count(reply.cache, p, HateCount) == Count(c, p, HateCount) - 1
  {
    Respond(c, CancelHate(c, p, u, link))
  }

  // ----- the comment notice -----

  datatype NoticeType = CommentNotice

  /** A notice row: who caused it, what kind, the object it is about and
      whom it is addressed to. */
  datatype Notice = Notice(sender: UserId, kind: NoticeType, objId: PostId, addressee: UserId)

  /** What the comment insert hands the handler: the new comment's id and
      the author of the post commented on. */
  datatype CommentRow = CommentRow(id: PostId, receiver: UserId)

  /** The outcome of the notice insert. */
  datatype Sent = Delivered | SendFailed(error: MyError)

  /** The comment table, the notice table and the response after a
      comment request. */
  datatype CommentReply = CommentReply(comments: set<PostId>, notices: seq<Notice>,
                                       response: Response<PostId>)

  /** The comment request: `inserted` is the outcome of the handler's
      `db::post::comment` call, `comments` and `notices` the comment and notice tables
      before the request, and `send` the outcome of the notice insert
      (consulted only when a notice is sent). A successful insert adds the
      comment to the table, and nothing afterwards removes it. */
  function HandleComment(commenter: UserId, inserted: Result<CommentRow>, send: Sent,
                         comments: set<PostId>, notices: seq<Notice>): (r: CommentReply)
    ensures inserted.Err? ==> r == CommentReply(comments, notices, Failure(inserted.error))
    ensures inserted.Ok? ==> r.comments == comments + {inserted.value.id}
    ensures inserted.Ok? && commenter == inserted.value.receiver ==>
              r.notices == notices && r.response == Success(inserted.value.id)
    ensures inserted.Ok? && commenter != inserted.value.receiver && send.Delivered? ==>
              && r.notices == notices + [Notice(commenter, CommentNotice, inserted.value.id, inserted.value.receiver)]
              && r.response == Success(inserted.value.id)
    ensures inserted.Ok? && commenter != inserted.value.receiver && send.SendFailed? ==>
              r.notices == notices && r.response == Failure(send.error)
  {
    match inserted
    case Err(e) => CommentReply(comments, notices, Failure(e))
    case Ok(row) =>
      var stored := comments + {row.id};
      if commenter == row.receiver then CommentReply(stored, notices, Success(row.id))
      else match send
        case Delivered =>
          CommentReply(stored, notices + [Notice(commenter, CommentNotice, row.id, row.receiver)], Success(row.id))
        case SendFailed(e) => CommentReply(stored, notices, Failure(e))
  }

  /** No notice in the table is addressed to its own sender. */
  ghost predicate NoSelfNotices(notices: seq<Notice>)
  {
    forall i :: 0 <= i < |notices| ==> notices[i].sender != notices[i].addressee
  }

  /** The comment handler never adds a self-addressed notice, and adds
      exactly one notice (to the receiver, about the new comment, from the
      commenter) precisely when the commenter is not the receiver and the
      send went through; the notice table only grows at its end. */
  lemma CommentNoticeRule(commenter: UserId, inserted: Result<CommentRow>, send: Sent,
                          comments: set<PostId>, notices: seq<Notice>)
    ensures var r := HandleComment(commenter, inserted, send, comments, notices);
            && (NoSelfNotices(notices) ==> NoSelfNotices(r.notices))
            && notices <= r.notices
            && (|r.notices| == |notices| + 1 <==>
                  inserted.Ok? && commenter != inserted.value.receiver && send.Delivered?)
            && (|r.notices| != |notices| + 1 ==> r.notices == notices)
            && (|r.notices| == |notices| + 1 ==>
                  && r.notices[|notices|].addressee == inserted.value.receiver
                  && r.notices[|notices|].sender == commenter
                  && r.notices[|notices|].objId == inserted.value.id)
  {
  }

  /** A failed notice send fails the whole request, yet the inserted
      comment stays in the comment table: the request is not rolled back.
      The same request with a working send succeeds with the comment's id,
      leaving the comment table alike. */
  lemma FailedNoticeFailsRequest(commenter: UserId, row: CommentRow, e: MyError,
                                 comments: set<PostId>, notices: seq<Notice>)
    requires commenter != row.receiver
    ensures var r := HandleComment(commenter, Ok(row), SendFailed(e), comments, notices);
            && r.response == Failure(e)
            && row.id in r.comments
            && r.comments == HandleComment(commenter, Ok(row), Delivered, comments, notices).comments
    ensures HandleComment(commenter, Ok(row), Delivered, comments, notices).response == Success(row.id)
  {
  }
}

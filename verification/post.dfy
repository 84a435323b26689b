/**
 The engagement operations of the post layer (`src/db/post.rs`): the four
 reaction toggles, the cache cascade of a delete and the comment-counter
 bump of a comment. The toggles and the delete are pure transitions of
 the cache returning `Ok(next)` or `Err(error)`, where an error leaves the
 cache as it was. `Comment` returns a `Commented` record instead: it bumps
 the parent's comment counter before it can fail with `NotFound`, so that
 one error comes with a changed cache.
 */
module Post {
  import opened Errors
  import opened Cache
  import opened Ids

  /** What a relational statement returned: preparation failed, the query
      failed, or it produced these rows. */
  datatype Query<T> = PrepareFailed | QueryFailed | Rows(rows: seq<T>)

  /** Adding `u` to the reaction set `k` of post `p` (`like`, `hate`):
      check membership, refuse with 201 when present, otherwise add the
      user and raise the matching counter. */
  function React(c: State, p: PostId, u: UserId, k: Reaction, link: Link): (r: Result<State>)
    ensures link == Down ==> r == Err(CacheError)
    ensures link == Up && u in Members(c, p, k) ==> r == Err(Code(RejectCode))
    ensures link == Up && u !in Members(c, p, k) ==> r.Ok?
    ensures r.Ok? ==>
              && Members(r.value, p, k) == Members(c, p, k) + {u}
              && |Members(r.value, p, k)| == |Members(c, p, k)| + 1
              && Count(r.value, p, CounterOf(k)) == Count(c, p, CounterOf(k)) + 1
              && SetsAgreeExcept(c, r.value, {(p, k)})
              && CountsAgreeExcept(c, r.value, {(p, CounterOf(k))})
  {
    if link == Down then Err(CacheError)
    else if u in Members(c, p, k) then Err(Code(RejectCode))
    else Ok(Incr(SAdd(c, p, k, u), p, CounterOf(k)))
  }

  /** Removing `u` from the reaction set `k` of post `p` (`cancel_like`,
      `cancel_hate`): refuse with 201 when absent, otherwise remove the user
      and lower the matching counter. */
  function Withdraw(c: State, p: PostId, u: UserId, k: Reaction, link: Link): (r: Result<State>)
    ensures link == Down ==> r == Err(CacheError)
    ensures link == Up && u !in Members(c, p, k) ==> r == Err(Code(RejectCode))
    ensures link == Up && u in Members(c, p, k) ==> r.Ok?
    ensures r.Ok? ==>
              && u in Members(c, p, k)
              && Members(r.value, p, k) == Members(c, p, k) - {u}
              && |Members(r.value, p, k)| == |Members(c, p, k)| - 1
              && Count(r.value, p, CounterOf(k)) == Count(c, p, CounterOf(k)) - 1
              && SetsAgreeExcept(c, r.value, {(p, k)})
              && CountsAgreeExcept(c, r.value, {(p, CounterOf(k))})
  {
    if link == Down then Err(CacheError)
    else if u !in Members(c, p, k) then Err(Code(RejectCode))
    else Ok(Decr(SRem(c, p, k, u), p, CounterOf(k)))
  }

  /** `like`: the hates set, the hate count and every other post are left alone. */
  function Like(c: State, p: PostId, u: UserId, link: Link): (r: Result<State>)
    ensures link == Down ==> r == Err(CacheError)
    ensures link == Up && u in Members(c, p, Likes) ==> r == Err(Code(RejectCode))
    ensures link == Up && u !in Members(c, p, Likes) ==>
              && r.Ok?
              && Members(r.value, p, Likes) == Members(c, p, Likes) + {u}
              && Count(r.value, p, LikeCount) == Count(c, p, LikeCount) + 1
    ensures r.Ok? ==>
              && Members(r.value, p, Hates) == Members(c, p, Hates)
              && Count(r.value, p, HateCount) == Count(c, p, HateCount)
              && SetsAgreeExcept(c, r.value, {(p, Likes)})
              && CountsAgreeExcept(c, r.value, {(p, LikeCount)})
  {
    React(c, p, u, Likes, link)
  }

  /** `cancel_like`: from a balanced like count the count stays non-negative. */
  function CancelLike(c: State, p: PostId, u: UserId, link: Link): (r: Result<State>)
    ensures link == Down ==> r == Err(CacheError)
    ensures link == Up && u !in Members(c, p, Likes) ==> r == Err(Code(RejectCode))
    ensures link == Up && u in Members(c, p, Likes) ==>
              && r.Ok?
              && Members(r.value, p, Likes) == Members(c, p, Likes) - {u}
              && Count(r.value, p, LikeCount) == Count(c, p, LikeCount) - 1
    ensures r.Ok? && Balanced(c, p, Likes) ==> Count(r.value, p, LikeCount) >= 0
    ensures r.Ok? ==>
              && Members(r.value, p, Hates) == Members(c, p, Hates)
              && Count(r.value, p, HateCount) == Count(c, p, HateCount)
              && SetsAgreeExcept(c, r.value, {(p, Likes)})
              && CountsAgreeExcept(c, r.value, {(p, LikeCount)})
  {
    Withdraw(c, p, u, Likes, link)
  }

  /** `hate`: the likes set, the like count and every other post are left alone. */
  function Hate(c: State, p: PostId, u: UserId, link: Link): (r: Result<State>)
    ensures link == Down ==> r == Err(CacheError)
    ensures link == Up && u in Members(c, p, Hates) ==> r == Err(Code(RejectCode))
    ensures link == Up && u !in Members(c, p, Hates) ==>
              && r.Ok?
              && Members(r.value, p, Hates) == Members(c, p, Hates) + {u}
              && Count(r.value, p, HateCount) == Count(c, p, HateCount) + 1
    ensures r.Ok? ==>
              && Members(r.value, p, Likes) == Members(c, p, Likes)
              && Count(r.value, p, LikeCount) == Count(c, p, LikeCount)
              && SetsAgreeExcept(c, r.value, {(p, Hates)})
              && CountsAgreeExcept(c, r.value, {(p, HateCount)})
  {
    React(c, p, u, Hates, link)
  }

  /** `cancel_hate`: from a balanced hate count the count stays non-negative. */
  function CancelHate(c: State, p: PostId, u: UserId, link: Link): (r: Result<State>)
    ensures link == Down ==> r == Err(CacheError)
    ensures link == Up && u !in Members(c, p, Hates) ==> r == Err(Code(RejectCode))
    ensures link == Up && u in Members(c, p, Hates) ==>
              && r.Ok?
              && Members(r.value, p, Hates) == Members(c, p, Hates) - {u}
              && Count(r.value, p, HateCount) == Count(c, p, HateCount) - 1
    ensures r.Ok? && Balanced(c, p, Hates) ==> Count(r.value, p, HateCount) >= 0
    ensures r.Ok? ==>
              && Members(r.value, p, Likes) == Members(c, p, Likes)
              && Count(r.value, p, LikeCount) == Count(c, p, LikeCount)
              && SetsAgreeExcept(c, r.value, {(p, Hates)})
              && CountsAgreeExcept(c, r.value, {(p, HateCount)})
  {
    Withdraw(c, p, u, Hates, link)
  }

  /** The comment counter a delete lowers: that of the parent, if any. */
  function ParentKeys(parent: Option<PostId>): set<(PostId, Counter)>
  {
    match parent
    case Some(q) => {(q, CommentCount)}
    case None => {}
  }

  /** The cache side of a delete whose relational delete returned a row:
      drop the four reaction keys of `id`, then lower the parent's comment
      count when the row names a parent. */
  function Cascade(c: State, id: PostId, parent: Option<PostId>): (d: State)
    ensures Members(d, id, Likes) == {} && Members(d, id, Hates) == {}
    ensures Count(d, id, LikeCount) == 0 && Count(d, id, HateCount) == 0
    ensures parent.Some? ==>
              Count(d, parent.value, CommentCount) == Count(c, parent.value, CommentCount) - 1
    ensures SetsAgreeExcept(c, d, {(id, Likes), (id, Hates)})
    ensures CountsAgreeExcept(c, d, {(id, LikeCount), (id, HateCount)} + ParentKeys(parent))
  {
    var cleared := DelCount(DelSet(DelCount(DelSet(c, id, Likes), id, LikeCount), id, Hates), id, HateCount);
    match parent
    case Some(q) => Decr(cleared, q, CommentCount)
    case None => cleared
  }

  /** `delete`: `deleted` is what the relational delete of (id, user)
      returned, one `extends` column per row. No row means the post does not
      exist or is not the user's, and the request is refused with 201. */
  function Delete(c: State, id: PostId, deleted: Query<Option<PostId>>): (r: Result<State>)
    ensures deleted.PrepareFailed? || deleted.QueryFailed? ==> r == Err(PGError)
    ensures deleted.Rows? && |deleted.rows| == 0 ==> r == Err(Code(RejectCode))
    ensures deleted.Rows? && |deleted.rows| > 0 ==>
              && r.Ok?
              && Members(r.value, id, Likes) == {} && Members(r.value, id, Hates) == {}
              && Count(r.value, id, LikeCount) == 0 && Count(r.value, id, HateCount) == 0
              && SetsAgreeExcept(c, r.value, {(id, Likes), (id, Hates)})
              && CountsAgreeExcept(c, r.value, {(id, LikeCount), (id, HateCount)} + ParentKeys(deleted.rows[0]))
              && (deleted.rows[0].Some? ==>
                    var q := deleted.rows[0].value;
                    Count(r.value, q, CommentCount) == Count(c, q, CommentCount) - 1)
  {
    match deleted
    case PrepareFailed => Err(PGError)
    case QueryFailed => Err(PGError)
    case Rows(rows) =>
      if |rows| > 0 then Ok(Cascade(c, id, rows[0]))
      else Err(Code(RejectCode))
  }

  /** What `comment` leaves behind: the cache (which may have changed even
      when the result is an error), the id generator, and the result. */
  datatype Commented = Commented(cache: State, ids: IdBucket, result: Result<PostId>)

  /** `comment`: `ids` is the id generator the new comment's id is drawn
      from, `origin` the parsed parent id, `inserted` the ids the insert
      returned, and `link` whether the cache took the comment-count
      increment. A lost increment is ignored; the result is the last
      returned id, or `NotFound`. */
  function Comment(c: State, ids: IdBucket, origin: PostId,
                   inserted: Query<PostId>, link: Link): (r: Commented)
    ensures inserted.PrepareFailed? ==> r == Commented(c, ids, Err(PGError))
    ensures !inserted.PrepareFailed? && ids.poisoned ==> r == Commented(c, ids, Err(PoisonError))
    ensures !inserted.PrepareFailed? && !ids.poisoned ==> r.ids == NextId(ids).bucket
    ensures inserted.QueryFailed? && !ids.poisoned ==> r.cache == c && r.result == Err(PGError)
    ensures inserted.Rows? && !ids.poisoned ==>
              && (|inserted.rows| == 0 ==> r.result == Err(NotFound))
              && (|inserted.rows| > 0 ==> r.result == Ok(inserted.rows[|inserted.rows| - 1]))
              && (link == Down ==> r.cache == c)
              && (link == Up ==>
                    && Count(r.cache, origin, CommentCount) == Count(c, origin, CommentCount) + 1
                    && CountsAgreeExcept(c, r.cache, {(origin, CommentCount)}))
    ensures SetsAgreeExcept(c, r.cache, {})
  {
    if inserted.PrepareFailed? then Commented(c, ids, Err(PGError))
    else
      var drawn := NextId(ids);
      if drawn.result.Err? then Commented(c, drawn.bucket, Err(drawn.result.error))
      else match inserted
        case QueryFailed => Commented(c, drawn.bucket, Err(PGError))
        case Rows(rows) =>
          var d := if link == Up then Incr(c, origin, CommentCount) else c;
          if |rows| == 0 then Commented(d, drawn.bucket, Err(NotFound))
          else Commented(d, drawn.bucket, Ok(rows[|rows| - 1]))
  }

  // ----- properties relating several calls -----

  /** A successful reaction keeps every post's counters balanced. */
  lemma ReactKeepsConsistent(c: State, p: PostId, u: UserId, k: Reaction, link: Link, q: PostId)
    requires React(c, p, u, k, link).Ok?
    requires Consistent(c, q)
    ensures Consistent(React(c, p, u, k, link).value, q)
  {
  }

  /** A successful withdrawal keeps every post's counters balanced. */
  lemma WithdrawKeepsConsistent(c: State, p: PostId, u: UserId, k: Reaction, link: Link, q: PostId)
    requires Withdraw(c, p, u, k, link).Ok?
    requires Consistent(c, q)
    ensures Consistent(Withdraw(c, p, u, k, link).value, q)
  {
  }

  /** A delete leaves every post's counters balanced: the deleted post
      reads as no reactions and zero counts. */
  lemma DeleteKeepsConsistent(c: State, id: PostId, deleted: Query<Option<PostId>>, q: PostId)
    requires Delete(c, id, deleted).Ok?
    requires Consistent(c, q)
    ensures Consistent(Delete(c, id, deleted).value, q)
  {
  }

  /** A comment never touches a reaction set or its counter. */
  lemma CommentKeepsConsistent(c: State, ids: IdBucket, origin: PostId,
                               inserted: Query<PostId>, link: Link, q: PostId)
    requires Consistent(c, q)
    ensures Consistent(Comment(c, ids, origin, inserted, link).cache, q)
  {
  }

  /** Reacting and then withdrawing the same reaction restores every read of
      the cache: the set, the counter and everything else. */
  lemma ReactThenWithdrawRestores(c: State, p: PostId, u: UserId, k: Reaction)
    requires u !in Members(c, p, k)
    ensures React(c, p, u, k, Up).Ok?
    ensures Withdraw(React(c, p, u, k, Up).value, p, u, k, Up).Ok?
    ensures Same(Withdraw(React(c, p, u, k, Up).value, p, u, k, Up).value, c)
  {
  }

  /** The same reaction twice in a row: the second is refused with 201. */
  lemma ReactTwiceRefused(c: State, p: PostId, u: UserId, k: Reaction)
    requires React(c, p, u, k, Up).Ok?
    ensures React(React(c, p, u, k, Up).value, p, u, k, Up) == Err(Code(RejectCode))
  {
  }

  /** Withdrawing a reaction twice in a row: the second is refused with 201. */
  lemma WithdrawTwiceRefused(c: State, p: PostId, u: UserId, k: Reaction)
    requires Withdraw(c, p, u, k, Up).Ok?
    ensures Withdraw(Withdraw(c, p, u, k, Up).value, p, u, k, Up) == Err(Code(RejectCode))
  {
  }

  /** Liking and hating are independent: a user may hold both reactions,
      and each counter rises by one. */
  lemma LikeAndHateIndependent(c: State, p: PostId, u: UserId)
    requires u !in Members(c, p, Likes) && u !in Members(c, p, Hates)
    ensures Like(c, p, u, Up).Ok?
    ensures Hate(Like(c, p, u, Up).value, p, u, Up).Ok?
    ensures var e := Hate(Like(c, p, u, Up).value, p, u, Up).value;
            && u in Members(e, p, Likes) && u in Members(e, p, Hates)
            && Count(e, p, LikeCount) == Count(c, p, LikeCount) + 1
            && Count(e, p, HateCount) == Count(c, p, HateCount) + 1
  {
  }

  /** A comment on `origin` followed by the delete of that comment leaves
      the parent's comment count where it started. */
  lemma CommentThenDeleteRestoresCount(c: State, ids: IdBucket, id: PostId, origin: PostId, rows: seq<PostId>)
    requires !ids.poisoned && |rows| > 0
    ensures var d := Comment(c, ids, origin, Rows(rows), Up).cache;
            && Delete(d, id, Rows([Some(origin)])).Ok?
            && Count(Delete(d, id, Rows([Some(origin)])).value, origin, CommentCount)
               == Count(c, origin, CommentCount)
  {
  }
}

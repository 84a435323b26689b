# Engagement cache of wepo_server, modelled in Dafny

The post layer of wepo_server keeps per-post engagement in Redis: a set of
users who liked the post and a like counter, a set of users who hate
("dislike") it and a hate counter, and a comment counter. `like`,
`cancel_like`, `hate` and `cancel_hate` check set membership and either
refuse with code 201 or change the set and its counter together; `delete`
drops a post's reaction keys and lowers its parent's comment counter;
`comment` raises the parent's comment counter. The HTTP handlers pass these
outcomes through and send a notice when someone comments on another user's
post.

This project models that layer as pure transitions over an abstract cache
and proves that each like/hate counter stays equal to the size of its set,
whatever sequence of requests arrives and whether each succeeds or fails.

Files:

- `errors.dfy` (`Errors`): the error values and the `Result` type.
- `cache.dfy` (`Cache`): the cache state (sets per `(post, reaction)`, counters per `(post, counter)`), the Redis commands used (SADD, SREM, INCR, DECR, DEL), and the consistency invariant.
- `post.dfy` (`Post`): `like`, `cancel_like`, `hate`, `cancel_hate` and `delete` as transitions returning `Ok(next cache)` or an error. `comment` returns a record of the cache, the id generator and the result, because it can fail after changing the cache. Plus lemmas relating them.
- `requests.dfy` (`Requests`): a request sequence applied one at a time; the invariant holds along any sequence.
- `ids.dfy` (`Ids`): `get_next_id` with its poisoned-lock error.
- `paging.dfy` (`Paging`): the `limit * (page - 1)` offset of `get_mine` and `browse`, with 64-bit wrap-around.
- `handler.dfy` (`Handler`): error propagation in the handlers and the comment-notice rule.

Modelling choices:

- A missing set key reads as the empty set and a missing counter key as 0, as in Redis. SREM drops a set key once its last member is gone. DECR keeps a counter key even at 0. So "restored" means every read of the cache gives the same answer (`Cache.Same`), not that the two maps are equal.
- Whether the cache server answers is an input (`Link`). On a toggle, `Down` means the membership check failed. The toggle then returns `CacheError` and changes nothing.
- Relational statements are inputs (`Query`): preparation failed, the query failed, or these rows came back. The delete's rows carry the `extends` column. The comment insert's rows carry the returned ids.
- Each request is one atomic step. Every refused or failed request leaves the cache as it was, with one exception. A comment whose insert returned no row fails with `NotFound` after the parent's comment counter was already raised (next point).
- `comment` raises the parent's comment counter before it checks whether the insert returned a row. So an insert that returns no row yields `NotFound`, yet the counter has still gone up. The model keeps this order.
- `delete` does not drop the deleted post's own comment counter key. The model keeps that key too (see the frame in `Post.Cascade`).
- The comment handler reads `.id` and `.receiver` from the insert's result. The post layer's `comment` (src/db/post.rs:220-249) returns only an id. The handler is therefore modelled over a `(comment id, receiver)` pair (`Handler.CommentRow`), independently of `Post.Comment`. Its input is the insert's outcome, the comment table and the notice table. Likewise the `mine` and `browse` handlers pass a paging object, while the post layer takes `page` and `limit`. The offset is modelled on the post layer's side.
- The like, cancel-like, hate and cancel-hate handlers return `actix_web::Error`, so their `?` wraps the post layer's `MyError` rather than returning it as is. The HTTP response is still the one that wrapped `MyError` produces. `Handler.Response` therefore carries the `MyError` itself (`Failure(MyError)`).

## Model

| member | source | states |
|---|---|---|
| Post.React | src/db/post.rs:143-167 | Adding a reaction: with the cache up, it is refused with 201 exactly when the user is already in the set. Otherwise the user joins the set, the set grows by one, the matching counter rises by one, and no other set or counter changes. An unreachable cache gives a cache error. |
| Post.Withdraw | src/db/post.rs:170-195 | Withdrawing a reaction: refused with 201 exactly when the user is not in the set. Otherwise the user leaves the set, the set shrinks by one, the counter drops by one, and nothing else changes. |
| Post.Like | src/db/post.rs:143-167 | `like` refuses a repeated like with 201. Otherwise it adds exactly that user to the likes set and raises the like count by 1. It never touches the hates set, the hate count or any other post. |
| Post.CancelLike | src/db/post.rs:170-195 | `cancel_like` refuses with 201 when the user has not liked. Otherwise it removes the user and lowers the like count by 1. Starting from count == size of set, the count never goes negative. Hate keys are untouched. |
| Post.Hate | src/db/post.rs:252-276 | `hate` mirrors `like` on the hates set and hate count, and never touches the likes set or like count. |
| Post.CancelHate | src/db/post.rs:279-304 | `cancel_hate` mirrors `cancel_like` on the hates set and hate count. From a balanced count it stays non-negative. Like keys are untouched. |
| Post.Cascade | src/db/post.rs:67-82 | After a delete that returned a row, the post's likes set, hates set, like count and hate count read as empty or 0. The parent's comment count drops by exactly 1 when the row names a parent. Every other key is unchanged. |
| Post.Delete | src/db/post.rs:53-86 | A failed statement gives a database error. Zero returned rows give 201 and no cache change. Otherwise the result is the cascade keyed on the first row's parent. |
| Post.Comment | src/db/post.rs:220-249 | The comment path checks in order: a failed prepare gives a database error and draws no id. Then a poisoned id generator gives `PoisonError`. Then a failed insert gives a database error. None of these changes the cache. After an insert, a reachable cache raises the origin's comment count by 1 and changes nothing else. An unreachable cache changes nothing and does not affect the result. The result is the last returned id, or `NotFound` when no row came back. |
| Post.ReactKeepsConsistent | src/db/post.rs:158-166 | A successful `like`/`hate` keeps every post's counters equal to the sizes of their sets. |
| Post.WithdrawKeepsConsistent | src/db/post.rs:186-194 | A successful `cancel_like`/`cancel_hate` keeps every post's counters equal to the sizes of their sets. |
| Post.DeleteKeepsConsistent | src/db/post.rs:68-81 | The delete cascade keeps every post's counters equal to the sizes of their sets. |
| Post.CommentKeepsConsistent | src/db/post.rs:236-241 | A comment keeps every post's counters equal to the sizes of their sets. |
| Post.ReactThenWithdrawRestores | src/db/post.rs:143-195 | A like followed by a cancel, both by the same user, both succeed and restore every read of the cache. The same holds for hate. |
| Post.ReactTwiceRefused | src/db/post.rs:148-156 | A second consecutive like (or hate) by the same user is refused with 201. |
| Post.WithdrawTwiceRefused | src/db/post.rs:175-184 | A second consecutive cancel by the same user is refused with 201. |
| Post.LikeAndHateIndependent | src/db/post.rs:257-275 | A user who has neither reaction can like and then hate the same post. Afterwards they are in both sets, and each counter has risen by one. |
| Post.CommentThenDeleteRestoresCount | src/db/post.rs:76-80 | Commenting on a post and then deleting that comment leaves the post's comment count where it started. |
| Requests.StepKeepsConsistent | src/db/post.rs:143-304 | Any single request keeps a balanced post balanced, whether it succeeds or fails. |
| Requests.RunKeepsConsistent | src/db/post.rs:143-304 | Any sequence of requests keeps a balanced post balanced. |
| Requests.RunKeepsAllConsistent | src/db/post.rs:143-304 | From a cache where every post is balanced, every post is balanced after any sequence of requests. |
| Requests.LikeScenario | src/db/post.rs:143-195 | On a fresh post, u1 likes, u2 likes, then u1 cancels. The likes set is {u2} and the count is 1. A further cancel by u1 is refused with 201. |
| Ids.NextId | src/db/post.rs:28-33 | A poisoned lock gives `PoisonError` and leaves the generator as it was. Otherwise the call returns an id greater than the last id issued, and the generator records it as the last one. |
| Ids.Draws | src/db/post.rs:24-33 | Under the model's "last id + 1" abstraction, successive draws from a healthy generator give strictly increasing, hence distinct, ids. The ordering belongs to the abstraction, not to anything `get_next_id` (src/db/post.rs:28-33) states. |
| Paging.Wrap64 | src/db/post.rs:207 | 64-bit wrap: the result is an `i64`, it equals the input when the input is in range, and it always has the input's bit pattern. |
| Paging.PageOffset | src/db/post.rs:207 | The offset is an `i64` with the bit pattern of `limit * (page - 1)`. Page 1 has offset 0. |
| Paging.OffsetExact | src/db/post.rs:207 | For page >= 1 and limit >= 0 without overflow, the offset is exactly `limit * (page - 1)`. |
| Paging.PagesContiguous | src/db/post.rs:316 | Page `n + 1` starts exactly `limit` rows after page `n`. |
| Paging.PagesDisjoint | src/db/post.rs:316 | An earlier page ends no later than a later page begins. |
| Paging.GetMine | src/db/post.rs:198-208 | `get_mine` queries the user's own posts with the given limit and the page offset. Page 1 starts at row 0. |
| Paging.Browse | src/db/post.rs:307-317 | `browse` queries all posts with the given limit and the page offset. Page 1 starts at row 0. |
| Paging.PageZeroNegative | src/db/post.rs:207 | Page 0 gives offset `-limit`. Nothing on this path rejects page numbers below 1. |
| Handler.Respond | src/handlers/post/handler.rs:40-41 | A handler succeeds exactly when the post layer returned `Ok`. Otherwise it returns the post layer's error unchanged and keeps the cache as it was. |
| Handler.HandleDelete | src/handlers/post/handler.rs:34-42 | The delete handler succeeds exactly when the relational delete returned a row. Zero rows give 201 and a failed statement gives a database error. |
| Handler.HandleLike | src/handlers/post/handler.rs:56-63 | The like handler succeeds exactly when the cache is up and the user had not liked. A repeated like gives 201 with the cache unchanged. |
| Handler.HandleCancelLike | src/handlers/post/handler.rs:66-73 | The cancel-like handler succeeds exactly when the user had liked. Otherwise it gives 201 or the cache error, with the cache unchanged. |
| Handler.HandleHate | src/handlers/post/handler.rs:107-114 | The hate handler succeeds exactly when the cache is up and the user had not hated. A repeat gives 201. |
| Handler.HandleCancelHate | src/handlers/post/handler.rs:117-124 | The cancel-hate handler succeeds exactly when the user had hated. Otherwise it gives 201 or the cache error. |
| Handler.HandleComment | src/handlers/post/handler.rs:88-104 | An insert error is propagated, with both tables unchanged. A successful insert adds the comment to the comment table in every later branch. A self-comment succeeds with the new id and sends nothing. Otherwise one comment notice goes from the commenter to the receiver, about the new comment. If that send fails, the request fails with the send's error. |
| Handler.CommentNoticeRule | src/handlers/post/handler.rs:95-98 | The notice table only grows at its end and never gains a self-addressed notice. It grows by exactly one, addressed to the receiver and carrying the comment id, precisely when the insert succeeded, the commenter is not the receiver, and the send went through. |
| Handler.FailedNoticeFailsRequest | src/handlers/post/handler.rs:93-97 | After a successful insert, a failed notice send fails the request with the send's error. The comment stays in the comment table, just as it does when the send works, so the request is not rolled back. The same request with a working send succeeds with the comment's id. |

## Left out

- Redis transport (`RedisActor`, `exec`, `exec_all`, `do_send`, `del`): each command is one atomic update. A batch that fails after the membership check passed is not modelled. It might have applied partly.
- Post.Delete: the four `del` calls and the parent decrement are fire-and-forget. The model applies all of them. A lost cache command on this path is not modelled.
- The check-then-act race between two concurrent identical toggles, and the `join_all`/`try_join_all` fan-out: the model is sequential.
- Postgres statement text, preparation details and row decoding (`PostExtends::from`): relational outcomes are inputs.
- `sync_cache_data` and `PostExtendsWithComment`: their implementation is not part of this model. So the read path of `get_one`, `get_mine` and `browse` is left out, beyond the offset.
- `add` (creating a top-level post): its only engagement-related step is the id draw, which `Ids.NextId` covers.
- Ids.NextId: the snowflake layout (timestamp, worker and sequence bits) belongs to an external library. The fresh id is abstracted as one more than the last id issued.
- Ids.Draws: the increasing order and the distinctness of successive ids come from the "last id + 1" abstraction. `get_next_id` only wraps the external `SnowflakeIdBucket::get_id` in a mutex and promises neither. The library's own ordering (for example, within a batch of pre-generated ids) is not modelled.
- `utils::string_to_i64` (parsing the origin id): it is not part of this model. `Post.Comment` takes the parsed id.
- `MsgService::send_comment_notice` is not part of this model. The notice it writes is taken to carry the commenter, the comment type, the comment id and the receiver, as `send_notice` in `src/db/msg.rs` takes them.
- Counter width: Redis counters are 64-bit and INCR fails on overflow. The model's counters are unbounded.
- Debug builds panic on the offset overflow instead of wrapping. The model follows release-build wrap-around.
- HTTP response construction, `Paging::finish`, logging, and `src/db/msg.rs`/`src/models/post/dto.rs` (plain insert/select wrappers and data structs).

/**
 Requests against the engagement cache, taken one at a time. Every refused
 or failed request leaves the cache as it was, except a comment whose
 insert returned no row: it fails with `NotFound` after the parent's
 comment counter was raised. Either way the like/hate counters stay equal
 to the sizes of their sets whatever sequence of requests arrives.
 Id generation is outside this request model: each `CommentRequest` carries
 the generator state its id is drawn from, and `Run` does not pass the
 generator from one comment to the next, so two comments in one run may
 draw the same id.
 */
module Requests {
  import opened Errors
  import opened Cache
  import opened Post
  import opened Ids

  datatype Request =
    | LikeRequest(post: PostId, user: UserId, link: Link)
    | CancelLikeRequest(post: PostId, user: UserId, link: Link)
    | HateRequest(post: PostId, user: UserId, link: Link)
    | CancelHateRequest(post: PostId, user: UserId, link: Link)
    | DeleteRequest(post: PostId, deleted: Query<Option<PostId>>)
    | CommentRequest(ids: IdBucket, origin: PostId, inserted: Query<PostId>, link: Link)

  /** The cache a transition result leaves: the new state, or the old one on an error. */
  function Settle(c: State, r: Result<State>): (d: State)
    ensures r.Err? ==> d == c
    ensures r.Ok? ==> d == r.value
  {
    match r
    case Ok(next) => next
    case Err(_) => c
  }

  function Step(c: State, req: Request): State
  {
    match req
    case LikeRequest(p, u, link) => Settle(c, Like(c, p, u, link))
    case CancelLikeRequest(p, u, link) => Settle(c, CancelLike(c, p, u, link))
    case HateRequest(p, u, link) => Settle(c, Hate(c, p, u, link))
    case CancelHateRequest(p, u, link) => Settle(c, CancelHate(c, p, u, link))
    case DeleteRequest(p, deleted) => Settle(c, Delete(c, p, deleted))
    case CommentRequest(ids, origin, inserted, link) => Comment(c, ids, origin, inserted, link).cache
  }

  function Run(c: State, reqs: seq<Request>): State
    decreases |reqs|
  {
    if |reqs| == 0 then c else Run(Step(c, reqs[0]), reqs[1..])
  }

  /** One request, successful or not, keeps a balanced post balanced. */
  lemma StepKeepsConsistent(c: State, req: Request, q: PostId)
    requires Consistent(c, q)
    ensures Consistent(Step(c, req), q)
  {
    match req
    case LikeRequest(p, u, link) =>
      if Like(c, p, u, link).Ok? { ReactKeepsConsistent(c, p, u, Likes, link, q); }
    case CancelLikeRequest(p, u, link) =>
      if CancelLike(c, p, u, link).Ok? { WithdrawKeepsConsistent(c, p, u, Likes, link, q); }
    case HateRequest(p, u, link) =>
      if Hate(c, p, u, link).Ok? { ReactKeepsConsistent(c, p, u, Hates, link, q); }
    case CancelHateRequest(p, u, link) =>
      if CancelHate(c, p, u, link).Ok? { WithdrawKeepsConsistent(c, p, u, Hates, link, q); }
    case DeleteRequest(p, deleted) =>
      if Delete(c, p, deleted).Ok? { DeleteKeepsConsistent(c, p, deleted, q); }
    case CommentRequest(ids, origin, inserted, link) =>
      CommentKeepsConsistent(c, ids, origin, inserted, link, q);
  }

  /** Any sequence of requests keeps a balanced post balanced. */
  lemma {:induction false} RunKeepsConsistent(c: State, reqs: seq<Request>, q: PostId)
    requires Consistent(c, q)
    ensures Consistent(Run(c, reqs), q)
    decreases |reqs|
  {
    if |reqs| > 0 {
      StepKeepsConsistent(c, reqs[0], q);
      RunKeepsConsistent(Step(c, reqs[0]), reqs[1..], q);
    }
  }

  /** Starting from a cache where every post is balanced, every post is
      balanced after any sequence of requests. */
  lemma RunKeepsAllConsistent(c: State, reqs: seq<Request>)
    requires AllConsistent(c)
    ensures AllConsistent(Run(c, reqs))
  {
    forall q ensures Consistent(Run(c, reqs), q) {
      RunKeepsConsistent(c, reqs, q);
    }
  }

  /** Two users like a fresh post, the first takes the like back, and a
      second withdrawal by the first is refused with the count still at 1. */
  lemma LikeScenario(p: PostId, u1: UserId, u2: UserId)
    requires u1 != u2
    ensures var c := Run(Empty, [LikeRequest(p, u1, Up), LikeRequest(p, u2, Up), CancelLikeRequest(p, u1, Up)]);
            && Members(c, p, Likes) == {u2}
            && Count(c, p, LikeCount) == 1
            && CancelLike(c, p, u1, Up) == Err(Code(RejectCode))
  {
    var c1 := Step(Empty, LikeRequest(p, u1, Up));
    assert Members(c1, p, Likes) == {u1} && Count(c1, p, LikeCount) == 1;
    var c2 := Step(c1, LikeRequest(p, u2, Up));
    assert Members(c2, p, Likes) == {u1, u2} && Count(c2, p, LikeCount) == 2;
    var c3 := Step(c2, CancelLikeRequest(p, u1, Up));
    assert Members(c3, p, Likes) == {u2} && Count(c3, p, LikeCount) == 1;
    var reqs := [LikeRequest(p, u1, Up), LikeRequest(p, u2, Up), CancelLikeRequest(p, u1, Up)];
    assert reqs[1..] == [LikeRequest(p, u2, Up), CancelLikeRequest(p, u1, Up)];
    assert reqs[1..][1..] == [CancelLikeRequest(p, u1, Up)];
    calc {
      Run(Empty, reqs);
      Run(c1, reqs[1..]);
      Run(c2, reqs[1..][1..]);
      Run(c3, reqs[1..][1..][1..]);
    }
  }
}

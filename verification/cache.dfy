/**
 The engagement cache as an abstract key/value store. Every post owns a
 likes set, a hates set, a like counter, a hate counter and a comment
 counter; keys never mix two posts. As in Redis, a missing set key reads as
 the empty set and a missing counter key reads as 0, and each command below
 is one atomic update of the store.
 */
module Cache {

  /** Post ids are 64-bit in the source and user ids 32-bit; the model only
      compares them for equality, so their width plays no part. */
  type PostId = int
  type UserId = int

  datatype Reaction = Likes | Hates
  datatype Counter = LikeCount | HateCount | CommentCount

  /** The counter that mirrors the size of a reaction set. */
  function CounterOf(k: Reaction): (n: Counter)
    ensures n != CommentCount
  {
    match k
    case Likes => LikeCount
    case Hates => HateCount
  }

  /** Whether the cache server answers a request. */
  datatype Link = Up | Down

  datatype State = State(sets: map<(PostId, Reaction), set<UserId>>,
                         counts: map<(PostId, Counter), int>)

  const Empty: State := State(map[], map[])

  /** SMEMBERS: the users in the reaction set of post `p`. */
  function Members(c: State, p: PostId, k: Reaction): set<UserId>
  {
    if (p, k) in c.sets then c.sets[(p, k)] else {}
  }

  /** GET on a counter key; a missing key reads as 0. */
  function Count(c: State, p: PostId, n: Counter): int
  {
    if (p, n) in c.counts then c.counts[(p, n)] else 0
  }

  /** Every reaction set outside `keys` reads the same in `c` and `d`. */
  ghost predicate SetsAgreeExcept(c: State, d: State, keys: set<(PostId, Reaction)>)
  {
    forall p, k :: (p, k) !in keys ==> Members(d, p, k) == Members(c, p, k)
  }

  /** Every counter outside `keys` reads the same in `c` and `d`. */
  ghost predicate CountsAgreeExcept(c: State, d: State, keys: set<(PostId, Counter)>)
  {
    forall p, n :: (p, n) !in keys ==> Count(d, p, n) == Count(c, p, n)
  }

  /** `c` and `d` answer every read alike. */
  ghost predicate Same(c: State, d: State)
  {
    SetsAgreeExcept(c, d, {}) && CountsAgreeExcept(c, d, {})
  }

  /** SADD */
  function SAdd(c: State, p: PostId, k: Reaction, u: UserId): (d: State)
    ensures Members(d, p, k) == Members(c, p, k) + {u}
    ensures SetsAgreeExcept(c, d, {(p, k)})
    ensures CountsAgreeExcept(c, d, {})
  {
    c.(sets := c.sets[(p, k) := Members(c, p, k) + {u}])
  }

  /** SREM; Redis drops a set key once its last member is gone. */
  function SRem(c: State, p: PostId, k: Reaction, u: UserId): (d: State)
    ensures Members(d, p, k) == Members(c, p, k) - {u}
    ensures Members(d, p, k) == {} ==> (p, k) !in d.sets
    ensures SetsAgreeExcept(c, d, {(p, k)})
    ensures CountsAgreeExcept(c, d, {})
  {
    var rest := Members(c, p, k) - {u};
    if rest == {} then c.(sets := c.sets - {(p, k)})
    else c.(sets := c.sets[(p, k) := rest])
  }

  /** INCR; a missing key counts from 0. */
  function Incr(c: State, p: PostId, n: Counter): (d: State)
    ensures Count(d, p, n) == Count(c, p, n) + 1
    ensures CountsAgreeExcept(c, d, {(p, n)})
    ensures SetsAgreeExcept(c, d, {})
  {
    c.(counts := c.counts[(p, n) := Count(c, p, n) + 1])
  }

  /** DECR; a missing key counts from 0, so it may go below 0. */
  function Decr(c: State, p: PostId, n: Counter): (d: State)
    ensures Count(d, p, n) == Count(c, p, n) - 1
    ensures CountsAgreeExcept(c, d, {(p, n)})
    ensures SetsAgreeExcept(c, d, {})
  {
    c.(counts := c.counts[(p, n) := Count(c, p, n) - 1])
  }

  /** DEL on a set key. */
  function DelSet(c: State, p: PostId, k: Reaction): (d: State)
    ensures Members(d, p, k) == {}
    ensures SetsAgreeExcept(c, d, {(p, k)})
    ensures CountsAgreeExcept(c, d, {})
  {
    c.(sets := c.sets - {(p, k)})
  }

  /** DEL on a counter key. */
  function DelCount(c: State, p: PostId, n: Counter): (d: State)
    ensures Count(d, p, n) == 0
    ensures CountsAgreeExcept(c, d, {(p, n)})
    ensures SetsAgreeExcept(c, d, {})
  {
    c.(counts := c.counts - {(p, n)})
  }

  /** The counter of reaction `k` on post `p` equals the size of its set. */
  predicate Balanced(c: State, p: PostId, k: Reaction)
  {
    Count(c, p, CounterOf(k)) == |Members(c, p, k)|
  }

  /** The cache invariant for one post: like count == |likes| and
      hate count == |hates|. */
  predicate Consistent(c: State, p: PostId)
  {
    Balanced(c, p, Likes) && Balanced(c, p, Hates)
  }

  ghost predicate AllConsistent(c: State)
  {
    forall p :: Consistent(c, p)
  }
}

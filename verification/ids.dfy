/**
 `get_next_id`: the post/comment id generator behind a mutex. The
 snowflake layout (timestamp, worker, sequence) belongs to an external
 library and is abstracted to "one more than the last id handed out". The
 ordering and distinctness proved below come from this abstraction, not
 from anything `get_next_id` itself promises.
 */
module Ids {
  import opened Errors

  /** The generator cell: whether its lock is poisoned, and the last id issued. */
  datatype IdBucket = IdBucket(poisoned: bool, last: int)

  datatype Drawn = Drawn(bucket: IdBucket, result: Result<int>)

  /** A poisoned lock maps to `PoisonError`; otherwise a fresh id. */
  function NextId(b: IdBucket): (r: Drawn)
    ensures b.poisoned ==> r == Drawn(b, Err(PoisonError))
    ensures !b.poisoned ==>
              && r.result.Ok?
              && r.result.value > b.last
              && r.bucket == IdBucket(false, r.result.value)
  {
    if b.poisoned then Drawn(b, Err(PoisonError))
    else Drawn(IdBucket(false, b.last + 1), Ok(b.last + 1))
  }

  /** The ids of `n` successive draws from a healthy generator: all newer
      than anything issued before, strictly increasing, hence distinct. */
  function Draws(b: IdBucket, n: nat): (ids: seq<int>)
    requires !b.poisoned
    ensures |ids| == n
    ensures forall i :: 0 <= i < n ==> ids[i] > b.last
    ensures forall i, j :: 0 <= i < j < n ==> ids[i] < ids[j]
    decreases n
  {
    if n == 0 then []
    else
      var d := NextId(b);
      [d.result.value] + Draws(d.bucket, n - 1)
  }

}

/**
 The page arithmetic of `get_mine` and `browse`: the rows skipped before a
 page are `limit * (page - 1)`, computed in 64-bit signed integers. A
 release build wraps on overflow (two's complement), which `Wrap64` writes
 out.
 */
module Paging {
  import opened Errors
  import opened Cache

  const Half64: int := 0x8000_0000_0000_0000
  const Mod64: int := 0x1_0000_0000_0000_0000

  predicate IsI64(x: int)
  {
    -Half64 <= x < Half64
  }

  /** Two's-complement wrap of an integer into the `i64` range. */
  function Wrap64(x: int): (r: int)
    ensures IsI64(r)
    ensures IsI64(x) ==> r == x
    ensures Congruent(r, x)
  {
    var r := (x + Half64) % Mod64 - Half64;
    CongruentByWitness(r, x, -((x + Half64) / Mod64));
    r
  }

  /** `a` and `b` are the same `i64` bit pattern. */
  predicate Congruent(a: int, b: int)
  {
    (a - b) % Mod64 == 0
  }

  lemma CongruentByWitness(a: int, b: int, m: int)
    requires a - b == m * Mod64
    ensures Congruent(a, b)
  {
  }

  lemma CongruentTrans(a: int, b: int, c: int)
    requires Congruent(a, b) && Congruent(b, c)
    ensures Congruent(a, c)
  {
    var m1 := (a - b) / Mod64;
    var m2 := (b - c) / Mod64;
    CongruentByWitness(a, c, m1 + m2);
  }

  /** Multiplying both sides of a congruence modulo 2^64 keeps it. */
  lemma CongruentScale(k: int, a: int, b: int)
    requires Congruent(a, b)
    ensures Congruent(k * a, k * b)
  {
    var m := (a - b) / Mod64;
    assert a - b == m * Mod64;
    assert k * a - k * b == (k * m) * Mod64 by {
      assert k * a - k * b == k * (a - b);
    }
    CongruentByWitness(k * a, k * b, k * m);
  }

  /** `limit * (page - 1)` as the source computes it. */
  function PageOffset(page: int, limit: int): (offset: int)
    requires IsI64(page) && IsI64(limit)
    ensures IsI64(offset)
    ensures page == 1 ==> offset == 0
    ensures Congruent(offset, limit * (page - 1))
  {
    var prev := Wrap64(page - 1);
    var offset := Wrap64(limit * prev);
    CongruentScale(limit, prev, page - 1);
    CongruentTrans(offset, limit * prev, limit * (page - 1));
    offset
  }

  /** `a * b >= a` for `a >= 0` and `b >= 1`. */
  lemma MulAtLeast(a: int, b: int)
    requires 0 <= a && 1 <= b
    ensures a <= a * b
  {
    assert a * b == a + a * (b - 1);
  }

  /** Without overflow the offset is the exact product. */
  lemma OffsetExact(page: int, limit: int)
    requires IsI64(page) && IsI64(limit)
    requires 1 <= page && 0 <= limit && limit * (page - 1) < Half64
    ensures PageOffset(page, limit) == limit * (page - 1)
  {
    assert 0 <= limit * (page - 1);
  }

  /** Page `page + 1` starts exactly where page `page` ends. */
  lemma PagesContiguous(page: int, limit: int)
    requires IsI64(page) && IsI64(page + 1) && IsI64(limit)
    requires 1 <= page && 0 <= limit && limit * page < Half64
    ensures PageOffset(page + 1, limit) == PageOffset(page, limit) + limit
  {
    assert limit * (page - 1) <= limit * page by {
      assert limit * page - limit * (page - 1) == limit;
    }
    OffsetExact(page, limit);
    OffsetExact(page + 1, limit);
  }

  /** Distinct pages cover disjoint row windows: an earlier page ends
      no later than a later page begins. */
  lemma PagesDisjoint(p: int, q: int, limit: int)
    requires IsI64(p) && IsI64(q) && IsI64(limit)
    requires 1 <= p < q && 0 <= limit && limit * (q - 1) < Half64
    ensures PageOffset(p, limit) + limit <= PageOffset(q, limit)
  {
    assert limit * (q - 1) == limit * (p - 1) + limit * (q - p);
    MulAtLeast(limit, q - p);
    OffsetExact(p, limit);
    OffsetExact(q, limit);
  }

  /** The statement parameters of a listing: the author filter (`get_mine`
      passes the user, `browse` none), the page size and the offset. */
  datatype ListQuery = ListQuery(author: Option<UserId>, limit: int, offset: int)

  /** `get_mine`: the user's own posts, page `page`. */
  function GetMine(user: UserId, page: int, limit: int): (q: ListQuery)
    requires IsI64(page) && IsI64(limit)
    ensures q.author == Some(user) && q.limit == limit
    ensures page == 1 ==> q.offset == 0
    ensures Congruent(q.offset, limit * (page - 1))
  {
    ListQuery(Some(user), limit, PageOffset(page, limit))
  }

  /** `browse`: everyone's posts, page `page`. */
  function Browse(page: int, limit: int): (q: ListQuery)
    requires IsI64(page) && IsI64(limit)
    ensures q.author == None && q.limit == limit
    ensures page == 1 ==> q.offset == 0
    ensures Congruent(q.offset, limit * (page - 1))
  {
    ListQuery(None, limit, PageOffset(page, limit))
  }

  /** A page number below 1 gives a negative offset; nothing on this path
      rejects it before the query. */
  lemma PageZeroNegative(limit: int)
    requires IsI64(limit) && -Half64 < limit
    ensures PageOffset(0, limit) == -limit
  {
  }
}

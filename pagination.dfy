/**
 * The pagination arithmetic of the list route in backend/src/routes/todos.js:
 * `skip = (page - 1) * limit`, `.skip(skip).limit(limit)` on the sorted result, and
 * `pages = Math.ceil(total / limit)`.
 */
module Pagination {
  import opened Arith

  /** How many sorted documents precede page `page`. */
  function Skip(page: int, limit: int): (n: nat)
    requires page >= 1 && limit >= 1
    ensures n % limit == 0 && n / limit == page - 1
  {
    MulDiv(page - 1, limit);
    (page - 1) * limit
  }

  lemma MulDiv(q: nat, d: int)
    requires d >= 1
    ensures q * d >= 0 && (q * d) % d == 0 && (q * d) / d == q
  {
    var n := q * d;
    assert n >= 0;
    var m := n % d;
    var k := n / d;
    assert n == k * d + m && 0 <= m < d;
    assert (q - 1) * d == q * d - d && (q + 1) * d == q * d + d;
    if k < q {
      MulMonotone(k, q - 1, d);
    } else if k > q {
      MulMonotone(q + 1, k, d);
    }
  }

  /** `.skip(skip).limit(limit)`: at most `limit` documents, starting after the first `skip`. */
  function Window<T>(s: seq<T>, skip: nat, limit: nat): (r: seq<T>)
    ensures |r| <= limit
    ensures |r| == if skip >= |s| then 0 else if |s| - skip < limit then |s| - skip else limit
    ensures forall i :: 0 <= i < |r| ==> r[i] == s[skip + i]
    ensures forall x :: x in r ==> x in s
  {
    if skip >= |s| then []
    else if |s| - skip < limit then s[skip..]
    else s[skip..skip + limit]
  }

  /** `Math.ceil(total / limit)`: the number of pages `total` documents fill. */
  function PageCount(total: nat, limit: int): (n: nat)
    requires limit >= 1
    ensures (n - 1) * limit < total <= n * limit
    ensures n == 0 <==> total == 0
  {
    var n := CeilDiv(total, limit);
    assert n >= 0 by {
      if n < 0 { MulMonotone(n, -1, limit); }
    }
    assert n == 0 <==> total == 0 by {
      if n > 0 && total == 0 { MulMonotone(0, n - 1, limit); }
    }
    n
  }

  /**
   * The pages cover the whole result: document `i` is entry `i % limit` of page
   * `i / limit + 1`, and that page is among the `PageCount` pages reported.
   */
  lemma {:induction false} PagesCoverAll<T>(s: seq<T>, limit: int, i: nat)
    requires limit >= 1 && i < |s|
    ensures var page := i / limit + 1;
      && page <= PageCount(|s|, limit)
      && i % limit < |Window(s, Skip(page, limit), limit)|
      && Window(s, Skip(page, limit), limit)[i % limit] == s[i]
  {
    var page := i / limit + 1;
    var n := PageCount(|s|, limit);
    var skip := Skip(page, limit);
    assert i == (i / limit) * limit + i % limit;
    assert skip == (i / limit) * limit by { MulDiv(i / limit, limit); }
    if page > n {
      MulMonotone(n, i / limit, limit);
    }
  }
}

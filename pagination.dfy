/** The arithmetic of the paginated property list: default page and limit, the
    number of records skipped, the page the store returns and the `hasMore` flag. */
module Pagination {
  import opened Models

  const DefaultPage := 1
  const DefaultLimit := 50

  /** `parseInt(q) || d`. The query value arrives already parsed: `None` stands for a
      missing or non-numeric value (NaN), and 0 is falsy too, so both give `d`. */
  function ParamOr(q: Option<int>, d: int): (r: int)
    ensures q.None? || q.value == 0 ==> r == d
    ensures q.Some? && q.value != 0 ==> r == q.value
    ensures d != 0 ==> r != 0
  {
    if q.None? || q.value == 0 then d else q.value
  }

  /** Records before the requested page. Negative when page or limit is negative. */
  function Skip(page: int, limit: int): int {
    (page - 1) * limit
  }

  /** `hasMore` as the handler computes it from the total number of records. */
  predicate HasMore(page: int, limit: int, total: int) {
    page * limit < total
  }

  /** How many records the store returns for `.limit(limit)`: the driver sends a
      negative limit as its absolute value (with a single batch). */
  function Take(limit: int): nat {
    if limit < 0 then -limit else limit
  }

  function Min(a: int, b: int): int {
    if a <= b then a else b
  }

  /** `find().skip(skip).limit(take)`: the records from position `skip` on, at most `take` of them. */
  function PageOf<T>(items: seq<T>, skip: nat, take: nat): (r: seq<T>)
    ensures |r| == if skip >= |items| then 0 else Min(take, |items| - skip)
    ensures forall i :: 0 <= i < |r| ==> r[i] == items[skip + i]
  {
    if skip >= |items| then [] else items[skip..Min(skip + take, |items|)]
  }

  /** With the defaults in force, `hasMore` is true exactly when the next page is not empty. */
  lemma HasMoreIffNextPageNonEmpty<T>(items: seq<T>, page: int, limit: int)
    requires page >= 1 && limit >= 1
    ensures HasMore(page, limit, |items|) <==> PageOf(items, Skip(page + 1, limit), Take(limit)) != []
  {
    assert Skip(page + 1, limit) == page * limit;
  }

  /** The first `n` pages one after another. */
  function Pages<T>(items: seq<T>, limit: nat, n: nat): seq<T> {
    if n == 0 then [] else
      var skip := Skip(n, limit);
      Pages(items, limit, n - 1) + (if skip < 0 then [] else PageOf(items, skip, limit))
  }

  /** Reading pages 1..n in turn yields the records in order, without gaps or
      repeats: the first `n * limit` of them (or all, when fewer). */
  lemma {:induction false} PagesCover<T>(items: seq<T>, limit: nat, n: nat)
    requires limit >= 1
    ensures Pages(items, limit, n) == items[..Min(n * limit, |items|)]
  {
    if n > 0 {
      PagesCover(items, limit, n - 1);
      var skip := (n - 1) * limit;
      assert Skip(n, limit) == skip >= 0;
      assert n * limit == skip + limit;
      var page := PageOf(items, skip, limit);
      if skip >= |items| {
        assert Min(n * limit, |items|) == |items| == Min(skip, |items|);
      } else {
        assert page == items[skip..Min(skip + limit, |items|)];
        assert items[..Min(skip, |items|)] + page == items[..Min(n * limit, |items|)];
      }
    }
  }

  /** 125 records, 50 per page: pages 1 and 2 are full and have more, page 3 holds the last 25. */
  lemma Example125<T>(items: seq<T>)
    requires |items| == 125
    ensures |PageOf(items, Skip(1, 50), Take(50))| == 50 && HasMore(1, 50, |items|)
    ensures |PageOf(items, Skip(2, 50), Take(50))| == 50 && HasMore(2, 50, |items|)
    ensures |PageOf(items, Skip(3, 50), Take(50))| == 25 && !HasMore(3, 50, |items|)
    ensures PageOf(items, Skip(3, 50), Take(50)) == items[100..]
  {
  }
}

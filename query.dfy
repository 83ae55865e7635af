/**
 * What the three job handlers under src/pages/api/jobs/ share: the
 * `findMany` / `count` pair over one `where` filter, ordered by `postedAt`
 * descending, with `skip = (page - 1) * limit`, `take = limit` and
 * `pages = Math.ceil(total / limit)`; and the response shapes.
 */
module Query {
  import opened Text
  import opened Types
  import opened ApiErrors

  /** The database as a request sees it: its rows, or the value the query throws. */
  datatype Db = Reachable(listings: seq<JobListing>) | Throws(thrown: Thrown)

  /** A JSON body the handlers write. */
  datatype Body =
    | Jobs(jobs: seq<JobListing>, total: nat, page: int, pages: nat)
    | Opportunities(opportunities: seq<JobListing>, total: nat, page: int, pages: nat)
    | ErrorBody(error: string, details: Option<string>)

  datatype Response = Response(status: int, body: Body)

  /** The 405 answer to any method other than GET. */
  const MethodNotAllowed := Response(405, ErrorBody("Method not allowed", None))

  /** The answer `handleApiError` would write for this reply. */
  function FromErrorReply(e: ErrorReply): Response
  {
    Response(e.status, ErrorBody(e.error, e.details))
  }

  // ---------------------------------------------------------------------
  // Parameters
  // ---------------------------------------------------------------------

  /** `page = '1'` / `limit = '20'` defaults, applied to the parsed value. */
  function PageOrDefault(page: Option<int>): int { if page.Some? then page.value else 1 }
  function LimitOrDefault(limit: Option<int>): int { if limit.Some? then limit.value else 20 }

  /** Paging values the handlers can compute with: a page from 1 and a limit from 1. */
  predicate ValidPaging(page: Option<int>, limit: Option<int>)
  {
    PageOrDefault(page) >= 1 && LimitOrDefault(limit) >= 1
  }

  /** `(pageNum - 1) * limitNum`. */
  function Skip(page: int, limit: int): (s: int)
    requires page >= 1 && limit >= 1
    ensures s >= 0
    ensures s < page * limit && s + limit == page * limit
  {
    (page - 1) * limit
  }

  /** `Math.ceil(total / limitNum)`: the least number of pages of `limit` rows that hold `total` rows. */
  function PageCount(total: nat, limit: int): (pages: nat)
    requires limit >= 1
    ensures total <= pages * limit
    ensures pages > 0 ==> (pages - 1) * limit < total
  {
    if total % limit == 0 then total / limit else total / limit + 1
  }

  /** `mode: 'insensitive'` `contains`. */
  predicate InsensitiveContains(field: string, needle: string)
  {
    Contains(Lower(field), Lower(needle))
  }

  /** The `OR` of `contains` on title, description and company. */
  predicate SearchMatches(l: JobListing, search: string)
  {
    InsensitiveContains(l.title, search) || InsensitiveContains(l.description, search)
      || InsensitiveContains(l.company, search)
  }

  // ---------------------------------------------------------------------
  // findMany / count
  // ---------------------------------------------------------------------

  /** The rows that satisfy `p`, in store order. */
  function Where(ls: seq<JobListing>, p: JobListing -> bool): (r: seq<JobListing>)
    ensures |r| <= |ls|
    ensures forall x :: x in r <==> x in ls && p(x)
    ensures forall x :: p(x) ==> multiset(r)[x] == multiset(ls)[x]
    ensures forall x :: !p(x) ==> multiset(r)[x] == 0
  {
    if ls == [] then []
    else
      var rest := Where(ls[1..], p);
      assert ls == [ls[0]] + ls[1..];
      if p(ls[0]) then [ls[0]] + rest else rest
  }

  /** `orderBy: { postedAt: 'desc' }`. */
  predicate SortedByPostedDesc(s: seq<JobListing>)
  {
    forall i, j :: 0 <= i < j < |s| ==> s[i].postedAt >= s[j].postedAt
  }

  function InsertByPostedDesc(x: JobListing, s: seq<JobListing>): (r: seq<JobListing>)
    requires SortedByPostedDesc(s)
    ensures |r| == |s| + 1
    ensures r[0] == x || (|s| > 0 && r[0] == s[0])
    ensures SortedByPostedDesc(r)
    ensures multiset(r) == multiset(s) + multiset{x}
  {
    if s == [] || x.postedAt >= s[0].postedAt then
      [x] + s
    else
      var rest := InsertByPostedDesc(x, s[1..]);
      assert s == [s[0]] + s[1..];
      assert s[0].postedAt >= rest[0].postedAt;
      [s[0]] + rest
  }

  /**
   * The rows ordered by `postedAt`, newest first. Rows with equal `postedAt`
   * keep their store order; the database leaves that order unspecified.
   */
  function SortByPostedDesc(s: seq<JobListing>): (r: seq<JobListing>)
    ensures SortedByPostedDesc(r)
    ensures multiset(r) == multiset(s)
    ensures |r| == |s|
  {
    if s == [] then []
    else
      assert s == [s[0]] + s[1..];
      InsertByPostedDesc(s[0], SortByPostedDesc(s[1..]))
  }

  /** `skip` / `take` on an ordered result: at most `take` rows starting at position `skip`. */
  function Window(s: seq<JobListing>, skip: nat, take: nat): (r: seq<JobListing>)
    ensures |r| == if skip >= |s| then 0 else if |s| - skip < take then |s| - skip else take
    ensures forall i :: 0 <= i < |r| ==> r[i] == s[skip + i]
  {
    if skip >= |s| then []
    else if |s| - skip < take then s[skip..]
    else s[skip..skip + take]
  }

  /** Multiplication by a positive number preserves `<=`. */
  lemma MulMonotone(a: nat, b: nat, c: nat)
    requires a <= b
    ensures a * c <= b * c
  {
  }

  /** Every row of the ordered result lies on the page its position says. */
  lemma RowOnItsPage(s: seq<JobListing>, k: nat, limit: int)
    requires limit >= 1 && k < |s|
    ensures var page := k / limit + 1;
      1 <= page <= PageCount(|s|, limit) && s[k] in Window(s, Skip(page, limit), limit)
  {
    var q := k / limit;
    var page := q + 1;
    var skip := Skip(page, limit);
    assert skip == q * limit;
    assert k == q * limit + k % limit;
    assert skip <= k < skip + limit;
    var w := Window(s, skip, limit);
    assert w[k - skip] == s[k];
    var pages := PageCount(|s|, limit);
    if pages < page {
      MulMonotone(pages, q, limit);
      assert false;
    }
  }

  /**
   * `findMany({ where, skip, take, orderBy })`: at most `take` rows, each a
   * stored row that satisfies the filter, newest first.
   */
  function FindMany(ls: seq<JobListing>, p: JobListing -> bool, skip: nat, take: nat): (rows: seq<JobListing>)
    ensures |rows| <= take
    ensures forall x :: x in rows ==> x in ls && p(x)
    ensures SortedByPostedDesc(rows)
  {
    WindowRowsMatch(ls, p, skip, take);
    WindowSorted(SortByPostedDesc(Where(ls, p)), skip, take);
    Window(SortByPostedDesc(Where(ls, p)), skip, take)
  }

  /** The positions of the stored rows that satisfy `p`. */
  function MatchingRows(ls: seq<JobListing>, p: JobListing -> bool): set<nat>
  {
    set i: nat | i < |ls| && p(ls[i])
  }

  /** Filtering a sequence with one more row at the end adds that row when it matches. */
  lemma {:induction false} WhereSnoc(ls: seq<JobListing>, x: JobListing, p: JobListing -> bool)
    ensures Where(ls + [x], p) == Where(ls, p) + (if p(x) then [x] else [])
    decreases |ls|
  {
    if ls == [] {
      assert [x][1..] == [];
    } else {
      assert (ls + [x])[1..] == ls[1..] + [x];
      WhereSnoc(ls[1..], x, p);
    }
  }

  /** The matching positions of a store are those of all but its last row, and the last when it matches. */
  lemma MatchingRowsSnoc(ls: seq<JobListing>, p: JobListing -> bool)
    requires |ls| > 0
    ensures MatchingRows(ls, p) ==
      MatchingRows(ls[..|ls| - 1], p) + (if p(ls[|ls| - 1]) then {|ls| - 1} else {})
  {
    var k := |ls| - 1;
    var pre := ls[..k];
    forall i: nat | i < k ensures pre[i] == ls[i] { }
  }

  /** The filter keeps one row for each matching position of the store. */
  lemma {:induction false} WhereCountsMatchingRows(ls: seq<JobListing>, p: JobListing -> bool)
    ensures |Where(ls, p)| == |MatchingRows(ls, p)|
    decreases |ls|
  {
    if ls == [] {
      assert MatchingRows(ls, p) == {};
    } else {
      var k := |ls| - 1;
      var pre := ls[..k];
      Text.ButLastThenLast(ls);
      WhereSnoc(pre, ls[k], p);
      WhereCountsMatchingRows(pre, p);
      var before := MatchingRows(pre, p);
      var last: set<nat> := if p(ls[k]) then {k} else {};
      assert |Where(ls, p)| == |Where(pre, p)| + |last|;
      MatchingRowsSnoc(ls, p);
      assert k !in before;
      assert |before + last| == |before| + |last|;
    }
  }

  /**
   * `count({ where })`: the number of stored rows that satisfy the filter,
   * so zero exactly when none does.
   */
  function Count(ls: seq<JobListing>, p: JobListing -> bool): (n: nat)
    ensures n == |MatchingRows(ls, p)|
    ensures n <= |ls|
    ensures n == 0 <==> forall x :: x in ls ==> !p(x)
  {
    var matching := Where(ls, p);
    WhereCountsMatchingRows(ls, p);
    assert matching != [] ==> matching[0] in matching;
    |matching|
  }

  /** Every row of a window of the ordered result satisfies the filter and comes from the store. */
  lemma WindowRowsMatch(ls: seq<JobListing>, p: JobListing -> bool, skip: nat, take: nat)
    ensures forall x :: x in Window(SortByPostedDesc(Where(ls, p)), skip, take) ==> x in ls && p(x)
  {
    var all := SortByPostedDesc(Where(ls, p));
    var rows := Window(all, skip, take);
    forall x | x in rows ensures x in ls && p(x) {
      var i :| 0 <= i < |rows| && rows[i] == x;
      assert all[skip + i] == x;
      assert x in multiset(all);
    }
  }

  /** A window of an ordered sequence is ordered. */
  lemma WindowSorted(s: seq<JobListing>, skip: nat, take: nat)
    requires SortedByPostedDesc(s)
    ensures SortedByPostedDesc(Window(s, skip, take))
  {
  }

  /** `count` counts every copy of every row that satisfies the filter. */
  lemma CountCountsMatches(ls: seq<JobListing>, p: JobListing -> bool, x: JobListing)
    requires p(x)
    ensures multiset(ls)[x] <= Count(ls, p)
  {
  }

  /** The page a handler answers with: the rows of that page, the total and the page count. */
  datatype PageOf = PageOf(rows: seq<JobListing>, total: nat, pages: nat)

  /**
   * `Promise.all([findMany({ where, skip, take, orderBy }), count({ where })])`
   * followed by `Math.ceil(total / limitNum)`: the page holds the rows at
   * positions `(page - 1) * limit` up to `page * limit` of all matching rows
   * ordered newest first; each satisfies the filter, and there are at most
   * `limit` of them and no more than the total.
   */
  function Paginate(ls: seq<JobListing>, p: JobListing -> bool, page: int, limit: int): (r: PageOf)
    requires page >= 1 && limit >= 1
    ensures r.rows == Window(SortByPostedDesc(Where(ls, p)), Skip(page, limit), limit)
    ensures r.total == Count(ls, p) && r.pages == PageCount(r.total, limit)
    ensures |r.rows| <= limit && |r.rows| <= r.total
    ensures forall x :: x in r.rows ==> x in ls && p(x)
    ensures SortedByPostedDesc(r.rows)
  {
    var rows := FindMany(ls, p, Skip(page, limit), limit);
    PageOf(rows, Count(ls, p), PageCount(Count(ls, p), limit))
  }

  /** A window that ends before another starts holds rows at least as new as every row of the other. */
  lemma EarlierWindowIsNewer(s: seq<JobListing>, skip1: nat, skip2: nat, take: nat)
    requires SortedByPostedDesc(s) && skip1 + take <= skip2
    ensures forall x, y :: x in Window(s, skip1, take) && y in Window(s, skip2, take) ==> x.postedAt >= y.postedAt
  {
    var a := Window(s, skip1, take);
    var b := Window(s, skip2, take);
    forall x, y | x in a && y in b ensures x.postedAt >= y.postedAt {
      var i :| 0 <= i < |a| && a[i] == x;
      var j :| 0 <= j < |b| && b[j] == y;
      assert x == s[skip1 + i] && y == s[skip2 + j];
    }
  }

  /** Pages follow the global order: every row of a page is at least as new as every row of a later page. */
  lemma EarlierPagesAreNewer(ls: seq<JobListing>, p: JobListing -> bool, page: int, later: int, limit: int)
    requires 1 <= page < later && limit >= 1
    ensures forall x, y :: x in Paginate(ls, p, page, limit).rows && y in Paginate(ls, p, later, limit).rows ==>
      x.postedAt >= y.postedAt
  {
    MulMonotone(page, later - 1, limit);
    assert Skip(page, limit) + limit <= Skip(later, limit);
    EarlierWindowIsNewer(SortByPostedDesc(Where(ls, p)), Skip(page, limit), Skip(later, limit), limit);
  }

  /** Paging through pages 1 .. pages reaches every row that satisfies the filter. */
  lemma EveryMatchOnSomePage(ls: seq<JobListing>, p: JobListing -> bool, limit: int, x: JobListing)
    requires limit >= 1
    requires x in ls && p(x)
    ensures exists page ::
              && 1 <= page <= PageCount(Count(ls, p), limit)
              && x in Paginate(ls, p, page, limit).rows
  {
    var all := SortByPostedDesc(Where(ls, p));
    assert x in multiset(Where(ls, p));
    assert x in multiset(all);
    var k :| 0 <= k < |all| && all[k] == x;
    RowOnItsPage(all, k, limit);
    var page := k / limit + 1;
    assert |all| == Count(ls, p);
    assert Paginate(ls, p, page, limit).rows == Window(all, Skip(page, limit), limit);
  }

  // ---------------------------------------------------------------------
  // The catch block of the global and impact handlers
  // ---------------------------------------------------------------------

  /**
   * The `catch` block written out in the global and impact handlers: the same
   * four-way cascade on the message as `handleApiError`, so the two answer alike.
   */
  function DatabaseErrorResponse(e: Thrown, isDevelopment: bool): (r: Response)
    ensures r == FromErrorReply(HandleApiError(e, isDevelopment))
  {
    var errorMessage := MessageOf(e);
    if Contains(errorMessage, "DATABASE_URL") then
      Response(500, ErrorBody(ConfigurationError, DevOnly(isDevelopment, ConfigurationDetails)))
    else if Contains(errorMessage, "PrismaClient") then
      Response(500, ErrorBody(ClientError, DevOnly(isDevelopment, ClientDetails)))
    else if Contains(errorMessage, "connect") || Contains(errorMessage, "ECONNREFUSED") then
      Response(500, ErrorBody(ConnectionError, DevOnly(isDevelopment, ConnectionDetails)))
    else
      Response(500, ErrorBody(InternalError, DevOnly(isDevelopment, errorMessage)))
  }
}

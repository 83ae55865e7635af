/**
 * `GET /api/jobs/global` (src/pages/api/jobs/global.ts): active,
 * remote-global listings, optionally narrowed by category, a minimum vibe
 * score and a free-text search, one page at a time, newest first.
 */
module GlobalJobs {
  import opened Types
  import opened ApiErrors
  import opened Classifier
  import opened Query

  /**
   * The query-string filters after parsing: a filter is `None` when its
   * parameter is absent or empty (falsy), and `vibeScore` holds the value
   * `parseInt` returned.
   */
  datatype Filters = Filters(category: Option<JobCategory>, vibeScore: Option<int>, search: Option<string>)

  /**
   * The `AND` of the handler's conditions. A null score never meets `gte`.
   * Only active remote-global rows match, and without filters all of them do.
   */
  predicate Matches(l: JobListing, f: Filters)
    ensures Matches(l, f) ==> l.isActive && l.locationType == RemoteGlobal
    ensures f.category.None? && f.vibeScore.None? && !Given(f.search) ==>
      (Matches(l, f) <==> l.isActive && l.locationType == RemoteGlobal)
  {
    && l.isActive
    && l.locationType == RemoteGlobal
    && (f.category.Some? ==> l.category == f.category.value)
    && (f.vibeScore.Some? ==> l.vibeScore.Some? && l.vibeScore.value >= f.vibeScore.value)
    && (Given(f.search) ==> SearchMatches(l, f.search.value))
  }

  /** The `where` object as a test on one row. */
  function Selects(f: Filters): JobListing -> bool
  {
    l => Matches(l, f)
  }

  /** The handler, given the request method, the parsed query, the database and `NODE_ENV === 'development'`. */
  function Handle(verb: string, f: Filters, page: Option<int>, limit: Option<int>, db: Db, isDevelopment: bool): (r: Response)
    requires ValidPaging(page, limit)
    ensures verb != "GET" ==> r == MethodNotAllowed
    ensures verb == "GET" && db.Throws? ==> r == FromErrorReply(HandleApiError(db.thrown, isDevelopment))
    ensures verb == "GET" && db.Reachable? ==>
      && r.status == 200 && r.body.Jobs?
      && r.body.page == PageOrDefault(page)
      && r.body.total == Count(db.listings, Selects(f))
      && r.body.pages == PageCount(r.body.total, LimitOrDefault(limit))
      && r.body.jobs == Window(SortByPostedDesc(Where(db.listings, Selects(f))),
                                Skip(PageOrDefault(page), LimitOrDefault(limit)), LimitOrDefault(limit))
      && |r.body.jobs| <= LimitOrDefault(limit)
      && (forall x :: x in r.body.jobs ==> x in db.listings && Matches(x, f))
      && SortedByPostedDesc(r.body.jobs)
  {
    if verb != "GET" then MethodNotAllowed
    else match db
      case Throws(e) => DatabaseErrorResponse(e, isDevelopment)
      case Reachable(ls) =>
        var pageNum := PageOrDefault(page);
        var result := Paginate(ls, Selects(f), pageNum, LimitOrDefault(limit));
        Response(200, Jobs(result.rows, result.total, pageNum, result.pages))
  }

  /** Asking for pages 1 .. pages in turn returns every listing that matches the filters. */
  lemma PagesReachEveryMatch(f: Filters, limit: Option<int>, ls: seq<JobListing>, isDevelopment: bool, x: JobListing)
    requires LimitOrDefault(limit) >= 1
    requires x in ls && Matches(x, f)
    ensures exists page :: && 1 <= page <= PageCount(Count(ls, Selects(f)), LimitOrDefault(limit))
                           && x in Handle("GET", f, Some(page), limit, Reachable(ls), isDevelopment).body.jobs
  {
    EveryMatchOnSomePage(ls, Selects(f), LimitOrDefault(limit), x);
    var page :| && 1 <= page <= PageCount(Count(ls, Selects(f)), LimitOrDefault(limit))
                && x in Paginate(ls, Selects(f), page, LimitOrDefault(limit)).rows;
    assert x in Handle("GET", f, Some(page), limit, Reachable(ls), isDevelopment).body.jobs;
  }

  /**
   * A row the aggregator created with a remote location is listed by the
   * unfiltered dashboard and by any minimum score up to 50, the least score
   * the aggregator gives.
   */
  lemma AggregatedRemoteRowsListed(l: JobListing, f: Filters)
    requires AggregatorCreated(l) && l.locationType == RemoteGlobal
    requires f.category.None? && !Given(f.search)
    requires f.vibeScore.Some? ==> f.vibeScore.value <= 50
    ensures Matches(l, f)
  {
  }
}

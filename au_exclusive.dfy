/**
 * `GET /api/jobs/au-exclusive` (src/pages/api/jobs/au-exclusive.ts): active
 * Australia-only listings, optionally narrowed by city, location type,
 * category and a free-text search. Any failure is answered with one fixed
 * message.
 */
module AuExclusive {
  import opened Types
  import opened ApiErrors
  import opened Classifier
  import opened Query

  /** The query-string filters after parsing; `None` when absent or empty. */
  datatype Filters = Filters(
    city: Option<string>,
    locationType: Option<LocationType>,
    category: Option<JobCategory>,
    search: Option<string>)

  /**
   * The handler's `where`: `isActive`, `isAuOnly` and one condition per given
   * filter. Only active Australia-only rows match, and without filters all of them do.
   */
  predicate Matches(l: JobListing, f: Filters)
    ensures Matches(l, f) ==> l.isActive && l.isAuOnly
    ensures f.locationType.None? && f.category.None? && !Given(f.city) && !Given(f.search) ==>
      (Matches(l, f) <==> l.isActive && l.isAuOnly)
  {
    && l.isActive
    && l.isAuOnly
    && (f.locationType.Some? ==> l.locationType == f.locationType.value)
    && (f.category.Some? ==> l.category == f.category.value)
    && (Given(f.city) ==> InsensitiveContains(l.location, f.city.value))
    && (Given(f.search) ==> SearchMatches(l, f.search.value))
  }

  function Selects(f: Filters): JobListing -> bool
  {
    l => Matches(l, f)
  }

  /** The 500 answer to any failure, whatever was thrown and whatever the environment. */
  const Failed := Response(500, ErrorBody(InternalError, None))

  function Handle(verb: string, f: Filters, page: Option<int>, limit: Option<int>, db: Db): (r: Response)
    requires ValidPaging(page, limit)
    ensures verb != "GET" ==> r == MethodNotAllowed
    ensures verb == "GET" && db.Throws? ==> r.status == 500 && r.body == ErrorBody(InternalError, None)
    ensures verb == "GET" && db.Reachable? ==>
      && r.status == 200 && r.body.Jobs?
      && r.body.page == PageOrDefault(page)
      && r.body.total == Count(db.listings, Selects(f))
      && r.body.pages == PageCount(r.body.total, LimitOrDefault(limit))
      && r.body.jobs == Window(SortByPostedDesc(Where(db.listings, Selects(f))),
                                Skip(PageOrDefault(page), LimitOrDefault(limit)), LimitOrDefault(limit))
      && |r.body.jobs| <= LimitOrDefault(limit)
      && (forall x :: x in r.body.jobs ==> x in db.listings && x.isAuOnly && Matches(x, f))
      && SortedByPostedDesc(r.body.jobs)
  {
    if verb != "GET" then MethodNotAllowed
    else match db
      case Throws(_) => Failed
      case Reachable(ls) =>
        var pageNum := PageOrDefault(page);
        var result := Paginate(ls, Selects(f), pageNum, LimitOrDefault(limit));
        Response(200, Jobs(result.rows, result.total, pageNum, result.pages))
  }

  /** Unlike the other handlers, the failure answer tells nothing about what was thrown. */
  lemma FailureRevealsNothing(f: Filters, page: Option<int>, limit: Option<int>, e1: Thrown, e2: Thrown)
    requires ValidPaging(page, limit)
    ensures Handle("GET", f, page, limit, Throws(e1)) == Handle("GET", f, page, limit, Throws(e2))
    ensures Handle("GET", f, page, limit, Throws(e1)) != FromErrorReply(HandleApiError(e1, true))
  {
  }

  /** The aggregator never creates Australia-only rows, so none of its rows is listed here. */
  lemma AggregatedRowsNeverListed(l: JobListing, f: Filters)
    requires AggregatorCreated(l)
    ensures !Matches(l, f)
  {
  }

  /** Asking for pages 1 .. pages in turn returns every listing that matches the filters. */
  lemma PagesReachEveryMatch(f: Filters, limit: Option<int>, ls: seq<JobListing>, x: JobListing)
    requires LimitOrDefault(limit) >= 1
    requires x in ls && Matches(x, f)
    ensures exists page :: && 1 <= page <= PageCount(Count(ls, Selects(f)), LimitOrDefault(limit))
                           && x in Handle("GET", f, Some(page), limit, Reachable(ls)).body.jobs
  {
    EveryMatchOnSomePage(ls, Selects(f), LimitOrDefault(limit), x);
    var page :| && 1 <= page <= PageCount(Count(ls, Selects(f)), LimitOrDefault(limit))
                && x in Paginate(ls, Selects(f), page, LimitOrDefault(limit)).rows;
    assert x in Handle("GET", f, Some(page), limit, Reachable(ls)).body.jobs;
  }
}

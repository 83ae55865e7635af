/**
 * `GET /api/jobs/au-impact` (src/pages/api/jobs/au-impact.ts): active
 * Impact Hub opportunities, optionally narrowed by type, region and one tag.
 */
module AuImpact {
  import opened Types
  import opened ApiErrors
  import opened Classifier
  import opened Query

  /** The query-string filters after parsing; `None` when absent or empty. */
  datatype Filters = Filters(
    jobType: Option<JobType>,
    region: Option<string>,
    industry: Option<string>,
    aiFocus: Option<string>)

  /**
   * The tag the rows must carry: `where.tags` is assigned for `industry` and
   * then reassigned for `aiFocus`, so `aiFocus` wins when both are given.
   */
  function RequiredTag(f: Filters): (t: Option<string>)
    ensures t.Some? <==> Given(f.industry) || Given(f.aiFocus)
    ensures Given(f.aiFocus) ==> t == f.aiFocus
    ensures !Given(f.aiFocus) && Given(f.industry) ==> t == f.industry
  {
    var t := if Given(f.industry) then f.industry else None;
    if Given(f.aiFocus) then f.aiFocus else t
  }

  /**
   * The handler's `where`; `has` is exact membership of the tag in the row's
   * tags. Only active Impact Hub rows match, and without filters all of them do.
   */
  predicate Matches(l: JobListing, f: Filters)
    ensures Matches(l, f) ==> l.isActive && l.isImpactHub
    ensures f.jobType.None? && !Given(f.region) && !Given(f.industry) && !Given(f.aiFocus) ==>
      (Matches(l, f) <==> l.isActive && l.isImpactHub)
  {
    && l.isActive
    && l.isImpactHub
    && (f.jobType.Some? ==> l.jobType == f.jobType.value)
    && (Given(f.region) ==> InsensitiveContains(l.location, f.region.value))
    && (RequiredTag(f).Some? ==> RequiredTag(f).value in l.tags)
  }

  function Selects(f: Filters): JobListing -> bool
  {
    l => Matches(l, f)
  }

  function Handle(verb: string, f: Filters, page: Option<int>, limit: Option<int>, db: Db, isDevelopment: bool): (r: Response)
    requires ValidPaging(page, limit)
    ensures verb != "GET" ==> r == MethodNotAllowed
    ensures verb == "GET" && db.Throws? ==> r == FromErrorReply(HandleApiError(db.thrown, isDevelopment))
    ensures verb == "GET" && db.Reachable? ==>
      && r.status == 200 && r.body.Opportunities?
      && r.body.page == PageOrDefault(page)
      && r.body.total == Count(db.listings, Selects(f))
      && r.body.pages == PageCount(r.body.total, LimitOrDefault(limit))
      && r.body.opportunities == Window(SortByPostedDesc(Where(db.listings, Selects(f))),
                                Skip(PageOrDefault(page), LimitOrDefault(limit)), LimitOrDefault(limit))
      && |r.body.opportunities| <= LimitOrDefault(limit)
      && (forall x :: x in r.body.opportunities ==> x in db.listings && x.isImpactHub && Matches(x, f))
      && SortedByPostedDesc(r.body.opportunities)
  {
    if verb != "GET" then MethodNotAllowed
    else match db
      case Throws(e) => DatabaseErrorResponse(e, isDevelopment)
      case Reachable(ls) =>
        var pageNum := PageOrDefault(page);
        var result := Paginate(ls, Selects(f), pageNum, LimitOrDefault(limit));
        Response(200, Opportunities(result.rows, result.total, pageNum, result.pages))
  }

  /** With `aiFocus` given, the `industry` parameter has no effect on which rows match. */
  lemma AiFocusOverridesIndustry(l: JobListing, f: Filters, industry: Option<string>)
    requires Given(f.aiFocus)
    ensures Matches(l, f) <==> Matches(l, f.(industry := industry))
  {
  }

  /** The aggregator never creates Impact Hub rows, so none of its rows is listed here. */
  lemma AggregatedRowsNeverListed(l: JobListing, f: Filters)
    requires AggregatorCreated(l)
    ensures !Matches(l, f)
  {
  }

  /** Asking for pages 1 .. pages in turn returns every opportunity that matches the filters. */
  lemma PagesReachEveryMatch(f: Filters, limit: Option<int>, ls: seq<JobListing>, isDevelopment: bool, x: JobListing)
    requires LimitOrDefault(limit) >= 1
    requires x in ls && Matches(x, f)
    ensures exists page :: && 1 <= page <= PageCount(Count(ls, Selects(f)), LimitOrDefault(limit))
                           && x in Handle("GET", f, Some(page), limit, Reachable(ls), isDevelopment).body.opportunities
  {
    EveryMatchOnSomePage(ls, Selects(f), LimitOrDefault(limit), x);
    var page :| && 1 <= page <= PageCount(Count(ls, Selects(f)), LimitOrDefault(limit))
                && x in Paginate(ls, Selects(f), page, LimitOrDefault(limit)).rows;
    assert x in Handle("GET", f, Some(page), limit, Reachable(ls), isDevelopment).body.opportunities;
  }
}

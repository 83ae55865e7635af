/**
 * The three provider fetchers of src/lib/jobAggregator.ts after the HTTP
 * round trip: each maps the provider's JSON records into `RawJob`s. The
 * response arrives as a parameter; a failed request, an unreadable body or
 * a body of the wrong shape is `Failed`, which the fetcher's `catch` turns
 * into an empty list.
 */
module Fetchers {
  import opened Text
  import opened Types
  import opened Classifier

  /** `.slice(0, 20)`: at most this many jobs per provider. */
  const MaxPerSource: nat := 20
  const DefaultLocation := "Remote (Global)"
  const FullTimeHint := "FULL_TIME"
  const RemoteOkJobPrefix := "https://remoteok.com/remote-jobs/"

  /** A provider's parsed response body, or the failure its `catch` absorbs. */
  datatype Fetched<T> = Body(items: seq<T>) | Failed

  /** `s || fallback` on an optional string. */
  function OrElse(s: Option<string>, fallback: string): string
  {
    if Given(s) then s.value else fallback
  }

  /** A JavaScript number used as a condition: defined and not zero. */
  predicate NumberGiven(n: Option<int>) { n.Some? && n.value != 0 }

  /**
   * A date string passed to `new Date(...)`: absent or empty (falsy), one
   * that parses to a time, or one that does not (an Invalid Date).
   */
  datatype DateText = Absent | Valid(ms: int) | Unparsable

  /** `s ? new Date(s) : new Date()`; `None` is an Invalid Date. */
  function DateOrNow(d: DateText, now: int): (t: Option<int>)
    ensures d.Absent? ==> t == Some(now)
    ensures d.Valid? ==> t == Some(d.ms)
    ensures d.Unparsable? ==> t.None?
  {
    match d
    case Absent => Some(now)
    case Valid(ms) => Some(ms)
    case Unparsable => None
  }

  // ---------------------------------------------------------------------
  // RemoteOK
  // ---------------------------------------------------------------------

  /** One element of the RemoteOK array; `date` is in seconds. */
  datatype RemoteOkItem = RemoteOkItem(
    position: Option<string>,
    company: Option<string>,
    description: Option<string>,
    location: Option<string>,
    slug: Option<string>,
    tags: Option<seq<string>>,
    date: Option<int>,
    salaryMin: Option<int>,
    salaryMax: Option<int>)

  /** `.filter(job => job.position && job.company)`. */
  predicate RemoteOkKept(item: RemoteOkItem) { Given(item.position) && Given(item.company) }

  /** `` `$${salary_min}-$${salary_max}` `` when both are non-zero numbers. */
  function RemoteOkSalary(min: Option<int>, max: Option<int>): (s: Option<string>)
    ensures s.Some? <==> NumberGiven(min) && NumberGiven(max)
    ensures s.Some? ==> "$" <= s.value && Contains(s.value, "-$")
  {
    if NumberGiven(min) && NumberGiven(max) then
      var m := "$" + IntToString(min.value);
      var text := m + "-$" + IntToString(max.value);
      assert text[|m|..|m| + 2] == "-$";
      ContainsAt(text, "-$", |m|);
      Some(text)
    else None
  }

  /** The `.map(...)` of one kept RemoteOK record. An undefined slug prints as "undefined". */
  function FromRemoteOk(item: RemoteOkItem, now: int): (job: RawJob)
    requires RemoteOkKept(item)
    ensures job.title == item.position.value && job.company == item.company.value
    ensures job.url == RemoteOkJobPrefix + (if item.slug.Some? then item.slug.value else "undefined")
    ensures RemoteOkJobPrefix <= job.url
    ensures job.jobType == Some(FullTimeHint)
    ensures Given(item.description) ==> job.description == item.description.value
    ensures !Given(item.description) ==> job.description == job.title + " at " + job.company
    ensures Given(item.location) ==> job.location == item.location.value
    ensures !Given(item.location) ==> job.location == DefaultLocation
    ensures item.tags.Some? ==> job.tags == item.tags.value
    ensures item.tags.None? ==> job.tags == []
    ensures NumberGiven(item.date) ==> job.postedAt == Some(item.date.value * 1000)
    ensures !NumberGiven(item.date) ==> job.postedAt == Some(now)
    ensures job.salary == RemoteOkSalary(item.salaryMin, item.salaryMax)
  {
    var slug := if item.slug.Some? then item.slug.value else "undefined";
    RawJob(
      item.position.value,
      item.company.value,
      OrElse(item.description, item.position.value + " at " + item.company.value),
      OrElse(item.location, DefaultLocation),
      RemoteOkJobPrefix + slug,
      if item.tags.Some? then item.tags.value else [],
      if NumberGiven(item.date) then Some(item.date.value * 1000) else Some(now),
      Some(FullTimeHint),
      RemoteOkSalary(item.salaryMin, item.salaryMax))
  }

  /** The kept records, mapped, in response order: every job is named, full time and under the RemoteOK prefix. */
  function RemoteOkMapped(items: seq<RemoteOkItem>, now: int): (jobs: seq<RawJob>)
    ensures |jobs| <= |items|
    ensures forall j :: j in jobs ==>
      && j.title != "" && j.company != ""
      && j.jobType == Some(FullTimeHint)
      && RemoteOkJobPrefix <= j.url
  {
    if items == [] then []
    else
      var rest := RemoteOkMapped(items[1..], now);
      if RemoteOkKept(items[0]) then [FromRemoteOk(items[0], now)] + rest else rest
  }

  /** Every output job maps a kept record, and every kept record's job is in the output. */
  lemma {:induction false} RemoteOkMappedMembers(items: seq<RemoteOkItem>, now: int)
    ensures forall j :: j in RemoteOkMapped(items, now) ==>
      exists it :: it in items && RemoteOkKept(it) && j == FromRemoteOk(it, now)
    ensures forall it :: it in items && RemoteOkKept(it) ==> FromRemoteOk(it, now) in RemoteOkMapped(items, now)
    decreases |items|
  {
    if items != [] {
      RemoteOkMappedMembers(items[1..], now);
      assert forall it :: it in items <==> it == items[0] || it in items[1..];
    }
  }

  /** A single record is kept and mapped, or dropped. */
  lemma RemoteOkMappedOne(item: RemoteOkItem, now: int)
    ensures RemoteOkMapped([item], now) == if RemoteOkKept(item) then [FromRemoteOk(item, now)] else []
  {
    assert [item][1..] == [];
  }

  /**
   * Filter-then-map works record by record: the output for a concatenation
   * is the output for each part, in order, so order and repetitions of the
   * response are kept.
   */
  lemma {:induction false} RemoteOkMappedConcat(a: seq<RemoteOkItem>, b: seq<RemoteOkItem>, now: int)
    ensures RemoteOkMapped(a + b, now) == RemoteOkMapped(a, now) + RemoteOkMapped(b, now)
    decreases |a|
  {
    if a != [] {
      assert (a + b)[0] == a[0];
      assert (a + b)[1..] == a[1..] + b;
      RemoteOkMappedConcat(a[1..], b, now);
    } else {
      assert a + b == b;
    }
  }

  /** `fetchFromRemoteOK`: drop the leading metadata element, keep, map, take 20. */
  function RemoteOkJobs(response: Fetched<RemoteOkItem>, now: int): (jobs: seq<RawJob>)
    ensures |jobs| <= MaxPerSource
    ensures response.Failed? || |response.items| <= 1 ==> jobs == []
    ensures forall j :: j in jobs ==>
      && j.title != "" && j.company != ""
      && j.jobType == Some(FullTimeHint)
      && RemoteOkJobPrefix <= j.url
    ensures response.Body? && |response.items| >= 1 ==>
      && jobs <= RemoteOkMapped(response.items[1..], now)
      && jobs == Take(RemoteOkMapped(response.items[1..], now), MaxPerSource)
  {
    match response
    case Failed => []
    case Body(data) =>
      if |data| <= 1 then []
      else
        var mapped := RemoteOkMapped(data[1..], now);
        var jobs := Take(mapped, MaxPerSource);
        assert forall j :: j in jobs ==> j in mapped;
        jobs
  }

  // ---------------------------------------------------------------------
  // Remotive
  // ---------------------------------------------------------------------

  /** One element of Remotive's `jobs` array. */
  datatype RemotiveItem = RemotiveItem(
    title: Option<string>,
    companyName: Option<string>,
    description: Option<string>,
    candidateRequiredLocation: Option<string>,
    url: string,
    tags: Option<seq<string>>,
    category: string,
    publicationDate: DateText,
    jobType: Option<string>,
    salary: Option<string>)

  /** `.filter(job => job.title && job.company_name)`. */
  predicate RemotiveKept(item: RemotiveItem) { Given(item.title) && Given(item.companyName) }

  /** The `.map(...)` of one kept Remotive record. */
  function FromRemotive(item: RemotiveItem, now: int): (job: RawJob)
    requires RemotiveKept(item)
    ensures job.title == item.title.value && job.company == item.companyName.value
    ensures job.url == item.url && job.salary == item.salary
    ensures Given(item.description) ==> job.description == item.description.value
    ensures !Given(item.description) ==> job.description == job.title
    ensures Given(item.candidateRequiredLocation) ==> job.location == item.candidateRequiredLocation.value
    ensures !Given(item.candidateRequiredLocation) ==> job.location == DefaultLocation
    ensures item.tags.Some? ==> job.tags == item.tags.value
    ensures item.tags.None? ==> job.tags == [item.category]
    ensures Given(item.jobType) ==> job.jobType == item.jobType
    ensures !Given(item.jobType) ==> job.jobType == Some(FullTimeHint)
    ensures job.postedAt == DateOrNow(item.publicationDate, now)
  {
    RawJob(
      item.title.value,
      item.companyName.value,
      OrElse(item.description, item.title.value),
      OrElse(item.candidateRequiredLocation, DefaultLocation),
      item.url,
      if item.tags.Some? then item.tags.value else [item.category],
      DateOrNow(item.publicationDate, now),
      Some(OrElse(item.jobType, FullTimeHint)),
      item.salary)
  }

  /** The kept records, mapped, in response order: every job is named and has a job-type hint. */
  function RemotiveMapped(items: seq<RemotiveItem>, now: int): (jobs: seq<RawJob>)
    ensures |jobs| <= |items|
    ensures forall j :: j in jobs ==> j.title != "" && j.company != "" && j.jobType.Some?
  {
    if items == [] then []
    else
      var rest := RemotiveMapped(items[1..], now);
      if RemotiveKept(items[0]) then [FromRemotive(items[0], now)] + rest else rest
  }

  /** Every output job maps a kept record, and every kept record's job is in the output. */
  lemma {:induction false} RemotiveMappedMembers(items: seq<RemotiveItem>, now: int)
    ensures forall j :: j in RemotiveMapped(items, now) ==>
      exists it :: it in items && RemotiveKept(it) && j == FromRemotive(it, now)
    ensures forall it :: it in items && RemotiveKept(it) ==> FromRemotive(it, now) in RemotiveMapped(items, now)
    decreases |items|
  {
    if items != [] {
      RemotiveMappedMembers(items[1..], now);
      assert forall it :: it in items <==> it == items[0] || it in items[1..];
    }
  }

  /** A single record is kept and mapped, or dropped. */
  lemma RemotiveMappedOne(item: RemotiveItem, now: int)
    ensures RemotiveMapped([item], now) == if RemotiveKept(item) then [FromRemotive(item, now)] else []
  {
    assert [item][1..] == [];
  }

  /** The output for a concatenation is the output for each part, in order. */
  lemma {:induction false} RemotiveMappedConcat(a: seq<RemotiveItem>, b: seq<RemotiveItem>, now: int)
    ensures RemotiveMapped(a + b, now) == RemotiveMapped(a, now) + RemotiveMapped(b, now)
    decreases |a|
  {
    if a != [] {
      assert (a + b)[0] == a[0];
      assert (a + b)[1..] == a[1..] + b;
      RemotiveMappedConcat(a[1..], b, now);
    } else {
      assert a + b == b;
    }
  }

  /** `fetchFromRemotive`: keep, map, take 20. */
  function RemotiveJobs(response: Fetched<RemotiveItem>, now: int): (jobs: seq<RawJob>)
    ensures |jobs| <= MaxPerSource
    ensures response.Failed? ==> jobs == []
    ensures forall j :: j in jobs ==> j.title != "" && j.company != "" && j.jobType.Some?
    ensures response.Body? ==>
      && jobs <= RemotiveMapped(response.items, now)
      && jobs == Take(RemotiveMapped(response.items, now), MaxPerSource)
  {
    match response
    case Failed => []
    case Body(data) =>
      var mapped := RemotiveMapped(data, now);
      var jobs := Take(mapped, MaxPerSource);
      assert forall j :: j in jobs ==> j in mapped;
      jobs
  }

  // ---------------------------------------------------------------------
  // Adzuna
  // ---------------------------------------------------------------------

  /**
   * One element of Adzuna's `results` array. `company` and `location` are
   * the `display_name` of the nested object, `None` when the object is missing.
   */
  datatype AdzunaItem = AdzunaItem(
    title: string,
    company: Option<string>,
    description: string,
    location: Option<string>,
    redirectUrl: string,
    created: DateText,
    contractType: Option<string>)

  /** The record can be mapped: reading `company.display_name` and `location.display_name` does not throw. */
  predicate AdzunaMappable(item: AdzunaItem) { item.company.Some? && item.location.Some? }

  const AdzunaTags: seq<string> := ["AI", "ML"]

  /** The `.map(...)` of one Adzuna record: fixed tags, no salary. */
  function FromAdzuna(item: AdzunaItem, now: int): (job: RawJob)
    requires AdzunaMappable(item)
    ensures job.tags == AdzunaTags && job.salary.None?
    ensures job.title == item.title && job.url == item.redirectUrl
    ensures job.company == item.company.value && job.description == item.description
    ensures job.location == item.location.value
    ensures job.postedAt == DateOrNow(item.created, now)
    ensures job.jobType == Some(OrElse(item.contractType, FullTimeHint))
  {
    RawJob(
      item.title,
      item.company.value,
      item.description,
      item.location.value,
      item.redirectUrl,
      AdzunaTags,
      DateOrNow(item.created, now),
      Some(OrElse(item.contractType, FullTimeHint)),
      None)
  }

  /** Every record mapped, in response order. */
  function AdzunaMapped(items: seq<AdzunaItem>, now: int): (jobs: seq<RawJob>)
    requires forall it :: it in items ==> AdzunaMappable(it)
    ensures |jobs| == |items|
    ensures forall i :: 0 <= i < |items| ==> jobs[i] == FromAdzuna(items[i], now)
  {
    if items == [] then []
    else [FromAdzuna(items[0], now)] + AdzunaMapped(items[1..], now)
  }

  /**
   * `fetchAIMLJobs`: nothing without both credentials; otherwise every record
   * is mapped before the first 20 are taken, so one record without a
   * company or location object empties the whole result.
   */
  function AdzunaJobs(credentialsSet: bool, response: Fetched<AdzunaItem>, now: int): (jobs: seq<RawJob>)
    ensures |jobs| <= MaxPerSource
    ensures !credentialsSet || response.Failed? ==> jobs == []
    ensures response.Body? && (exists it :: it in response.items && !AdzunaMappable(it)) ==> jobs == []
    ensures forall j :: j in jobs ==> j.tags == AdzunaTags && j.salary.None?
    ensures credentialsSet && response.Body? && (forall it :: it in response.items ==> AdzunaMappable(it)) ==>
      jobs == Take(AdzunaMapped(response.items, now), MaxPerSource)
  {
    if !credentialsSet then []
    else match response
      case Failed => []
      case Body(data) =>
        if exists it :: it in data && !AdzunaMappable(it) then []
        else
          var mapped := AdzunaMapped(data, now);
          var jobs := Take(mapped, MaxPerSource);
          assert forall j :: j in jobs ==> j in mapped;
          jobs
  }

  /** Adzuna's fixed tags put "ml" in the category text, so every Adzuna job is AI/ML engineering and earns the AI bonus. */
  lemma AdzunaJobsAreAiMl(credentialsSet: bool, response: Fetched<AdzunaItem>, now: int)
    ensures forall j :: j in AdzunaJobs(credentialsSet, response, now) ==>
      Categorize(j) == AiMlEngineering && AiBonus(j)
  {
    forall j | j in AdzunaJobs(credentialsSet, response, now)
      ensures Categorize(j) == AiMlEngineering && AiBonus(j)
    {
      FixedTagsMentionMl(j);
    }
  }

  /** A job tagged "AI", "ML" has "ml" in its category text. */
  lemma FixedTagsMentionMl(j: RawJob)
    requires j.tags == AdzunaTags
    ensures Categorize(j) == AiMlEngineering && AiBonus(j)
  {
    var lowered := LowerAll(j.tags);
    var ml := lowered[1];
    assert ml == Lower("ML");
    assert ml[0] == LowerChar('M') == 'm' && ml[1] == LowerChar('L') == 'l';
    assert ml == "ml";
    var joined := Join(lowered, " ");
    assert joined == lowered[0] + " " + ml by {
      assert Join(lowered[1..], " ") == ml;
    }
    ContainsAt(ml, "ml", 0);
    ContainsInConcat(lowered[0] + " ", ml, "ml");
    ContainsInConcat(Lower(j.title) + " ", joined, "ml");
    MentionsAnyOf3(CategoryText(j), "ml", "machine learning", "ai engineer");
    FirstRuleWins(j);
    FirstRuleEarnsAiBonus(j);
  }
}

/**
 * The listing record and its three enumerations (src/types/index.ts), and
 * the raw record every provider is mapped into (`RawJob` in
 * src/lib/jobAggregator.ts). Times are integer milliseconds since the epoch.
 */
module Types {

  datatype Option<T> = None | Some(value: T)

  /** A string value that is present and truthy in JavaScript: defined and not empty. */
  predicate Given(s: Option<string>) { s.Some? && s.value != "" }

  datatype LocationType = RemoteGlobal | Hybrid | Onsite

  datatype JobType = FullTime | PartTime | Contract | Freelance | Tender | Grant

  datatype JobCategory =
    | AiMlEngineering
    | VibeCoding
    | AiCorporateTraining
    | AiGovernance
    | AiImplementation
    | Other

  /**
   * A persisted listing. The store-generated `id`, `createdAt` and
   * `updatedAt` columns are not modelled; `vibeScore` is `None` for a null
   * score.
   */
  datatype JobListing = JobListing(
    title: string,
    company: string,
    description: string,
    location: string,
    locationType: LocationType,
    jobType: JobType,
    category: JobCategory,
    vibeScore: Option<int>,
    source: string,
    sourceUrl: string,
    tags: seq<string>,
    isActive: bool,
    isAuOnly: bool,
    isImpactHub: bool,
    postedAt: int)

  /**
   * A provider record after field mapping. `postedAt` is `None` for a
   * JavaScript `Date` whose time is NaN (an unparsable date); `jobType` and
   * `salary` are `None` when the property is undefined.
   */
  datatype RawJob = RawJob(
    title: string,
    company: string,
    description: string,
    location: string,
    url: string,
    tags: seq<string>,
    postedAt: Option<int>,
    jobType: Option<string>,
    salary: Option<string>)
}

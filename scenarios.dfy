/**
 * The messages of the handler test cases of
 * src/__tests__/api/jobs-global.test.ts, run through `handleApiError`.
 */
module MessageScenarios {
  import opened Text
  import opened Types
  import opened ApiErrors

  /** "Environment variable not found: DATABASE_URL" is a configuration error. */
  lemma MissingDatabaseUrlMessage(isDevelopment: bool)
    ensures HandleApiError(ErrorInstance("Environment variable not found: DATABASE_URL"), isDevelopment).error
            == ConfigurationError
  {
    var m := "Environment variable not found: DATABASE_URL";
    assert m[32..44] == "DATABASE_URL";
    ContainsAt(m, "DATABASE_URL", 32);
    assert MentionsDatabaseUrl(MessageOf(ErrorInstance(m)));
  }

  /** "PrismaClient initialization failed" is a client error. */
  lemma PrismaClientMessage(isDevelopment: bool)
    ensures HandleApiError(ErrorInstance("PrismaClient initialization failed"), isDevelopment).error == ClientError
  {
    var m := "PrismaClient initialization failed";
    assert m[0..12] == "PrismaClient";
    ContainsAt(m, "PrismaClient", 0);
    AbsentCharRulesOut(m, "DATABASE_URL", 'D');
    assert !MentionsDatabaseUrl(m) && MentionsPrismaClient(m);
  }

  /** "ECONNREFUSED" is a connection error. */
  lemma RefusedConnectionMessage(isDevelopment: bool)
    ensures HandleApiError(ErrorInstance("ECONNREFUSED"), isDevelopment).error == ConnectionError
  {
    var m := "ECONNREFUSED";
    assert m[0..12] == "ECONNREFUSED";
    ContainsAt(m, "ECONNREFUSED", 0);
    AbsentCharRulesOut(m, "DATABASE_URL", '_');
    AbsentCharRulesOut(m, "PrismaClient", 'P');
    assert !MentionsDatabaseUrl(m) && !MentionsPrismaClient(m) && MentionsConnection(m);
  }

  /** A message without the letters 'D', 'P', 'c' and 'E' mentions none of the keys. */
  lemma NoKeyLetters(m: string)
    requires 'D' !in m && 'P' !in m && 'c' !in m && 'E' !in m
    ensures !MentionsDatabaseUrl(m) && !MentionsPrismaClient(m) && !MentionsConnection(m)
  {
    AbsentCharRulesOut(m, "DATABASE_URL", 'D');
    AbsentCharRulesOut(m, "PrismaClient", 'P');
    AbsentCharRulesOut(m, "connect", 'c');
    AbsentCharRulesOut(m, "ECONNREFUSED", 'E');
  }

  /** A message with none of the keys, such as "Unknown database error", is an internal error. */
  lemma UnknownDatabaseErrorMessage(isDevelopment: bool)
    ensures HandleApiError(ErrorInstance("Unknown database error"), isDevelopment).error == InternalError
  {
    NoKeyLetters("Unknown database error");
  }

  /** A thrown value that is not an `Error` is an internal error whose development details read "Unknown error". */
  lemma NonErrorIsInternal(isDevelopment: bool)
    ensures HandleApiError(NonError, isDevelopment).error == InternalError
    ensures isDevelopment ==> HandleApiError(NonError, isDevelopment).details == Some("Unknown error")
  {
    NoKeyLetters(MessageOf(NonError));
  }
}

/** Keyword tests on the literal strings of the worked examples below. */
module WordScenarios {
  import opened Text

  /** "FULL_TIME" lower-cased mentions none of "part", "contract" and "freelance". */
  lemma FullTimeHasNoTypeKeyword(hint: string)
    requires hint == "FULL_TIME"
    ensures !Contains(Lower(hint), "part")
    ensures !Contains(Lower(hint), "contract") && !Contains(Lower(hint), "freelance")
  {
    LowerAvoids(hint, 'p', 'P');
    AbsentCharRulesOut(Lower(hint), "part", 'p');
    LowerAvoids(hint, 'c', 'C');
    AbsentCharRulesOut(Lower(hint), "contract", 'c');
    LowerAvoids(hint, 'a', 'A');
    AbsentCharRulesOut(Lower(hint), "freelance", 'a');
  }

  /** The lower-cased title "Senior AI/ML Engineer" contains "ml". */
  lemma SeniorTitleMentionsMl(title: string)
    requires title == "Senior AI/ML Engineer"
    ensures Contains(Lower(title), "ml")
  {
    var lower := Lower(title);
    assert lower[10] == LowerChar(title[10]) == 'm';
    assert lower[11] == LowerChar(title[11]) == 'l';
    assert lower[10..12] == "ml";
    ContainsAt(lower, "ml", 10);
  }

  /** The lower-cased location "Remote (Global)" contains "remote". */
  lemma RemoteGlobalMentionsRemote(location: string)
    requires location == "Remote (Global)"
    ensures Contains(Lower(location), "remote")
  {
  }
}

/**
 * Concrete cases: the handler test cases of
 * src/__tests__/api/jobs-global.test.ts and worked examples of the
 * aggregator's classification, scoring and deactivation.
 */
module Scenarios {
  import opened Text
  import opened Types
  import opened Classifier
  import opened Fetchers
  import opened Aggregator
  import opened Query
  import opened GlobalJobs
  import opened WordScenarios

  const NoFilters := Filters(None, None, None)

  /** A request with any method other than GET is answered 405. */
  lemma PostIsRejected(db: Db, isDevelopment: bool)
    ensures Handle("POST", NoFilters, None, None, db, isDevelopment).status == 405
  {
  }

  /** With no filters, one active remote listing: total 1, page 1 of 1, and the listing itself. */
  lemma OneListingNoFilters(postedAt: int)
    ensures var job := JobListing("Test Job", "Test Company", "Test Description", "Remote (Global)",
                                  RemoteGlobal, FullTime, AiMlEngineering, Some(85), "Test",
                                  "https://test.com", [], true, false, false, postedAt);
      Handle("GET", NoFilters, None, None, Reachable([job]), false) == Response(200, Jobs([job], 1, 1, 1))
  {
    var job := JobListing("Test Job", "Test Company", "Test Description", "Remote (Global)",
                          RemoteGlobal, FullTime, AiMlEngineering, Some(85), "Test",
                          "https://test.com", [], true, false, false, postedAt);
    var p := Selects(NoFilters);
    assert p(job);
    assert Where([job], p) == [job] by {
      assert [job][1..] == [];
    }
    assert SortByPostedDesc([job]) == [job] by {
      assert [job][1..] == [];
    }
    assert Window([job], 0, 20) == [job];
  }

  /**
   * `?page=2&limit=10` over 25 matching rows skips 10 and takes 10: the
   * answer holds the 11th to 20th newest matching rows, page 2 of 3.
   */
  lemma SecondPageOfTen(ls: seq<JobListing>, f: Filters, isDevelopment: bool)
    requires Count(ls, Selects(f)) == 25
    ensures var r := Handle("GET", f, Some(2), Some(10), Reachable(ls), isDevelopment);
      && r.status == 200 && r.body.total == 25 && r.body.page == 2 && r.body.pages == 3
      && r.body.jobs == Window(SortByPostedDesc(Where(ls, Selects(f))), 10, 10)
      && |r.body.jobs| == 10
      && forall i :: 0 <= i < 10 ==> r.body.jobs[i] == SortByPostedDesc(Where(ls, Selects(f)))[10 + i]
  {
  }

  /** RemoteOK's fixed "FULL_TIME" hint is stored as full time. */
  lemma FullTimeHintIsFullTime()
    ensures ParseJobType(Some(FullTimeHint)) == FullTime
  {
    FullTimeHasNoTypeKeyword(FullTimeHint);
  }

  /**
   * A remote, AI-titled, salaried job posted at the moment of the run scores
   * 50 + 20 + 15 + 10 + 5 = 100, is AI/ML engineering and is remote-global.
   */
  lemma SeniorAiMlEngineer(job: RawJob, now: int)
    requires job.title == "Senior AI/ML Engineer" && job.location == DefaultLocation
    requires job.postedAt == Some(now) && job.salary == Some("$100k")
    ensures VibeScore(job, now) == 100
    ensures Categorize(job) == AiMlEngineering
    ensures LocationTypeOf(job.location) == RemoteGlobal
  {
    SeniorTitleMentionsMl(job.title);
    var rest := " " + Join(LowerAll(job.tags), " ");
    ContainsInConcat(Lower(job.title), rest, "ml");
    assert CategoryText(job) == Lower(job.title) + rest;
    MentionsAnyOf3(CategoryText(job), "ml", "machine learning", "ai engineer");
    FirstRuleWins(job);
    FirstRuleEarnsAiBonus(job);
    RemoteGlobalMentionsRemote(job.location);
    assert RemoteBonus(job) && SalaryBonus(job) && RecencyBonus(job, now);
  }

  /** A job without a usable date is stored with the time of the run. */
  lemma UndatedJobGetsRunTime(job: RawJob, now: int)
    requires job.postedAt.None?
    ensures NewListing(job, now).postedAt == now
  {
  }

  /** An active listing posted 61 days before the run is deactivated and counted. */
  lemma SixtyOneDaysOldIsDeactivated(l: JobListing, now: int)
    requires l.isActive && l.postedAt == now - 61 * MsPerDay
    ensures Deactivated([l], now - StaleAfter) == [l.(isActive := false)]
    ensures StaleCount([l], now - StaleAfter) == 1
  {
  }
}

/**
 * The pure part of the aggregation pipeline (src/lib/jobAggregator.ts):
 * the category rule chain, the job-type hint parser, the vibe score, the
 * location-type rule and the record written for a new listing.
 */
module Classifier {
  import opened Text
  import opened Types

  const MsPerDay: int := 1000 * 60 * 60 * 24

  /** Field limits applied by `slice` when a listing is created. */
  const MaxTitle: nat := 200
  const MaxCompany: nat := 200
  const MaxDescription: nat := 5000
  const MaxTags: nat := 10

  // ---------------------------------------------------------------------
  // Category
  // ---------------------------------------------------------------------

  /** The text the category rules search: lower-cased title, a space, lower-cased tags joined by spaces. */
  function CategoryText(job: RawJob): string {
    Lower(job.title) + " " + Join(LowerAll(job.tags), " ")
  }

  /** True when some keyword of `keys` occurs in `text`. */
  predicate MentionsAny(text: string, keys: seq<string>)
  {
    exists k :: 0 <= k < |keys| && Contains(text, keys[k])
  }

  /** `categorizeJob`: the ordered if-chain, first match wins; a category other than OTHER needs some keyword. */
  function Categorize(job: RawJob): (c: JobCategory)
    ensures c != Other ==> MentionsAny(CategoryText(job), AllKeywords)
  {
    var combined := CategoryText(job);
    KeywordsAreAllKeywords(combined);
    if Contains(combined, "ml") || Contains(combined, "machine learning") || Contains(combined, "ai engineer") then
      AiMlEngineering
    else if Contains(combined, "prompt") || Contains(combined, "llm") then
      VibeCoding
    else if Contains(combined, "training") || Contains(combined, "education") then
      AiCorporateTraining
    else if Contains(combined, "data scientist") || Contains(combined, "analyst") then
      AiMlEngineering
    else if Contains(combined, "research") then
      AiGovernance
    else if Contains(combined, "product") || Contains(combined, "manager") then
      AiImplementation
    else
      Other
  }

  /** One rule of the chain: a keyword group and the category it selects. */
  datatype Rule = Rule(keywords: seq<string>, category: JobCategory)

  /** The chain written as an ordered table, in the order the source tests it. */
  const CategoryRules: seq<Rule> := [
    Rule(["ml", "machine learning", "ai engineer"], AiMlEngineering),
    Rule(["prompt", "llm"], VibeCoding),
    Rule(["training", "education"], AiCorporateTraining),
    Rule(["data scientist", "analyst"], AiMlEngineering),
    Rule(["research"], AiGovernance),
    Rule(["product", "manager"], AiImplementation)
  ]

  /** All twelve keywords of the chain. */
  const AllKeywords: seq<string> := [
    "ml", "machine learning", "ai engineer", "prompt", "llm", "training",
    "education", "data scientist", "analyst", "research", "product", "manager"
  ]

  /** Each keyword the chain tests is one of the twelve. */
  lemma KeywordsAreAllKeywords(text: string)
    ensures (|| Contains(text, "ml") || Contains(text, "machine learning") || Contains(text, "ai engineer")
             || Contains(text, "prompt") || Contains(text, "llm") || Contains(text, "training")
             || Contains(text, "education") || Contains(text, "data scientist") || Contains(text, "analyst")
             || Contains(text, "research") || Contains(text, "product") || Contains(text, "manager"))
            ==> MentionsAny(text, AllKeywords)
  {
    var k := AllKeywords;
    assert k[0] == "ml" && k[1] == "machine learning" && k[2] == "ai engineer" && k[3] == "prompt";
    assert k[4] == "llm" && k[5] == "training" && k[6] == "education" && k[7] == "data scientist";
    assert k[8] == "analyst" && k[9] == "research" && k[10] == "product" && k[11] == "manager";
  }

  /** First-match-wins evaluation of a rule table; `Other` when no rule matches. */
  function FirstMatch(rules: seq<Rule>, text: string): JobCategory
  {
    if rules == [] then Other
    else if MentionsAny(text, rules[0].keywords) then rules[0].category
    else FirstMatch(rules[1..], text)
  }

  lemma MentionsAnyOf1(text: string, a: string)
    ensures MentionsAny(text, [a]) == Contains(text, a)
  {
    if Contains(text, a) { assert [a][0] == a; }
  }

  lemma MentionsAnyOf2(text: string, a: string, b: string)
    ensures MentionsAny(text, [a, b]) == (Contains(text, a) || Contains(text, b))
  {
    if Contains(text, a) { assert [a, b][0] == a; }
    if Contains(text, b) { assert [a, b][1] == b; }
  }

  lemma MentionsAnyOf3(text: string, a: string, b: string, c: string)
    ensures MentionsAny(text, [a, b, c]) == (Contains(text, a) || Contains(text, b) || Contains(text, c))
  {
    if Contains(text, a) { assert [a, b, c][0] == a; }
    if Contains(text, b) { assert [a, b, c][1] == b; }
    if Contains(text, c) { assert [a, b, c][2] == c; }
  }

  /** One step of first-match evaluation. */
  lemma FirstMatchCons(rule: Rule, rest: seq<Rule>, text: string)
    ensures FirstMatch([rule] + rest, text) ==
      if MentionsAny(text, rule.keywords) then rule.category else FirstMatch(rest, text)
  {
  }

  /** The if-chain agrees with first-match evaluation of the rule table. */
  lemma CategorizeIsFirstMatch(job: RawJob)
    ensures Categorize(job) == FirstMatch(CategoryRules, CategoryText(job))
  {
    var t := CategoryText(job);
    var r6: seq<Rule> := [];
    var r5 := [Rule(["product", "manager"], AiImplementation)] + r6;
    var r4 := [Rule(["research"], AiGovernance)] + r5;
    var r3 := [Rule(["data scientist", "analyst"], AiMlEngineering)] + r4;
    var r2 := [Rule(["training", "education"], AiCorporateTraining)] + r3;
    var r1 := [Rule(["prompt", "llm"], VibeCoding)] + r2;
    var r0 := [Rule(["ml", "machine learning", "ai engineer"], AiMlEngineering)] + r1;
    assert r0 == CategoryRules;
    FirstMatchCons(r5[0], r6, t);
    MentionsAnyOf2(t, "product", "manager");
    FirstMatchCons(r4[0], r5, t);
    MentionsAnyOf1(t, "research");
    FirstMatchCons(r3[0], r4, t);
    MentionsAnyOf2(t, "data scientist", "analyst");
    FirstMatchCons(r2[0], r3, t);
    MentionsAnyOf2(t, "training", "education");
    FirstMatchCons(r1[0], r2, t);
    MentionsAnyOf2(t, "prompt", "llm");
    FirstMatchCons(r0[0], r1, t);
    MentionsAnyOf3(t, "ml", "machine learning", "ai engineer");
  }

  /** `Other` exactly when none of the twelve keywords occurs. */
  lemma CategorizeOtherIff(job: RawJob)
    ensures Categorize(job) == Other <==> !MentionsAny(CategoryText(job), AllKeywords)
  {
    var t := CategoryText(job);
    if MentionsAny(t, AllKeywords) {
      var k :| 0 <= k < |AllKeywords| && Contains(t, AllKeywords[k]);
      assert Categorize(job) != Other;
    } else {
      forall k | 0 <= k < |AllKeywords| ensures !Contains(t, AllKeywords[k]) { }
      assert !Contains(t, AllKeywords[0]) && !Contains(t, AllKeywords[1]) && !Contains(t, AllKeywords[2]);
      assert !Contains(t, AllKeywords[3]) && !Contains(t, AllKeywords[4]) && !Contains(t, AllKeywords[5]);
      assert !Contains(t, AllKeywords[6]) && !Contains(t, AllKeywords[7]) && !Contains(t, AllKeywords[8]);
      assert !Contains(t, AllKeywords[9]) && !Contains(t, AllKeywords[10]) && !Contains(t, AllKeywords[11]);
    }
  }

  /** The first rule wins over every later one, e.g. "ml" together with "prompt" or "llm". */
  lemma FirstRuleWins(job: RawJob)
    requires MentionsAny(CategoryText(job), ["ml", "machine learning", "ai engineer"])
    ensures Categorize(job) == AiMlEngineering
  {
  }

  /** Matching is by substring: any title containing "html" is AI/ML engineering. */
  lemma HtmlIsAiMl(job: RawJob)
    requires Contains(Lower(job.title), "html")
    ensures Categorize(job) == AiMlEngineering
  {
    assert "html"[2..4] == "ml";
    ContainsAt("html", "ml", 2);
    ContainsTransitive(Lower(job.title), "html", "ml");
    ContainsInConcat(Lower(job.title), " " + Join(LowerAll(job.tags), " "), "ml");
    assert CategoryText(job) == Lower(job.title) + (" " + Join(LowerAll(job.tags), " "));
  }

  // ---------------------------------------------------------------------
  // Job type
  // ---------------------------------------------------------------------

  /** `parseJobType`: an undefined or empty hint is full time; "part" is checked before "contract"/"freelance". */
  function ParseJobType(hint: Option<string>): (t: JobType)
    ensures t == FullTime || t == PartTime || t == Contract
    ensures hint == None || hint == Some("") ==> t == FullTime
    ensures t == PartTime <==> hint.Some? && Contains(Lower(hint.value), "part")
    ensures t == Contract <==>
      hint.Some? && !Contains(Lower(hint.value), "part") &&
      (Contains(Lower(hint.value), "contract") || Contains(Lower(hint.value), "freelance"))
  {
    if hint.None? || hint.value == "" then FullTime
    else
      var lower := Lower(hint.value);
      if Contains(lower, "part") then PartTime
      else if Contains(lower, "contract") || Contains(lower, "freelance") then Contract
      else FullTime
  }

  // ---------------------------------------------------------------------
  // Vibe score
  // ---------------------------------------------------------------------

  /** The text the AI bonus searches: `${title} ${tags.join(' ')}`, lower-cased as a whole. */
  function ScoreText(job: RawJob): string {
    Lower(job.title + " " + Join(job.tags, " "))
  }

  /** The category text and the score text are the same string. */
  lemma {:induction false} CategoryTextIsScoreText(job: RawJob)
    ensures CategoryText(job) == ScoreText(job)
  {
    JoinLowerAll(job.tags, " ");
    assert Lower(" ") == " ";
    LowerConcat(job.title, " ");
    LowerConcat(job.title + " ", Join(job.tags, " "));
  }

  predicate RemoteBonus(job: RawJob) { Contains(Lower(job.location), "remote") }

  predicate AiBonus(job: RawJob) {
    var combined := ScoreText(job);
    Contains(combined, "ai") || Contains(combined, "ml") || Contains(combined, "machine learning")
  }

  /** `if (job.salary)`: defined and non-empty. */
  predicate SalaryBonus(job: RawJob) { job.salary.Some? && job.salary.value != "" }

  /**
   * `(Date.now() - postedAt) / 86400000 < 7`. For integer milliseconds this
   * is `now - postedAt < 7 days`; a NaN date compares false.
   */
  predicate RecencyBonus(job: RawJob, now: int) {
    job.postedAt.Some? && now - job.postedAt.value < 7 * MsPerDay
  }

  function Bonus(b: bool, points: int): int { if b then points else 0 }

  /** `calculateVibeScore`: accumulate, then clamp to [0, 100]. */
  function VibeScore(job: RawJob, now: int): (score: int)
    ensures 50 <= score <= 100
    ensures score == 50 + Bonus(RemoteBonus(job), 20) + Bonus(AiBonus(job), 15)
                         + Bonus(SalaryBonus(job), 10) + Bonus(RecencyBonus(job, now), 5)
  {
    var score := 50;
    var score := if RemoteBonus(job) then score + 20 else score;
    var score := if AiBonus(job) then score + 15 else score;
    var score := if SalaryBonus(job) then score + 10 else score;
    var score := if RecencyBonus(job, now) then score + 5 else score;
    Min(100, Max(0, score))
  }

  function Min(a: int, b: int): int { if a < b then a else b }
  function Max(a: int, b: int): int { if a < b then b else a }

  /** A job the first category rule selects always earns the AI bonus. */
  lemma FirstRuleEarnsAiBonus(job: RawJob)
    requires MentionsAny(CategoryText(job), ["ml", "machine learning", "ai engineer"])
    ensures AiBonus(job)
  {
    var t := CategoryText(job);
    CategoryTextIsScoreText(job);
    MentionsAnyOf3(t, "ml", "machine learning", "ai engineer");
    if Contains(t, "ai engineer") {
      assert "ai engineer"[0..2] == "ai";
      ContainsAt("ai engineer", "ai", 0);
      ContainsTransitive(t, "ai engineer", "ai");
    }
  }

  // ---------------------------------------------------------------------
  // Location type and the created record
  // ---------------------------------------------------------------------

  /** Remote-global when the lower-cased location mentions "remote", otherwise on-site; never hybrid. */
  function LocationTypeOf(location: string): (t: LocationType)
    ensures t == RemoteGlobal <==> Contains(Lower(location), "remote")
    ensures t == Onsite <==> !Contains(Lower(location), "remote")
    ensures t != Hybrid
  {
    if Contains(Lower(location), "remote") then RemoteGlobal else Onsite
  }

  /** `postedAt` of a new listing: the raw date when valid, else the insertion time. */
  function PostedAtOrNow(posted: Option<int>, now: int): (t: int)
    ensures posted.Some? ==> t == posted.value
    ensures posted.None? ==> t == now
  {
    if posted.Some? then posted.value else now
  }

  /** What a listing created by the aggregator always satisfies. */
  predicate AggregatorCreated(l: JobListing)
  {
    && |l.title| <= MaxTitle && |l.company| <= MaxCompany
    && |l.description| <= MaxDescription && |l.tags| <= MaxTags
    && l.locationType != Hybrid
    && (l.jobType == FullTime || l.jobType == PartTime || l.jobType == Contract)
    && l.vibeScore.Some? && 50 <= l.vibeScore.value <= 100
    && l.source == "Aggregator"
    && l.isActive && !l.isAuOnly && !l.isImpactHub
  }

  /** The `data` object passed to `create` for a raw job. */
  function NewListing(job: RawJob, now: int): (l: JobListing)
    ensures AggregatorCreated(l)
    ensures l.title <= job.title && l.company <= job.company
    ensures l.description <= job.description && l.tags <= job.tags
    ensures |l.title| == if |job.title| <= MaxTitle then |job.title| else MaxTitle
    ensures |l.company| == if |job.company| <= MaxCompany then |job.company| else MaxCompany
    ensures |l.description| == if |job.description| <= MaxDescription then |job.description| else MaxDescription
    ensures |l.tags| == if |job.tags| <= MaxTags then |job.tags| else MaxTags
    ensures l.location == job.location && l.sourceUrl == job.url
    ensures l.locationType == LocationTypeOf(job.location)
    ensures l.jobType == ParseJobType(job.jobType)
    ensures l.category == Categorize(job)
    ensures l.vibeScore == Some(VibeScore(job, now))
    ensures l.postedAt == if job.postedAt.Some? then job.postedAt.value else now
  {
    JobListing(
      title := Take(job.title, MaxTitle),
      company := Take(job.company, MaxCompany),
      description := Take(job.description, MaxDescription),
      location := job.location,
      locationType := LocationTypeOf(job.location),
      jobType := ParseJobType(job.jobType),
      category := Categorize(job),
      vibeScore := Some(VibeScore(job, now)),
      source := "Aggregator",
      sourceUrl := job.url,
      tags := Take(job.tags, MaxTags),
      isActive := true,
      isAuOnly := false,
      isImpactHub := false,
      postedAt := PostedAtOrNow(job.postedAt, now))
  }
}

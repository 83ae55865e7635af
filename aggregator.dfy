/**
 * The stateful part of `aggregateJobs` (src/lib/jobAggregator.ts): the
 * look-up-then-create loop over the merged provider output, with its
 * `inserted` / `skipped` counters, and the bulk deactivation of stale
 * listings. The database table is a `JobStore` object holding the rows in
 * insertion order; `now` is the wall-clock time of the run in milliseconds.
 */
module Aggregator {
  import opened Text
  import opened Types
  import opened Classifier
  import opened Fetchers

  /** Listings posted more than 60 days before `now` are stale. */
  const StaleAfter: int := 60 * MsPerDay

  // ---------------------------------------------------------------------
  // Specification of the insert loop
  // ---------------------------------------------------------------------

  /** Some row already has this `sourceUrl` (what `findFirst` looks for). */
  predicate HasUrl(listings: seq<JobListing>, url: string)
  {
    exists i :: 0 <= i < |listings| && listings[i].sourceUrl == url
  }

  /** Row `i` is the first row whose `sourceUrl` is `url`. */
  predicate FirstWithUrl(listings: seq<JobListing>, url: string, i: int)
  {
    0 <= i < |listings| && listings[i].sourceUrl == url &&
    forall j :: 0 <= j < i ==> listings[j].sourceUrl != url
  }

  /** The rows and the two counters of a run. */
  datatype Tally = Tally(listings: seq<JobListing>, inserted: nat, skipped: nat)

  /**
   * One iteration of the loop. `fails` says that a store call for this job
   * throws; the `catch` logs it and neither counter moves.
   */
  function Admit(t: Tally, job: RawJob, fails: bool, now: int): (r: Tally)
    ensures r.inserted + r.skipped == t.inserted + t.skipped + (if fails then 0 else 1)
    ensures r.listings == t.listings <==> fails || HasUrl(t.listings, job.url)
    ensures r.listings != t.listings ==> r.listings == t.listings + [NewListing(job, now)]
    ensures fails ==> r == t
    ensures !fails && HasUrl(t.listings, job.url) ==> r == t.(skipped := t.skipped + 1)
    ensures !fails && !HasUrl(t.listings, job.url) ==> r.inserted == t.inserted + 1 && r.skipped == t.skipped
  {
    if fails then t
    else if HasUrl(t.listings, job.url) then t.(skipped := t.skipped + 1)
    else Tally(t.listings + [NewListing(job, now)], t.inserted + 1, t.skipped)
  }

  /** The loop over `jobs` in order; `failing` holds the positions whose store call throws. */
  function Ingested(t: Tally, jobs: seq<RawJob>, failing: set<nat>, now: int): Tally
    decreases |jobs|
  {
    if jobs == [] then t
    else
      var n := |jobs| - 1;
      Admit(Ingested(t, jobs[..n], failing, now), jobs[n], n in failing, now)
  }

  /** The positions below `n` whose store call throws. */
  function FailingBelow(n: nat, failing: set<nat>): set<nat>
  {
    set i | i in failing && i < n
  }

  /** How many of the positions `0 .. n-1` are in `failing`. */
  function FailuresBefore(n: nat, failing: set<nat>): (c: nat)
    ensures c <= n
    ensures c == |FailingBelow(n, failing)|
  {
    if n == 0 then
      assert FailingBelow(0, failing) == {};
      0
    else
      var below := FailingBelow(n - 1, failing);
      assert FailingBelow(n, failing) == below + (if n - 1 in failing then {n - 1} else {});
      assert n - 1 !in below;
      FailuresBefore(n - 1, failing) + (if n - 1 in failing then 1 else 0)
  }

  /** The counters account for every job whose store calls did not throw. */
  lemma {:induction false} IngestedCounts(t: Tally, jobs: seq<RawJob>, failing: set<nat>, now: int)
    ensures var r := Ingested(t, jobs, failing, now);
      && |r.listings| == |t.listings| + (r.inserted - t.inserted)
      && r.inserted >= t.inserted && r.skipped >= t.skipped
      && r.inserted + r.skipped == t.inserted + t.skipped + |jobs| - FailuresBefore(|jobs|, failing)
    decreases |jobs|
  {
    if jobs != [] {
      IngestedCounts(t, jobs[..|jobs| - 1], failing, now);
    }
  }

  /** The loop only appends, and every appended row is a record the aggregator created. */
  lemma {:induction false} IngestedAppends(t: Tally, jobs: seq<RawJob>, failing: set<nat>, now: int)
    ensures var r := Ingested(t, jobs, failing, now).listings;
      && t.listings <= r
      && forall i :: |t.listings| <= i < |r| ==> AggregatorCreated(r[i])
    decreases |jobs|
  {
    if jobs != [] {
      IngestedAppends(t, jobs[..|jobs| - 1], failing, now);
    }
  }

  /** A URL stored in a prefix of the rows is stored in the rows. */
  lemma PrefixKeepsUrls(a: seq<JobListing>, b: seq<JobListing>)
    requires a <= b
    ensures forall u :: HasUrl(a, u) ==> HasUrl(b, u)
  {
    forall u | HasUrl(a, u) ensures HasUrl(b, u) {
      var i :| 0 <= i < |a| && a[i].sourceUrl == u;
      assert b[i] == a[i];
    }
  }

  /** After an iteration that did not throw, the job's URL is stored. */
  lemma AdmitStoresUrl(t: Tally, job: RawJob, fails: bool, now: int)
    ensures !fails ==> HasUrl(Admit(t, job, fails, now).listings, job.url)
  {
    if !fails && !HasUrl(t.listings, job.url) {
      assert Admit(t, job, fails, now).listings[|t.listings|] == NewListing(job, now);
    }
  }

  /** Every job that did not fail has its URL in the store afterwards, and no stored URL is lost. */
  lemma {:induction false} IngestedCoversUrls(t: Tally, jobs: seq<RawJob>, failing: set<nat>, now: int)
    ensures forall k :: 0 <= k < |jobs| && k !in failing ==>
      HasUrl(Ingested(t, jobs, failing, now).listings, jobs[k].url)
    ensures forall u :: HasUrl(t.listings, u) ==> HasUrl(Ingested(t, jobs, failing, now).listings, u)
    decreases |jobs|
  {
    IngestedAppends(t, jobs, failing, now);
    PrefixKeepsUrls(t.listings, Ingested(t, jobs, failing, now).listings);
    if jobs != [] {
      var n := |jobs| - 1;
      var pre := jobs[..n];
      IngestedCoversUrls(t, pre, failing, now);
      CoversUrlsStep(t, pre, jobs[n], failing, now);
      assert pre + [jobs[n]] == jobs;
    }
  }

  /** One more iteration keeps every earlier URL and stores the new job's URL unless its call throws. */
  lemma CoversUrlsStep(t: Tally, pre: seq<RawJob>, job: RawJob, failing: set<nat>, now: int)
    requires forall k :: 0 <= k < |pre| && k !in failing ==>
      HasUrl(Ingested(t, pre, failing, now).listings, pre[k].url)
    ensures var jobs := pre + [job];
      forall k :: 0 <= k < |jobs| && k !in failing ==> HasUrl(Ingested(t, jobs, failing, now).listings, jobs[k].url)
  {
    var jobs := pre + [job];
    assert jobs[..|pre|] == pre;
    var mid := Ingested(t, pre, failing, now);
    var r := Admit(mid, job, |pre| in failing, now);
    assert Ingested(t, jobs, failing, now) == r;
    AdmitStoresUrl(mid, job, |pre| in failing, now);
    PrefixKeepsUrls(mid.listings, r.listings);
    forall k | 0 <= k < |jobs| && k !in failing ensures HasUrl(r.listings, jobs[k].url) {
      if k < |pre| {
        assert jobs[k] == pre[k];
      }
    }
  }

  /**
   * No URL is inserted twice: every appended row's URL differs from the URL
   * of every row before it, so a URL seen twice in one run is stored once.
   */
  lemma {:induction false} IngestedFreshUrls(t: Tally, jobs: seq<RawJob>, failing: set<nat>, now: int)
    ensures var r := Ingested(t, jobs, failing, now).listings;
      forall i, j :: 0 <= i < j < |r| && j >= |t.listings| ==> r[i].sourceUrl != r[j].sourceUrl
    decreases |jobs|
  {
    if jobs != [] {
      var n := |jobs| - 1;
      var mid := Ingested(t, jobs[..n], failing, now);
      IngestedFreshUrls(t, jobs[..n], failing, now);
      IngestedAppends(t, jobs[..n], failing, now);
      var r := Ingested(t, jobs, failing, now).listings;
      if r != mid.listings {
        forall i | 0 <= i < |mid.listings| ensures r[i].sourceUrl != r[|mid.listings|].sourceUrl {
          assert r[i] == mid.listings[i];
        }
      }
    }
  }

  /** All URLs of the store are distinct. */
  predicate UniqueUrls(listings: seq<JobListing>)
  {
    forall i, j :: 0 <= i < j < |listings| ==> listings[i].sourceUrl != listings[j].sourceUrl
  }

  /** A store without duplicate URLs keeps that property across a run. */
  lemma IngestedKeepsUniqueUrls(t: Tally, jobs: seq<RawJob>, failing: set<nat>, now: int)
    requires UniqueUrls(t.listings)
    ensures UniqueUrls(Ingested(t, jobs, failing, now).listings)
  {
  }

  /** When every URL is already stored and nothing fails, the run skips every job and leaves the store unchanged. */
  lemma {:induction false} KnownUrlsAreSkipped(t: Tally, jobs: seq<RawJob>, now: int)
    requires forall k :: 0 <= k < |jobs| ==> HasUrl(t.listings, jobs[k].url)
    ensures Ingested(t, jobs, {}, now) == t.(skipped := t.skipped + |jobs|)
    decreases |jobs|
  {
    if jobs != [] {
      var n := |jobs| - 1;
      forall k | 0 <= k < n ensures HasUrl(t.listings, jobs[..n][k].url) {
        assert jobs[..n][k] == jobs[k];
      }
      KnownUrlsAreSkipped(t, jobs[..n], now);
    }
  }

  /** The rows after `base` are the records created from `jobs`, in order. */
  predicate CreatedInOrder(base: seq<JobListing>, jobs: seq<RawJob>, r: seq<JobListing>, now: int)
  {
    && |r| == |base| + |jobs| && base <= r
    && forall k :: 0 <= k < |jobs| ==> r[|base| + k] == NewListing(jobs[k], now)
  }

  /** New, pairwise distinct URLs and no failures: every job is inserted, in order, none skipped. */
  lemma {:induction false} NewUrlsAreInserted(t: Tally, jobs: seq<RawJob>, now: int)
    requires forall k :: 0 <= k < |jobs| ==> !HasUrl(t.listings, jobs[k].url)
    requires forall k, m :: 0 <= k < m < |jobs| ==> jobs[k].url != jobs[m].url
    ensures var r := Ingested(t, jobs, {}, now);
      && r.inserted == t.inserted + |jobs| && r.skipped == t.skipped
      && CreatedInOrder(t.listings, jobs, r.listings, now)
    decreases |jobs|
  {
    if jobs != [] {
      var n := |jobs| - 1;
      var pre := jobs[..n];
      assert forall k :: 0 <= k < n ==> pre[k] == jobs[k];
      NewUrlsAreInserted(t, pre, now);
      var mid := Ingested(t, pre, {}, now);
      NoUrlAmongCreated(t.listings, pre, mid.listings, jobs[n].url, now);
      InsertStep(t, pre, jobs[n], mid, now);
      ButLastThenLast(jobs);
    }
  }

  lemma InsertStep(t: Tally, pre: seq<RawJob>, job: RawJob, mid: Tally, now: int)
    requires mid == Ingested(t, pre, {}, now)
    requires mid.inserted == t.inserted + |pre| && mid.skipped == t.skipped
    requires CreatedInOrder(t.listings, pre, mid.listings, now)
    requires !HasUrl(mid.listings, job.url)
    ensures var r := Ingested(t, pre + [job], {}, now);
      && r.inserted == t.inserted + |pre| + 1 && r.skipped == t.skipped
      && CreatedInOrder(t.listings, pre + [job], r.listings, now)
  {
  }

  lemma NoUrlAmongCreated(base: seq<JobListing>, jobs: seq<RawJob>, r: seq<JobListing>, url: string, now: int)
    requires CreatedInOrder(base, jobs, r, now)
    requires !HasUrl(base, url)
    requires forall k :: 0 <= k < |jobs| ==> jobs[k].url != url
    ensures !HasUrl(r, url)
  {
    forall i | 0 <= i < |r| ensures r[i].sourceUrl != url {
      if i < |base| {
        assert base[i] == r[i];
      } else {
        assert r[|base| + (i - |base|)] == NewListing(jobs[i - |base|], now);
      }
    }
  }

  /** Running the same provider output twice: the second run inserts nothing and skips everything. */
  lemma SecondRunSkipsAll(t: Tally, jobs: seq<RawJob>, now1: int, now2: int)
    ensures var first := Ingested(t, jobs, {}, now1);
      Ingested(Tally(first.listings, 0, 0), jobs, {}, now2) == Tally(first.listings, 0, |jobs|)
  {
    var first := Ingested(t, jobs, {}, now1);
    IngestedCoversUrls(t, jobs, {}, now1);
    KnownUrlsAreSkipped(Tally(first.listings, 0, 0), jobs, now2);
  }

  // ---------------------------------------------------------------------
  // Specification of the deactivation
  // ---------------------------------------------------------------------

  /** The `updateMany` filter: active and posted strictly before the cut-off. */
  predicate IsStale(l: JobListing, cutoff: int) { l.isActive && l.postedAt < cutoff }

  /** `updateMany`'s effect on one row. */
  function DeactivateOne(l: JobListing, cutoff: int): JobListing
  {
    if IsStale(l, cutoff) then l.(isActive := false) else l
  }

  /** `updateMany`'s effect on the table: only `isActive` changes, and only from true to false on stale rows. */
  function Deactivated(listings: seq<JobListing>, cutoff: int): (r: seq<JobListing>)
    ensures |r| == |listings|
    ensures forall i :: 0 <= i < |r| ==>
      r[i].isActive == (listings[i].isActive && listings[i].postedAt >= cutoff)
    ensures forall i :: 0 <= i < |r| ==> r[i].(isActive := listings[i].isActive) == listings[i]
  {
    seq(|listings|, i requires 0 <= i < |listings| => DeactivateOne(listings[i], cutoff))
  }

  /** `deactivated.count`: the number of stale rows. */
  function StaleCount(listings: seq<JobListing>, cutoff: int): (n: nat)
    ensures n <= |listings|
    decreases |listings|
  {
    if listings == [] then 0
    else
      var k := |listings| - 1;
      StaleCount(listings[..k], cutoff) + (if IsStale(listings[k], cutoff) then 1 else 0)
  }

  /** The rows `updateMany` rewrites. */
  function StaleRows(listings: seq<JobListing>, cutoff: int): set<nat>
  {
    set i: nat | i < |listings| && IsStale(listings[i], cutoff)
  }

  /** The rows the deactivation changes are exactly the stale ones. */
  lemma StaleRowsAreChangedRows(listings: seq<JobListing>, cutoff: int)
    ensures StaleRows(listings, cutoff) ==
      set i: nat | i < |listings| && Deactivated(listings, cutoff)[i] != listings[i]
  {
    forall i: nat | i < |listings|
      ensures IsStale(listings[i], cutoff) <==> Deactivated(listings, cutoff)[i] != listings[i]
    {
      assert Deactivated(listings, cutoff)[i] == DeactivateOne(listings[i], cutoff);
    }
  }

  /** `deactivated.count` is the number of stale rows. */
  lemma {:induction false} StaleCountCountsStaleRows(listings: seq<JobListing>, cutoff: int)
    ensures StaleCount(listings, cutoff) == |StaleRows(listings, cutoff)|
    decreases |listings|
  {
    if listings == [] {
      assert StaleRows(listings, cutoff) == {};
    } else {
      var k := |listings| - 1;
      var pre := listings[..k];
      StaleCountCountsStaleRows(pre, cutoff);
      var before := StaleRows(pre, cutoff);
      var last: set<nat> := if IsStale(listings[k], cutoff) then {k} else {};
      forall i: nat | i < k ensures pre[i] == listings[i] { }
      assert StaleRows(listings, cutoff) == before + last;
      assert k !in before;
    }
  }

  /** `deactivated.count` is the number of rows `updateMany` changes. */
  lemma StaleCountCountsChangedRows(listings: seq<JobListing>, cutoff: int)
    ensures StaleCount(listings, cutoff) ==
      |set i: nat | i < |listings| && Deactivated(listings, cutoff)[i] != listings[i]|
  {
    StaleRowsAreChangedRows(listings, cutoff);
    StaleCountCountsStaleRows(listings, cutoff);
  }

  /** After deactivation no stale row is left. */
  lemma {:induction false} NoStaleAfterDeactivation(listings: seq<JobListing>, cutoff: int)
    ensures StaleCount(Deactivated(listings, cutoff), cutoff) == 0
    decreases |listings|
  {
    if listings != [] {
      var k := |listings| - 1;
      assert Deactivated(listings, cutoff)[..k] == Deactivated(listings[..k], cutoff);
      NoStaleAfterDeactivation(listings[..k], cutoff);
    }
  }

  /** Deactivation is idempotent, and a second run counts zero rows. */
  lemma DeactivationIdempotent(listings: seq<JobListing>, cutoff: int)
    ensures Deactivated(Deactivated(listings, cutoff), cutoff) == Deactivated(listings, cutoff)
    ensures StaleCount(Deactivated(listings, cutoff), cutoff) == 0
  {
    NoStaleAfterDeactivation(listings, cutoff);
  }

  // ---------------------------------------------------------------------
  // The store
  // ---------------------------------------------------------------------

  /** The `jobListing` table. */
  class JobStore {
    var listings: seq<JobListing>

    constructor (initial: seq<JobListing>)
      ensures listings == initial
    {
      listings := initial;
    }

    /** `findFirst({ where: { sourceUrl } })`: the first row with that URL, if any. */
    method FindFirstByUrl(url: string) returns (found: Option<JobListing>)
      ensures found.Some? <==> HasUrl(listings, url)
      ensures found.Some? ==> found.value.sourceUrl == url
      ensures found.Some? ==> exists i :: FirstWithUrl(listings, url, i) && listings[i] == found.value
    {
      var i := 0;
      while i < |listings|
        invariant 0 <= i <= |listings|
        invariant forall j :: 0 <= j < i ==> listings[j].sourceUrl != url
      {
        if listings[i].sourceUrl == url {
          return Some(listings[i]);
        }
        i := i + 1;
      }
      return None;
    }

    /** `create({ data })`: appends one row. */
    method Create(l: JobListing)
      modifies this
      ensures listings == old(listings) + [l]
    {
      listings := listings + [l];
    }

    /** The `for` loop of `aggregateJobs`: look up by URL, skip or create. */
    method IngestJobs(jobs: seq<RawJob>, failing: set<nat>, now: int) returns (inserted: nat, skipped: nat)
      modifies this
      ensures Tally(listings, inserted, skipped) == Ingested(Tally(old(listings), 0, 0), jobs, failing, now)
    {
      inserted, skipped := 0, 0;
      ghost var start := Tally(listings, 0, 0);
      for k := 0 to |jobs|
        invariant Tally(listings, inserted, skipped) == Ingested(start, jobs[..k], failing, now)
      {
        assert jobs[..k + 1][..k] == jobs[..k];
        if k in failing {
          continue;
        }
        var existing := FindFirstByUrl(jobs[k].url);
        if existing.Some? {
          skipped := skipped + 1;
          continue;
        }
        Create(NewListing(jobs[k], now));
        inserted := inserted + 1;
      }
      assert jobs[..|jobs|] == jobs;
    }

    /** The bulk `updateMany` that deactivates rows posted before `cutoff`; returns the count. */
    method DeactivateOlderThan(cutoff: int) returns (count: nat)
      modifies this
      ensures listings == Deactivated(old(listings), cutoff)
      ensures count == StaleCount(old(listings), cutoff)
    {
      ghost var before := listings;
      count := 0;
      for i := 0 to |listings|
        invariant |listings| == |before|
        invariant forall j :: 0 <= j < i ==> listings[j] == DeactivateOne(before[j], cutoff)
        invariant forall j :: i <= j < |listings| ==> listings[j] == before[j]
        invariant count == StaleCount(before[..i], cutoff)
      {
        assert before[..i + 1][..i] == before[..i];
        if IsStale(listings[i], cutoff) {
          listings := listings[i := listings[i].(isActive := false)];
          count := count + 1;
        }
      }
      assert before[..|before|] == before;
    }
  }

  /** The counts `aggregateJobs` logs. */
  datatype Summary = Summary(fetched: nat, inserted: nat, skipped: nat, deactivated: nat)

  /**
   * How a run ends: with its counts, or with the `updateMany` error logged and
   * re-thrown after the inserts have been stored.
   */
  datatype Outcome = Completed(summary: Summary) | Rethrown

  /**
   * One run of `aggregateJobs`: the three providers' responses mapped by
   * their fetchers and concatenated in the order the source spreads them,
   * then the insert loop, then deactivation of rows posted more than 60 days
   * before `now`. `deactivationFails` says that the `updateMany` call throws:
   * it sits outside the per-job `try`, so the run ends there, re-throwing,
   * with the inserted rows kept and nothing deactivated.
   */
  method AggregateJobs(store: JobStore, remoteOk: Fetched<RemoteOkItem>, remotive: Fetched<RemotiveItem>,
                       adzunaCredentialsSet: bool, adzuna: Fetched<AdzunaItem>,
                       failing: set<nat>, deactivationFails: bool, now: int) returns (outcome: Outcome)
    modifies store
    ensures var all := RemoteOkJobs(remoteOk, now) + RemotiveJobs(remotive, now)
                       + AdzunaJobs(adzunaCredentialsSet, adzuna, now);
      var t := Ingested(Tally(old(store.listings), 0, 0), all, failing, now);
      && (deactivationFails ==> outcome == Rethrown && store.listings == t.listings)
      && (!deactivationFails ==>
            && outcome == Completed(Summary(|all|, t.inserted, t.skipped, StaleCount(t.listings, now - StaleAfter)))
            && store.listings == Deactivated(t.listings, now - StaleAfter))
  {
    var allJobs := RemoteOkJobs(remoteOk, now) + RemotiveJobs(remotive, now)
                   + AdzunaJobs(adzunaCredentialsSet, adzuna, now);
    var inserted, skipped := store.IngestJobs(allJobs, failing, now);
    if deactivationFails {
      return Rethrown;
    }
    var deactivated := store.DeactivateOlderThan(now - StaleAfter);
    outcome := Completed(Summary(|allJobs|, inserted, skipped, deactivated));
  }
}

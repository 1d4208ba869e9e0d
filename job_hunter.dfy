/**
 * The job hunter: one hunt searches every (location, keyword) pair, keeps the
 * postings that look like senior marketing or growth roles, scores and sorts
 * them, and records the best ones in its ledger of applied jobs.
 */
module JobHunting {
  import opened Wrappers
  import opened Text
  import CoverLetter

  /** The value of `datetime.now().isoformat()` at the moment a record is made. */
  type Timestamp = string

  /**
   * A job posting as the hunter handles it: a dictionary whose text fields are
   * strings. `matchScore` is `None` until ranking writes the `match_score` key.
   */
  datatype Job = Job(
    id: string,
    title: string,
    company: string,
    location: string,
    description: string,
    url: string,
    source: string,
    matchScore: Option<int>)

  /** The `status` of a ledger record. */
  datatype Status = ReadyToApply | ToReview {
    function Name(): string {
      match this
      case ReadyToApply => "ready_to_apply"
      case ToReview => "to_review"
    }
  }

  /**
   * One entry of `applied_jobs`. `at` is stored under `date_applied` when the
   * status is ReadyToApply and under `date_saved` when it is ToReview.
   */
  datatype LedgerRecord = LedgerRecord(
    id: string,
    title: string,
    company: string,
    at: Timestamp,
    status: Status,
    matchScore: int,
    applicationUrl: string)

  /** The settings the hunter reads from its configuration. */
  datatype Config = Config(
    locations: seq<string>,
    keywords: seq<string>,
    excludeTerms: seq<string>,
    targetIndustries: seq<string>,
    maxApplicationsPerDay: int,
    autoApply: bool)

  /** What one search call does: return postings, or raise. */
  datatype SearchOutcome = Found(jobs: seq<Job>) | Raised

  // ---------------------------------------------------------------- filtering

  /** The leadership test, on a lower-cased title. */
  predicate IsLeadership(title: string) {
    || Contains(title, "head")
    || Contains(title, "director")
    || Contains(title, "vp")
    || Contains(title, "vice president")
    || (Contains(title, "lead") && (Contains(title, "marketing") || Contains(title, "growth")))
    || Contains(title, "chief")
  }

  /** The target-industry test, on a lower-cased description and company. */
  predicate IsTargetIndustry(description: string, company: string, industries: seq<string>) {
    AnyIn(industries, description) || AnyIn(industries, company)
  }

  /** The role-relevance test, on a lower-cased title. */
  predicate IsRelevantRole(title: string) {
    || Contains(title, "marketing")
    || Contains(title, "growth")
    || Contains(title, "partnerships")
    || Contains(title, "business development")
    || (Contains(title, "bd") && (Contains(title, "head") || Contains(title, "director")))
  }

  /** The ids of the ledger's records, in ledger order. */
  function LedgerIds(ledger: seq<LedgerRecord>): (ids: seq<string>)
    ensures forall x :: x in ids <==> exists r :: r in ledger && r.id == x
  {
    if ledger == [] then []
    else
      var n := |ledger| - 1;
      assert ledger == ledger[..n] + [ledger[n]];
      LedgerIds(ledger[..n]) + [ledger[n].id]
  }

  /** Whether the filter keeps `job`, given the ledger as it stands. */
  predicate Keep(job: Job, ledger: seq<LedgerRecord>, config: Config)
    ensures Keep(job, ledger, config) ==> forall r :: r in ledger ==> r.id != job.id
  {
    var title := Lower(job.title);
    var description := Lower(job.description);
    var company := Lower(job.company);
    && job.id !in LedgerIds(ledger)
    && !AnyIn(config.excludeTerms, title)
    && (IsLeadership(title) || Contains(title, "web3"))
    && (IsRelevantRole(title) || IsTargetIndustry(description, company, config.targetIndustries))
  }

  /** The jobs the filter keeps, in input order. */
  function Filtered(jobs: seq<Job>, ledger: seq<LedgerRecord>, config: Config): seq<Job>
  {
    if jobs == [] then []
    else
      var last := jobs[|jobs| - 1];
      Filtered(jobs[..|jobs| - 1], ledger, config) + (if Keep(last, ledger, config) then [last] else [])
  }

  // ------------------------------------------------------------------ scoring

  const CryptoTerms := ["web3", "blockchain", "crypto"]

  /** +3 for web3 or blockchain in the title, else +2 for web3, blockchain or crypto in the description. */
  function Web3Points(title: string, description: string): (points: int)
    ensures points == 0 || points == 2 || points == 3
  {
    if Contains(title, "web3") || Contains(title, "blockchain") then 3
    else if AnyIn(CryptoTerms, description) then 2
    else 0
  }

  /** +2 for a remote location. */
  function RemotePoints(location: string): (points: int)
    ensures points == 0 || points == 2
  {
    if Contains(location, "remote") then 2 else 0
  }

  /** +2 for head or chief in the title, else +1 for director or vp. */
  function LevelPoints(title: string): (points: int)
    ensures 0 <= points <= 2
  {
    if Contains(title, "head") || Contains(title, "chief") then 2
    else if Contains(title, "director") || Contains(title, "vp") then 1
    else 0
  }

  /** +1 each for marketing, for growth, and for partnerships or business development in the title. */
  function RolePoints(title: string): (points: int)
    ensures 0 <= points <= 3
  {
    (if Contains(title, "marketing") then 1 else 0)
    + (if Contains(title, "growth") then 1 else 0)
    + (if Contains(title, "partnerships") || Contains(title, "business development") then 1 else 0)
  }

  /** +1 for a target industry in the company name. */
  function IndustryPoints(company: string, industries: seq<string>): (points: int)
    ensures points == 0 || points == 1
  {
    if AnyIn(industries, company) then 1 else 0
  }

  /** The additive match score of one job. */
  function Score(job: Job, industries: seq<string>): (score: int)
    ensures 0 <= score <= 11
  {
    Web3Points(Lower(job.title), Lower(job.description))
    + RemotePoints(Lower(job.location))
    + LevelPoints(Lower(job.title))
    + RolePoints(Lower(job.title))
    + IndustryPoints(Lower(job.company), industries)
  }

  /** `job` with its `match_score` written. */
  function WithScore(job: Job, industries: seq<string>): Job {
    job.(matchScore := Some(Score(job, industries)))
  }

  /** Every job of `jobs` with its `match_score` written, in place. */
  function Scored(jobs: seq<Job>, industries: seq<string>): seq<Job>
  {
    seq(|jobs|, i requires 0 <= i < |jobs| => WithScore(jobs[i], industries))
  }

  predicate AllScored(jobs: seq<Job>) {
    forall i :: 0 <= i < |jobs| ==> jobs[i].matchScore.Some?
  }

  // ------------------------------------------------------------------ sorting

  /** The sort key `match_score`; every job that is sorted carries one. */
  function KeyOf(job: Job): int {
    job.matchScore.GetOr(0)
  }

  /** Sorted by key, largest first. */
  predicate SortedDesc(s: seq<Job>) {
    forall i, j :: 0 <= i < j < |s| ==> KeyOf(s[i]) >= KeyOf(s[j])
  }

  /** Puts `x` into the sorted `s`, in front of every element whose key is not larger. */
  function Insert(x: Job, s: seq<Job>): (r: seq<Job>)
    ensures multiset(r) == multiset{x} + multiset(s)
  {
    if s == [] || KeyOf(x) >= KeyOf(s[0]) then [x] + s
    else
      assert s == [s[0]] + s[1..];
      [s[0]] + Insert(x, s[1..])
  }

  /** The tail of a sorted sequence is sorted. */
  lemma SortedRest(s: seq<Job>)
    requires s != [] && SortedDesc(s)
    ensures SortedDesc(s[1..])
  {
    forall i, j | 0 <= i < j < |s| - 1 ensures KeyOf(s[1..][i]) >= KeyOf(s[1..][j]) {
      assert s[1..][i] == s[i + 1] && s[1..][j] == s[j + 1];
    }
  }

  /** A job whose key bounds every key of the sorted `t` can head it. */
  lemma SortedCons(h: Job, t: seq<Job>)
    requires SortedDesc(t)
    requires forall y | y in t :: KeyOf(y) <= KeyOf(h)
    ensures SortedDesc([h] + t)
  {
    var r := [h] + t;
    forall i, j | 0 <= i < j < |r| ensures KeyOf(r[i]) >= KeyOf(r[j]) {
      assert r[j] == t[j - 1];
      if i > 0 {
        assert r[i] == t[i - 1];
      } else {
        assert r[j] in t;
      }
    }
  }

  /** Inserting into a sorted sequence keeps it sorted. */
  lemma {:induction false} InsertKeepsSorted(x: Job, s: seq<Job>)
    requires SortedDesc(s)
    ensures SortedDesc(Insert(x, s))
  {
    if s != [] && KeyOf(x) < KeyOf(s[0]) {
      SortedRest(s);
      var rest := Insert(x, s[1..]);
      InsertKeepsSorted(x, s[1..]);
      forall y | y in rest ensures KeyOf(y) <= KeyOf(s[0]) {
        assert y in multiset(rest);
        if y != x {
          assert y in s[1..];
          var m :| 0 <= m < |s[1..]| && s[1..][m] == y;
          assert s[m + 1] == y;
        }
      }
      SortedCons(s[0], rest);
      assert Insert(x, s) == [s[0]] + rest;
    } else {
      forall y | y in s ensures KeyOf(y) <= KeyOf(x) {
        var m :| 0 <= m < |s| && s[m] == y;
        assert KeyOf(s[0]) >= KeyOf(s[m]);
      }
      SortedCons(x, s);
    }
  }

  /**
   * Python's `sorted(s, key=match_score, reverse=True)`: largest key first,
   * equal keys in their input order.
   */
  function SortByScore(s: seq<Job>): (r: seq<Job>)
    ensures multiset(r) == multiset(s)
    ensures SortedDesc(r)
  {
    if s == [] then []
    else
      assert s == [s[0]] + s[1..];
      InsertKeepsSorted(s[0], SortByScore(s[1..]));
      Insert(s[0], SortByScore(s[1..]))
  }

  /** What `_rank_jobs` returns for `jobs`. */
  function Ranked(jobs: seq<Job>, industries: seq<string>): (r: seq<Job>)
    ensures multiset(r) == multiset(Scored(jobs, industries))
    ensures AllScored(r)
  {
    var scored := Scored(jobs, industries);
    var r := SortByScore(scored);
    assert forall i :: 0 <= i < |r| ==> r[i] in multiset(scored);
    r
  }

  // -------------------------------------------------------------- searching

  /** The postings one search contributes: its results, or nothing when it raised. */
  function Contribution(outcome: SearchOutcome): seq<Job> {
    match outcome
    case Found(jobs) => jobs
    case Raised => []
  }

  /** The postings of one location, keyword by keyword. */
  function GatherKeywords(location: string, keywords: seq<string>, search: (string, string) -> SearchOutcome): seq<Job>
  {
    if keywords == [] then []
    else
      GatherKeywords(location, keywords[..|keywords| - 1], search)
      + Contribution(search(keywords[|keywords| - 1], location))
  }

  /** `all_jobs`: the postings of every location in turn, each location keyword by keyword. */
  function Gather(locations: seq<string>, keywords: seq<string>, search: (string, string) -> SearchOutcome): seq<Job>
  {
    if locations == [] then []
    else
      Gather(locations[..|locations| - 1], keywords, search)
      + GatherKeywords(locations[|locations| - 1], keywords, search)
  }

  // -------------------------------------------------------------- dispatching

  /** The length of Python's `s[:n]` for a list of length `len`. */
  function SliceLength(n: int, len: nat): (k: nat)
    ensures k <= len
  {
    if n >= 0 then (if n <= len then n else len)
    else if len + n >= 0 then len + n
    else 0
  }

  function StatusFor(autoApply: bool): Status {
    if autoApply then ReadyToApply else ToReview
  }

  /** The ledger record made for a ranked job. */
  function Record(job: Job, status: Status, at: Timestamp): LedgerRecord
    requires job.matchScore.Some?
  {
    LedgerRecord(job.id, job.title, job.company, at, status, job.matchScore.value, job.url)
  }

  /** The records made for `jobs` in turn; the k-th is stamped `clock(k)`. */
  function Records(jobs: seq<Job>, status: Status, clock: nat -> Timestamp): seq<LedgerRecord>
    requires AllScored(jobs)
  {
    seq(|jobs|, i requires 0 <= i < |jobs| => Record(jobs[i], status, clock(i)))
  }

  /** Taking one more job adds its record, stamped with the next clock reading. */
  lemma RecordsGrow(jobs: seq<Job>, status: Status, clock: nat -> Timestamp, k: nat)
    requires AllScored(jobs) && k < |jobs|
    ensures AllScored(jobs[..k]) && AllScored(jobs[..k + 1])
    ensures Records(jobs[..k + 1], status, clock) == Records(jobs[..k], status, clock) + [Record(jobs[k], status, clock(k))]
  {
    var longer := Records(jobs[..k + 1], status, clock);
    var shorter := Records(jobs[..k], status, clock);
    assert forall i :: 0 <= i < k ==> longer[i] == shorter[i];
  }

  /** The records one hunt appends for its ranked jobs. */
  function Dispatched(ranked: seq<Job>, config: Config, clock: nat -> Timestamp): seq<LedgerRecord>
    requires AllScored(ranked)
  {
    Records(ranked[..SliceLength(config.maxApplicationsPerDay, |ranked|)], StatusFor(config.autoApply), clock)
  }

  /** What one hunt appends to `ledger`. */
  function HuntRecords(config: Config, ledger: seq<LedgerRecord>, search: (string, string) -> SearchOutcome,
                       clock: nat -> Timestamp): seq<LedgerRecord>
  {
    var found := Gather(config.locations, config.keywords, search);
    Dispatched(Ranked(Filtered(found, ledger, config), config.targetIndustries), config, clock)
  }

  // ------------------------------------------------------------------ the hunter

  /**
   * The hunter and its ledger. The search client, the resume analyser and
   * the clock are outside the model: a hunt takes the search and the clock as
   * parameters.
   */
  class JobHunter {
    const config: Config
    var appliedJobs: seq<LedgerRecord>

    constructor (config: Config)
      ensures this.config == config
      ensures appliedJobs == []
    {
      this.config := config;
      appliedJobs := [];
    }

    /**
     * One hunt: search every pair, filter, rank, and record the first
     * `maxApplicationsPerDay` ranked jobs, the k-th stamped `clock(k)`.
     */
    method HuntJobs(search: (string, string) -> SearchOutcome, clock: nat -> Timestamp)
      modifies this
      ensures appliedJobs == old(appliedJobs) + HuntRecords(config, old(appliedJobs), search, clock)
    {
      var allJobs := SearchAll(search);
      var relevantJobs := FilterJobs(allJobs);
      var buffer := new Job[|relevantJobs|](k requires 0 <= k < |relevantJobs| => relevantJobs[k]);
      assert buffer[..] == relevantJobs;
      var rankedJobs := RankJobs(buffer);
      assert buffer[..] == Scored(relevantJobs, config.targetIndustries);
      assert rankedJobs == Ranked(relevantJobs, config.targetIndustries);

      Dispatch(rankedJobs, clock);
    }

    /**
     * The dispatch loop of `hunt_jobs`: the first `maxApplicationsPerDay`
     * ranked jobs (Python slice semantics) are applied to or saved for
     * review, in ranked order, the k-th stamped `clock(k)`.
     */
    method Dispatch(rankedJobs: seq<Job>, clock: nat -> Timestamp)
      requires AllScored(rankedJobs)
      modifies this
      ensures appliedJobs == old(appliedJobs) + Dispatched(rankedJobs, config, clock)
    {
      var limit := SliceLength(config.maxApplicationsPerDay, |rankedJobs|);
      ghost var status := StatusFor(config.autoApply);
      for k := 0 to limit
        invariant appliedJobs == old(appliedJobs) + Records(rankedJobs[..k], status, clock)
      {
        var job := rankedJobs[k];
        if config.autoApply {
          ApplyToJob(job, clock(k));
        } else {
          SaveJobForReview(job, clock(k));
        }
        RecordsGrow(rankedJobs, status, clock, k);
      }
    }

    /**
     * The search loop of `hunt_jobs`: the postings of every (location,
     * keyword) pair, location by location; a search that raises adds nothing
     * and the loop goes on with the next pair.
     */
    method SearchAll(search: (string, string) -> SearchOutcome) returns (allJobs: seq<Job>)
      ensures allJobs == Gather(config.locations, config.keywords, search)
    {
      allJobs := [];
      for i := 0 to |config.locations|
        invariant allJobs == Gather(config.locations[..i], config.keywords, search)
      {
        var found := SearchLocation(config.locations[i], search);
        allJobs := allJobs + found;
        assert config.locations[..i + 1][..i] == config.locations[..i];
      }
      assert config.locations[..|config.locations|] == config.locations;
    }

    /** The inner loop of the search: the postings of one location, keyword by keyword. */
    method SearchLocation(location: string, search: (string, string) -> SearchOutcome) returns (found: seq<Job>)
      ensures found == GatherKeywords(location, config.keywords, search)
    {
      found := [];
      for j := 0 to |config.keywords|
        invariant found == GatherKeywords(location, config.keywords[..j], search)
      {
        var keyword := config.keywords[j];
        assert config.keywords[..j + 1][..j] == config.keywords[..j];
        match search(keyword, location)
        case Found(jobs) =>
          found := found + jobs;
        case Raised =>
          // the error is reported and the next pair is searched
      }
      assert config.keywords[..|config.keywords|] == config.keywords;
    }

    /**
     * `_filter_jobs`: the jobs that are not in the ledger, have no exclusion
     * term in their title and pass the leadership and relevance tests, in
     * input order. The ledger is only read.
     */
    method FilterJobs(jobs: seq<Job>) returns (filtered: seq<Job>)
      ensures filtered == Filtered(jobs, appliedJobs, config)
    {
      filtered := [];
      for n := 0 to |jobs|
        invariant filtered == Filtered(jobs[..n], appliedJobs, config)
      {
        var job := jobs[n];
        assert jobs[..n + 1][..n] == jobs[..n];
        if job.id in LedgerIds(appliedJobs) {
          continue;
        }
        var titleLower := Lower(job.title);
        var descriptionLower := Lower(job.description);
        var companyLower := Lower(job.company);
        if AnyIn(config.excludeTerms, titleLower) {
          continue;
        }
        var isLeadership := IsLeadership(titleLower);
        var isTargetIndustry := IsTargetIndustry(descriptionLower, companyLower, config.targetIndustries);
        var isRelevantRole := IsRelevantRole(titleLower);
        if (isLeadership || Contains(titleLower, "web3")) && (isRelevantRole || isTargetIndustry) {
          filtered := filtered + [job];
        }
      }
      assert jobs[..|jobs|] == jobs;
    }

    /**
     * `_rank_jobs`: writes each job's score into it, in place, and returns
     * the jobs sorted by score, largest first, ties in input order.
     */
    method RankJobs(jobs: array<Job>) returns (ranked: seq<Job>)
      modifies jobs
      ensures jobs[..] == Scored(old(jobs[..]), config.targetIndustries)
      ensures ranked == SortByScore(jobs[..])
    {
      for n := 0 to jobs.Length
        invariant forall i :: 0 <= i < n ==> jobs[i] == WithScore(old(jobs[i]), config.targetIndustries)
        invariant forall i :: n <= i < jobs.Length ==> jobs[i] == old(jobs[i])
      {
        var job := jobs[n];
        var score := MatchScore(job);
        jobs[n] := job.(matchScore := Some(score));
      }
      ranked := SortByScore(jobs[..]);
    }

    /** The body of the scoring loop: the score of one job, accumulated bonus by bonus. */
    method MatchScore(job: Job) returns (score: int)
      ensures score == Score(job, config.targetIndustries)
    {
      score := 0;
      var titleLower := Lower(job.title);
      var descriptionLower := Lower(job.description);
      var companyLower := Lower(job.company);

      if Contains(titleLower, "web3") || Contains(titleLower, "blockchain") {
        score := score + 3;
      } else if AnyIn(CryptoTerms, descriptionLower) {
        score := score + 2;
      }
      assert score == Web3Points(titleLower, descriptionLower);
      if Contains(Lower(job.location), "remote") {
        score := score + 2;
      }
      assert score == Web3Points(titleLower, descriptionLower) + RemotePoints(Lower(job.location));
      ghost var partial := score;
      if Contains(titleLower, "head") || Contains(titleLower, "chief") {
        score := score + 2;
      } else if Contains(titleLower, "director") || Contains(titleLower, "vp") {
        score := score + 1;
      }
      assert score == partial + LevelPoints(titleLower);
      partial := score;
      if Contains(titleLower, "marketing") {
        score := score + 1;
      }
      if Contains(titleLower, "growth") {
        score := score + 1;
      }
      if Contains(titleLower, "partnerships") || Contains(titleLower, "business development") {
        score := score + 1;
      }
      assert score == partial + RolePoints(titleLower);
      partial := score;
      if AnyIn(config.targetIndustries, companyLower) {
        score := score + 1;
      }
      assert score == partial + IndustryPoints(companyLower, config.targetIndustries);
    }

    /** `_apply_to_job`: writes a cover letter (which is then dropped) and records the job as ready to apply. */
    method ApplyToJob(job: Job, now: Timestamp)
      requires job.matchScore.Some?
      modifies this
      ensures appliedJobs == old(appliedJobs) + [Record(job, ReadyToApply, now)]
    {
      var coverLetter := CoverLetter.Generate(job.title, job.company, job.description);
      appliedJobs := appliedJobs + [LedgerRecord(job.id, job.title, job.company, now, ReadyToApply,
                                                 job.matchScore.value, job.url)];
    }

    /** `_save_job_for_review`: records the job as to be reviewed. */
    method SaveJobForReview(job: Job, now: Timestamp)
      requires job.matchScore.Some?
      modifies this
      ensures appliedJobs == old(appliedJobs) + [Record(job, ToReview, now)]
    {
      appliedJobs := appliedJobs + [LedgerRecord(job.id, job.title, job.company, now, ToReview,
                                                 job.matchScore.value, job.url)];
    }
  }
}

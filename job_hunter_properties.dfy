/**
 * What the hunter's stages promise, proved about the functions that specify
 * them: the filter, the score, the stable sort, the search loop and the
 * dispatch of one hunt.
 */
module JobHuntingProperties {
  import opened Text
  import opened JobHunting

  // ---------------------------------------------------------------- filtering

  /**
   * The filter picks, in increasing positions, exactly the jobs that pass
   * `Keep`: its output is the input with the other jobs struck out, so the
   * order is kept and duplicates that pass stay.
   */
  lemma {:induction false} FilterPicksKeptPositions(jobs: seq<Job>, ledger: seq<LedgerRecord>, config: Config)
    returns (picked: seq<nat>)
    ensures |picked| == |Filtered(jobs, ledger, config)|
    ensures forall k :: 0 <= k < |picked| ==>
      picked[k] < |jobs| && Filtered(jobs, ledger, config)[k] == jobs[picked[k]]
    ensures forall k1, k2 :: 0 <= k1 < k2 < |picked| ==> picked[k1] < picked[k2]
    ensures forall i :: 0 <= i < |jobs| ==> (i in picked <==> Keep(jobs[i], ledger, config))
  {
    if jobs == [] {
      picked := [];
    } else {
      var n := |jobs| - 1;
      var front := jobs[..n];
      var earlier := FilterPicksKeptPositions(front, ledger, config);
      assert forall i :: 0 <= i < n ==> jobs[i] == front[i];
      if Keep(jobs[n], ledger, config) {
        picked := earlier + [n];
      } else {
        picked := earlier;
      }
    }
  }

  /** A job is in the filter's output exactly when it is in the input and passes `Keep`. */
  lemma {:induction false} FilterMembership(jobs: seq<Job>, ledger: seq<LedgerRecord>, config: Config, x: Job)
    ensures x in Filtered(jobs, ledger, config) <==> x in jobs && Keep(x, ledger, config)
  {
    if jobs != [] {
      var n := |jobs| - 1;
      FilterMembership(jobs[..n], ledger, config, x);
      assert jobs == jobs[..n] + [jobs[n]];
    }
  }

  /** The filter keeps every copy of a job it keeps, and no copy of one it drops. */
  lemma {:induction false} FilterMultiplicity(jobs: seq<Job>, ledger: seq<LedgerRecord>, config: Config, x: Job)
    ensures multiset(Filtered(jobs, ledger, config))[x]
         == if Keep(x, ledger, config) then multiset(jobs)[x] else 0
  {
    if jobs != [] {
      var n := |jobs| - 1;
      FilterMultiplicity(jobs[..n], ledger, config, x);
      assert jobs == jobs[..n] + [jobs[n]];
    }
  }

  /** No job whose id is already in the ledger survives the filter. */
  lemma AppliedJobsDropped(jobs: seq<Job>, ledger: seq<LedgerRecord>, config: Config, x: Job)
    requires x in Filtered(jobs, ledger, config)
    ensures forall r :: r in ledger ==> r.id != x.id
  {
    FilterMembership(jobs, ledger, config, x);
  }

  /**
   * A job that is not in the ledger and has no exclusion term in its title is
   * kept exactly when it passes both halves of the test: leadership or web3,
   * and relevant role or target industry.
   */
  lemma KeptIff(jobs: seq<Job>, ledger: seq<LedgerRecord>, config: Config, x: Job)
    requires x in jobs && x.id !in LedgerIds(ledger) && !AnyIn(config.excludeTerms, Lower(x.title))
    ensures var title := Lower(x.title);
      x in Filtered(jobs, ledger, config) <==>
        && (IsLeadership(title) || Contains(title, "web3"))
        && (IsRelevantRole(title) || IsTargetIndustry(Lower(x.description), Lower(x.company), config.targetIndustries))
  {
    FilterMembership(jobs, ledger, config, x);
  }

  /** No job with an exclusion term in its lower-cased title survives the filter, whatever else it matches. */
  lemma ExcludedTitleDropped(jobs: seq<Job>, ledger: seq<LedgerRecord>, config: Config, x: Job, term: string)
    requires term in config.excludeTerms && Contains(Lower(x.title), term)
    ensures x !in Filtered(jobs, ledger, config)
  {
    FilterMembership(jobs, ledger, config, x);
  }

  // ------------------------------------------------------------------ scoring

  /** The score is 11 exactly when every bonus fires at its highest tier. */
  lemma ScoreIsElevenIff(job: Job, industries: seq<string>)
    ensures var title := Lower(job.title);
      Score(job, industries) == 11 <==>
        && (Contains(title, "web3") || Contains(title, "blockchain"))
        && Contains(Lower(job.location), "remote")
        && (Contains(title, "head") || Contains(title, "chief"))
        && Contains(title, "marketing")
        && Contains(title, "growth")
        && (Contains(title, "partnerships") || Contains(title, "business development"))
        && AnyIn(industries, Lower(job.company))
  {
  }

  /** Crypto wording in the title alone earns nothing in the web3 tier: only web3 or blockchain count there. */
  lemma CryptoTitleNotRewarded(title: string, description: string)
    requires !Contains(title, "web3") && !Contains(title, "blockchain")
    requires forall t :: t in CryptoTerms ==> !Contains(description, t)
    ensures Web3Points(title, description) == 0
  {
  }

  /** The score reads only the title, company, location and description. */
  lemma ScoreIgnoresOtherFields(job: Job, other: Job, industries: seq<string>)
    requires job.title == other.title && job.company == other.company
    requires job.location == other.location && job.description == other.description
    ensures Score(job, industries) == Score(other, industries)
  {
  }

  // ------------------------------------------------------------------ sorting

  /** The jobs of `s` whose key is `k`, in order. */
  function KeyClass(s: seq<Job>, k: int): seq<Job> {
    if s == [] then []
    else (if KeyOf(s[0]) == k then [s[0]] else []) + KeyClass(s[1..], k)
  }

  /** `r` and `s` hold the same jobs of each key, in the same order. */
  ghost predicate SameClasses(r: seq<Job>, s: seq<Job>) {
    forall k :: KeyClass(r, k) == KeyClass(s, k)
  }

  /** The jobs of key `k` in a sequence with one more job in front. */
  lemma KeyClassCons(y: Job, s: seq<Job>, k: int)
    ensures KeyClass([y] + s, k) == (if KeyOf(y) == k then [y] else []) + KeyClass(s, k)
  {
    assert ([y] + s)[1..] == s;
  }

  /** Inserting a job adds it to its own key's jobs, in front, and leaves the other keys' jobs alone. */
  lemma {:induction false} InsertKeyClass(x: Job, s: seq<Job>, k: int)
    ensures KeyClass(Insert(x, s), k) == (if KeyOf(x) == k then [x] else []) + KeyClass(s, k)
  {
    if s == [] || KeyOf(x) >= KeyOf(s[0]) {
      KeyClassCons(x, s, k);
    } else {
      var rest := Insert(x, s[1..]);
      InsertKeyClass(x, s[1..], k);
      KeyClassCons(s[0], rest, k);
      KeyClassCons(s[0], s[1..], k);
      assert s == [s[0]] + s[1..];
    }
  }

  /** The sort is stable: the jobs of each score keep their input order. */
  lemma {:induction false} SortIsStable(s: seq<Job>, k: int)
    ensures KeyClass(SortByScore(s), k) == KeyClass(s, k)
  {
    if s != [] {
      SortIsStable(s[1..], k);
      InsertKeyClass(s[0], SortByScore(s[1..]), k);
    }
  }

  /** Sorting a sequence that is already sorted leaves it as it is. */
  lemma {:induction false} SortOfSorted(s: seq<Job>)
    requires SortedDesc(s)
    ensures SortByScore(s) == s
  {
    if s != [] {
      SortOfSorted(s[1..]);
      assert s == [s[0]] + s[1..];
    }
  }

  lemma {:induction false} KeyClassMembers(s: seq<Job>, k: int, y: Job)
    requires y in KeyClass(s, k)
    ensures y in s && KeyOf(y) == k
  {
    if KeyOf(s[0]) != k || y != s[0] {
      KeyClassMembers(s[1..], k, y);
    }
  }

  /** In a sorted sequence no key class has a larger key than the first element. */
  lemma HeadHasLargestKey(s: seq<Job>, k: int)
    requires SortedDesc(s) && KeyClass(s, k) != []
    ensures s != [] && k <= KeyOf(s[0])
  {
    var y := KeyClass(s, k)[0];
    KeyClassMembers(s, k, y);
  }

  /** The key class of a tail: the class of the whole, less the head when the head belongs to it. */
  lemma TailClass(s: seq<Job>, k: int)
    requires s != []
    ensures KeyClass(s[1..], k) == if KeyOf(s[0]) == k then KeyClass(s, k)[1..] else KeyClass(s, k)
  {
    if KeyOf(s[0]) == k {
      assert KeyClass(s, k) == [s[0]] + KeyClass(s[1..], k);
    } else {
      assert KeyClass(s, k) == [] + KeyClass(s[1..], k);
    }
  }

  /** The key of the first element has a non-empty class. */
  lemma NonEmptyClass(s: seq<Job>)
    requires s != []
    ensures KeyClass(s, KeyOf(s[0])) != []
  {
  }

  /** Two sorted sequences with the same key classes are the same sequence. */
  lemma {:induction false} SortedByClasses(r1: seq<Job>, r2: seq<Job>)
    requires SortedDesc(r1) && SortedDesc(r2) && SameClasses(r1, r2)
    ensures r1 == r2
    decreases |r1|
  {
    if r1 != [] && r2 != [] {
      var m := KeyOf(r1[0]);
      assert KeyClass(r1, m) == [r1[0]] + KeyClass(r1[1..], m);
      HeadHasLargestKey(r2, m);
      var m2 := KeyOf(r2[0]);
      assert KeyClass(r2, m2) == [r2[0]] + KeyClass(r2[1..], m2);
      HeadHasLargestKey(r1, m2);
      assert m == m2;
      assert KeyClass(r2, m) == [r2[0]] + KeyClass(r2[1..], m);
      assert r1[0] == KeyClass(r1, m)[0] == KeyClass(r2, m)[0] == r2[0];
      forall k ensures KeyClass(r1[1..], k) == KeyClass(r2[1..], k) {
        TailClass(r1, k);
        TailClass(r2, k);
        assert KeyClass(r1, k) == KeyClass(r2, k);
      }
      SortedRest(r1);
      SortedRest(r2);
      SortedByClasses(r1[1..], r2[1..]);
      assert r1 == [r1[0]] + r1[1..] && r2 == [r2[0]] + r2[1..];
    } else if r1 != [] {
      NonEmptyClass(r1);
    } else if r2 != [] {
      NonEmptyClass(r2);
    }
  }

  /** A sorted arrangement that keeps every key class of `s` in order is the sort of `s`. */
  lemma SortUnique(s: seq<Job>, r: seq<Job>)
    requires SortedDesc(r) && SameClasses(r, s)
    ensures r == SortByScore(s)
  {
    var sorted := SortByScore(s);
    forall k ensures KeyClass(r, k) == KeyClass(sorted, k) {
      SortIsStable(s, k);
    }
    SortedByClasses(r, sorted);
  }

  /**
   * `SortByScore(s)` is the one arrangement that is sorted largest first and
   * keeps the jobs of each score in input order.
   */
  lemma SortCharacterised(s: seq<Job>, r: seq<Job>)
    ensures r == SortByScore(s) <==> SortedDesc(r) && SameClasses(r, s)
  {
    if r == SortByScore(s) {
      forall k ensures KeyClass(r, k) == KeyClass(s, k) {
        SortIsStable(s, k);
      }
    } else if SortedDesc(r) && SameClasses(r, s) {
      SortUnique(s, r);
    }
  }

  /** The job a ranked job was scored from. */
  lemma RankedSource(jobs: seq<Job>, industries: seq<string>, i: int) returns (j: Job)
    requires 0 <= i < |Ranked(jobs, industries)|
    ensures j in jobs && Ranked(jobs, industries)[i] == WithScore(j, industries)
  {
    var scored := Scored(jobs, industries);
    var ranked := Ranked(jobs, industries);
    var x := ranked[i];
    assert x in multiset(ranked);
    assert x in multiset(scored);
    var n :| 0 <= n < |scored| && scored[n] == x;
    j := jobs[n];
  }

  /** Scoring an already scored job writes the same score again. */
  lemma RescoreUnchanged(job: Job, industries: seq<string>)
    ensures WithScore(WithScore(job, industries), industries) == WithScore(job, industries)
  {
    ScoreIgnoresOtherFields(job, WithScore(job, industries), industries);
  }

  /** Ranking a ranked list again changes nothing: scores are recomputed to the same values and the order stands. */
  lemma RerankIsIdentity(jobs: seq<Job>, industries: seq<string>)
    ensures Ranked(Ranked(jobs, industries), industries) == Ranked(jobs, industries)
  {
    var r := Ranked(jobs, industries);
    var rescored := Scored(r, industries);
    forall i | 0 <= i < |r| ensures rescored[i] == r[i] {
      var j := RankedSource(jobs, industries, i);
      RescoreUnchanged(j, industries);
    }
    assert rescored == r;
    SortOfSorted(r);
  }

  // -------------------------------------------------------------- searching

  /** The keyword loop over two runs of keywords is the one run followed by the other. */
  lemma {:induction false} GatherKeywordsAppend(location: string, k1: seq<string>, k2: seq<string>,
                                                search: (string, string) -> SearchOutcome)
    ensures GatherKeywords(location, k1 + k2, search)
         == GatherKeywords(location, k1, search) + GatherKeywords(location, k2, search)
    decreases |k2|
  {
    if k2 != [] {
      var n := |k2| - 1;
      assert (k1 + k2)[..|k1 + k2| - 1] == k1 + k2[..n];
      GatherKeywordsAppend(location, k1, k2[..n], search);
    } else {
      assert k1 + k2 == k1;
    }
  }

  /** The location loop over two runs of locations is the one run followed by the other. */
  lemma {:induction false} GatherAppend(l1: seq<string>, l2: seq<string>, keywords: seq<string>,
                                        search: (string, string) -> SearchOutcome)
    ensures Gather(l1 + l2, keywords, search) == Gather(l1, keywords, search) + Gather(l2, keywords, search)
    decreases |l2|
  {
    if l2 != [] {
      var n := |l2| - 1;
      assert (l1 + l2)[..|l1 + l2| - 1] == l1 + l2[..n];
      GatherAppend(l1, l2[..n], keywords, search);
    } else {
      assert l1 + l2 == l1;
    }
  }

  /** A search that raises adds nothing, and the keywords after it are still searched. */
  lemma RaisedSearchSkipped(location: string, before: seq<string>, keyword: string, after: seq<string>,
                            search: (string, string) -> SearchOutcome)
    requires search(keyword, location) == Raised
    ensures GatherKeywords(location, before + [keyword] + after, search)
         == GatherKeywords(location, before, search) + GatherKeywords(location, after, search)
  {
    var upTo := before + [keyword];
    assert upTo[..|upTo| - 1] == before && upTo[|upTo| - 1] == keyword;
    var gathered := GatherKeywords(location, before, search);
    assert GatherKeywords(location, upTo, search) == gathered + [] == gathered;
    GatherKeywordsAppend(location, upTo, after, search);
  }

  /** A posting gathered for one location came from one of its keyword searches. */
  lemma {:induction false} GatherKeywordsWitness(location: string, keywords: seq<string>,
                                                 search: (string, string) -> SearchOutcome, x: Job)
    returns (j: int)
    requires x in GatherKeywords(location, keywords, search)
    ensures 0 <= j < |keywords| && x in Contribution(search(keywords[j], location))
    decreases |keywords|
  {
    var n := |keywords| - 1;
    if x in Contribution(search(keywords[n], location)) {
      j := n;
    } else {
      j := GatherKeywordsWitness(location, keywords[..n], search, x);
      assert keywords[..n][j] == keywords[j];
    }
  }

  /** Every posting a keyword search of a location returned is gathered for that location. */
  lemma {:induction false} GatherKeywordsCollects(location: string, keywords: seq<string>,
                                                  search: (string, string) -> SearchOutcome, x: Job, j: int)
    requires 0 <= j < |keywords| && x in Contribution(search(keywords[j], location))
    ensures x in GatherKeywords(location, keywords, search)
    decreases |keywords|
  {
    var n := |keywords| - 1;
    if j < n {
      assert keywords[..n][j] == keywords[j];
      GatherKeywordsCollects(location, keywords[..n], search, x, j);
    }
  }

  /** A gathered posting came from some (location, keyword) search. */
  lemma {:induction false} GatherWitness(locations: seq<string>, keywords: seq<string>,
                                         search: (string, string) -> SearchOutcome, x: Job)
    returns (i: int, j: int)
    requires x in Gather(locations, keywords, search)
    ensures 0 <= i < |locations| && 0 <= j < |keywords|
    ensures x in Contribution(search(keywords[j], locations[i]))
    decreases |locations|
  {
    var n := |locations| - 1;
    if x in GatherKeywords(locations[n], keywords, search) {
      i := n;
      j := GatherKeywordsWitness(locations[n], keywords, search, x);
    } else {
      i, j := GatherWitness(locations[..n], keywords, search, x);
      assert locations[..n][i] == locations[i];
    }
  }

  /** Every posting any (location, keyword) search returned is gathered. */
  lemma {:induction false} GatherCollects(locations: seq<string>, keywords: seq<string>,
                                          search: (string, string) -> SearchOutcome, x: Job, i: int, j: int)
    requires 0 <= i < |locations| && 0 <= j < |keywords|
    requires x in Contribution(search(keywords[j], locations[i]))
    ensures x in Gather(locations, keywords, search)
    decreases |locations|
  {
    var n := |locations| - 1;
    assert Gather(locations, keywords, search)
        == Gather(locations[..n], keywords, search) + GatherKeywords(locations[n], keywords, search);
    if i < n {
      assert locations[..n][i] == locations[i];
      GatherCollects(locations[..n], keywords, search, x, i, j);
    } else {
      GatherKeywordsCollects(locations[n], keywords, search, x, j);
    }
  }

  /** A posting is gathered exactly when some (location, keyword) search returned it. */
  lemma GatherMembership(locations: seq<string>, keywords: seq<string>,
                         search: (string, string) -> SearchOutcome, x: Job)
    ensures x in Gather(locations, keywords, search) <==>
      exists i, j :: 0 <= i < |locations| && 0 <= j < |keywords| && x in Contribution(search(keywords[j], locations[i]))
  {
    if x in Gather(locations, keywords, search) {
      var i, j := GatherWitness(locations, keywords, search, x);
    }
    forall i, j | 0 <= i < |locations| && 0 <= j < |keywords| && x in Contribution(search(keywords[j], locations[i]))
      ensures x in Gather(locations, keywords, search)
    {
      GatherCollects(locations, keywords, search, x, i, j);
    }
  }

  // -------------------------------------------------------------- dispatching

  /**
   * Dispatch records the first `maxApplicationsPerDay` ranked jobs (all of
   * them when there are fewer), in ranked order, copying each job's fields,
   * with the status the auto-apply setting selects and the k-th clock reading.
   */
  lemma DispatchedRecords(ranked: seq<Job>, config: Config, clock: nat -> Timestamp)
    requires AllScored(ranked)
    ensures var d := Dispatched(ranked, config, clock);
      && (config.maxApplicationsPerDay >= 0 ==>
            |d| == if config.maxApplicationsPerDay <= |ranked| then config.maxApplicationsPerDay else |ranked|)
      && |d| <= |ranked|
      && forall k :: 0 <= k < |d| ==>
           && d[k].id == ranked[k].id
           && d[k].title == ranked[k].title
           && d[k].company == ranked[k].company
           && d[k].matchScore == ranked[k].matchScore.value
           && d[k].applicationUrl == ranked[k].url
           && d[k].at == clock(k)
           && d[k].status.Name() == (if config.autoApply then "ready_to_apply" else "to_review")
  {
    var n := SliceLength(config.maxApplicationsPerDay, |ranked|);
    var taken := ranked[..n];
    var d := Dispatched(ranked, config, clock);
    forall k | 0 <= k < |d| ensures d[k] == Record(ranked[k], StatusFor(config.autoApply), clock(k)) {
      assert taken[k] == ranked[k];
    }
  }

  /** One hunt never records more than `maxApplicationsPerDay` jobs. */
  lemma HuntRecordsBounded(config: Config, ledger: seq<LedgerRecord>, search: (string, string) -> SearchOutcome,
                           clock: nat -> Timestamp)
    requires config.maxApplicationsPerDay >= 0
    ensures |HuntRecords(config, ledger, search, clock)| <= config.maxApplicationsPerDay
  {
  }

  /**
   * Every record a hunt appends is for a job found by some search, passing
   * the filter against the ledger as it stood, and so with an id not yet in it.
   */
  lemma HuntRecordsNew(config: Config, ledger: seq<LedgerRecord>, search: (string, string) -> SearchOutcome,
                       clock: nat -> Timestamp)
    ensures forall r :: r in HuntRecords(config, ledger, search, clock) ==> r.id !in LedgerIds(ledger)
  {
    var found := Gather(config.locations, config.keywords, search);
    var relevant := Filtered(found, ledger, config);
    var ranked := Ranked(relevant, config.targetIndustries);
    var d := HuntRecords(config, ledger, search, clock);
    DispatchedRecords(ranked, config, clock);
    forall r | r in d ensures r.id !in LedgerIds(ledger) {
      var k :| 0 <= k < |d| && d[k] == r;
      var j := RankedSource(relevant, config.targetIndustries, k);
      FilterMembership(found, ledger, config, j);
    }
  }

  /** The records of one hunt come in ranked order: their scores never increase and stay within 0..11. */
  lemma HuntRecordsInScoreOrder(config: Config, ledger: seq<LedgerRecord>, search: (string, string) -> SearchOutcome,
                                clock: nat -> Timestamp)
    ensures var d := HuntRecords(config, ledger, search, clock);
      && (forall i, j :: 0 <= i < j < |d| ==> d[i].matchScore >= d[j].matchScore)
      && (forall i :: 0 <= i < |d| ==> 0 <= d[i].matchScore <= 11)
  {
    var found := Gather(config.locations, config.keywords, search);
    var relevant := Filtered(found, ledger, config);
    var ranked := Ranked(relevant, config.targetIndustries);
    var d := HuntRecords(config, ledger, search, clock);
    DispatchedRecords(ranked, config, clock);
    assert SortedDesc(ranked) by {
      assert ranked == SortByScore(Scored(relevant, config.targetIndustries));
    }
    forall i, j | 0 <= i < j < |d| ensures d[i].matchScore >= d[j].matchScore {
      assert KeyOf(ranked[i]) >= KeyOf(ranked[j]);
    }
    forall i | 0 <= i < |d| ensures 0 <= d[i].matchScore <= 11 {
      var j := RankedSource(relevant, config.targetIndustries, i);
    }
  }
}

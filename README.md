# Job hunter: a verified model of the filter, rank and dispatch pipeline

The job hunter is a personal job-search tool. It searches a job board for every configured
(location, keyword) pair. It concatenates the postings it finds and keeps those that look like
senior marketing, growth or web3 roles. It scores each survivor with an additive 0..11 match
score, sorts the survivors by score (largest first, ties in input order), and records the best
`MAX_APPLICATIONS_PER_DAY` of them in its in-memory ledger `applied_jobs`. A record is
`ready_to_apply` when `AUTO_APPLY` is set, and otherwise `to_review`. Around the pipeline there
are two small pure transformations:

- The LinkedIn normaliser turns the `elements` of a search payload into job records.
- The cover-letter generator fills four fixed templates and joins them with blank lines.

The model has six modules:

- `Wrappers`: the `Option` type.
- `Text`: the string operations the Python code relies on. `Lower` is `str.lower` on ASCII
  letters. `Contains` is Python's substring `in`, where the empty string is in every string; `ContainsIffOccurs` proves it holds exactly when the needle occurs at some position (`OccursAt`).
  `AnyIn` is `any(t in s for t in terms)`. `Join` is `str.join`.
- `JobHunting`: the data model (jobs, ledger records, configuration) and a function that
  specifies each stage: `Filtered`, `Score`, `SortByScore`, `Ranked`, `Gather`, `Dispatched`,
  `HuntRecords`. It also holds the class `JobHunter`, with the ledger as a mutable field and one
  method per operation of the Python class. Each method is proved equal to the function that
  specifies it. `_rank_jobs` writes scores into the jobs in place, so `RankJobs` works on an
  array.
- `JobHuntingProperties`: what the stages promise, proved about those functions.
- `LinkedIn`: `_parse_jobs` as a loop, with the normalisation of one element and its inverse.
- `CoverLetter`: the templates as chains of literal text and `{name}` fields, `str.format`
  as `Fill`, and `generate` with the exact letter it returns.

The search client and the clock are parameters of a hunt. A search is a function from
(keyword, location), in the argument order of `search_jobs`, to `Found(postings)` or `Raised`. The clock gives the k-th timestamp of the
hunt.

Some consequences of the code that are easy to miss:

- Scoring gives +3 only for "web3" or "blockchain" in the title, and +2 only for "web3",
  "blockchain" or "crypto" in the description. The company name and the word "defi" play no part
  in that tier. So a remote "Head of Growth" at "Acme DeFi" with an empty description scores
  2 + 2 + 1 = 5, or 6 when a target industry occurs in the company name.
- The normaliser never discards an element. A missing field becomes `None`.
- A search that raises is skipped and not retried. The remaining searches still run.
- The generated cover letter is dropped: neither the ledger record nor anything else keeps it.

## Model

| member | source | states |
|---|---|---|
| JobHunting.JobHunter.constructor | src/core/job_hunter.py:9-13 | a new hunter has an empty ledger and keeps its configuration |
| JobHunting.JobHunter.HuntJobs | src/core/job_hunter.py:15-45 | one hunt appends exactly `HuntRecords(config, old ledger, search, clock)` to the ledger and changes nothing else: search every pair, filter against the ledger as it stood, rank, dispatch the first `maxApplicationsPerDay` |
| JobHunting.JobHunter.SearchAll | src/core/job_hunter.py:18-29 | the nested search loop returns `Gather`: every (location, keyword) result in location-major, keyword-minor order, with a raising search contributing nothing |
| JobHunting.JobHunter.SearchLocation | src/core/job_hunter.py:22-29 | the keyword loop for one location returns `GatherKeywords`: each keyword's results in keyword order, a raising search contributing nothing and not stopping the loop |
| JobHunting.JobHunter.FilterJobs | src/core/job_hunter.py:47-92 | the filter loop returns `Filtered(jobs, ledger, config)` and does not change the ledger (it modifies nothing) |
| JobHunting.JobHunter.RankJobs | src/core/job_hunter.py:94-132 | after the loop every array slot holds its job with `match_score` written (`Scored`), and the result is the stable descending sort of the scored jobs |
| JobHunting.JobHunter.MatchScore | src/core/job_hunter.py:96-130 | the tiered additions for one job total `Score(job, industries)`, the score whose 0..11 bound and top-score condition are proved below |
| JobHunting.JobHunter.Dispatch | src/core/job_hunter.py:41-45 | the dispatch loop appends exactly `Dispatched(ranked, config, clock)` to the ledger: one record per job of `ranked[:MAX_APPLICATIONS_PER_DAY]`, applied or saved for review as `AUTO_APPLY` says |
| JobHunting.JobHunter.ApplyToJob | src/core/job_hunter.py:134-158 | appends one `ready_to_apply` record copying id, title, company, match score and url, stamped with the given time |
| JobHunting.JobHunter.SaveJobForReview | src/core/job_hunter.py:160-171 | appends one `to_review` record copying id, title, company, match score and url, stamped with the given time |
| JobHunting.LedgerIds | src/core/job_hunter.py:52 | an id is in the list `[j['id'] for j in self.applied_jobs]` iff some ledger record carries it, which is what the `in` test relies on |
| JobHunting.Keep | src/core/job_hunter.py:51-88 | the filter's test for one job: not in the ledger (a kept job's id differs from every ledger record's), no exclusion term in the lower-cased title, leadership (`IsLeadership`, :64-71) or "web3" in the title, and relevant role (`IsRelevantRole`, :80-86) or target industry in description or company (`IsTargetIndustry`, :74-77) |
| JobHunting.Web3Points | src/core/job_hunter.py:103-106 | the web3 tier adds 0, 2 or 3 |
| JobHunting.RemotePoints | src/core/job_hunter.py:109-110 | the remote tier adds 0 or 2 |
| JobHunting.LevelPoints | src/core/job_hunter.py:113-116 | the leadership-level tier adds 0, 1 or 2 |
| JobHunting.RolePoints | src/core/job_hunter.py:119-124 | the role tier adds between 0 and 3, one per matching role kind |
| JobHunting.IndustryPoints | src/core/job_hunter.py:127-128 | the industry tier adds 0 or 1 |
| JobHunting.Score | src/core/job_hunter.py:96-130 | every match score lies in 0..11 |
| JobHunting.SortByScore | src/core/job_hunter.py:132 | the sort returns a permutation of its input (same multiset) that is sorted by score, largest first |
| JobHunting.Ranked | src/core/job_hunter.py:94-132 | ranking returns a permutation of the scored input (same multiset), and every ranked job carries a match score |
| JobHunting.SliceLength | src/core/job_hunter.py:41 | `ranked[:n]` never has more elements than `ranked` |
| JobHuntingProperties.FilterPicksKeptPositions | src/core/job_hunter.py:49-92 | the filter output is the input at strictly increasing positions, and a position is picked exactly when its job passes `Keep`: an order-preserving subsequence |
| JobHuntingProperties.FilterMembership | src/core/job_hunter.py:47-92 | a job is in the output iff it is in the input and passes `Keep` |
| JobHuntingProperties.FilterMultiplicity | src/core/job_hunter.py:50-53 | a kept job keeps all its copies (duplicates within a batch are not removed), a dropped one keeps none |
| JobHuntingProperties.AppliedJobsDropped | src/core/job_hunter.py:51-53 | no output job has the id of a record already in the ledger |
| JobHuntingProperties.ExcludedTitleDropped | src/core/job_hunter.py:59-61 | a job whose lower-cased title contains an exclusion term is never in the output, whatever else it matches |
| JobHuntingProperties.KeptIff | src/core/job_hunter.py:63-89 | a job that is new to the ledger and not excluded is kept iff (leadership or "web3" in the title) and (relevant role or target industry) |
| JobHuntingProperties.ScoreIsElevenIff | src/core/job_hunter.py:102-128 | the score is 11 iff every bonus fires at its top tier |
| JobHuntingProperties.CryptoTitleNotRewarded | src/core/job_hunter.py:102-106 | without "web3"/"blockchain" in the title and crypto terms in the description, the web3 tier gives 0 |
| JobHuntingProperties.ScoreIgnoresOtherFields | src/core/job_hunter.py:96-128 | the score reads only title, company, location and description |
| JobHuntingProperties.SortIsStable | src/core/job_hunter.py:132 | for every score, the jobs with that score appear in the sorted output in their input order |
| JobHuntingProperties.SortOfSorted | src/core/job_hunter.py:132 | sorting an already sorted list leaves it unchanged |
| JobHuntingProperties.SortedByClasses | src/core/job_hunter.py:132 | two sorted lists with the same jobs of each score in the same order are equal |
| JobHuntingProperties.SortUnique | src/core/job_hunter.py:132 | any sorted arrangement that keeps each score's jobs in input order is the sort's output |
| JobHuntingProperties.SortCharacterised | src/core/job_hunter.py:132 | the sort's output is exactly the sorted, stable arrangement of its input |
| JobHuntingProperties.RankedSource | src/core/job_hunter.py:130-132 | every ranked job is one of the input jobs with its match score written |
| JobHuntingProperties.RerankIsIdentity | src/core/job_hunter.py:94-132 | ranking an already ranked list changes nothing |
| JobHuntingProperties.GatherKeywordsAppend | src/core/job_hunter.py:22-29 | the keyword loop over two runs of keywords is the first run's postings followed by the second's |
| JobHuntingProperties.GatherAppend | src/core/job_hunter.py:21-29 | the location loop over two runs of locations is the first run's postings followed by the second's |
| JobHuntingProperties.RaisedSearchSkipped | src/core/job_hunter.py:24-29 | a search that raises contributes nothing, and the keywords after it are still searched |
| JobHuntingProperties.GatherMembership | src/core/job_hunter.py:18-29 | a posting is gathered iff some (location, keyword) search returned it |
| JobHuntingProperties.DispatchedRecords | src/core/job_hunter.py:41-45 | dispatch records min(max, number ranked) jobs when max is not negative, in ranked order, each copying id, title, company, score and url, with status `ready_to_apply` iff auto-apply and the k-th clock reading |
| JobHuntingProperties.HuntRecordsBounded | src/core/job_hunter.py:41 | one hunt appends at most `maxApplicationsPerDay` records |
| JobHuntingProperties.HuntRecordsNew | src/core/job_hunter.py:34-45 | no record a hunt appends has an id that was already in the ledger |
| JobHuntingProperties.HuntRecordsInScoreOrder | src/core/job_hunter.py:37-45 | the records of one hunt have non-increasing scores, each within 0..11 |
| LinkedIn.ParseJobs | src/job_boards/linkedin_client.py:23-36 | one record per element of `elements`, in order, each the normalisation of its element and tagged "LinkedIn"; no `elements` key gives no records; no element is dropped and nothing is required of the payload |
| LinkedIn.Normalise | src/job_boards/linkedin_client.py:27-35 | the record for one element is tagged "LinkedIn" and restores to exactly the element's six copied fields, with nothing under any other key |
| LinkedIn.RestoreNormalise | src/job_boards/linkedin_client.py:27-33 | normalising copies the six fields field-for-field: an element holding only those keys is rebuilt exactly from its record |
| LinkedIn.NormaliseRestore | src/job_boards/linkedin_client.py:27-34 | every record tagged "LinkedIn" is the normalisation of some element, with a missing field as `None` |
| CoverLetter.Generate | src/utils/cover_letter_generator.py:18-46 | the letter is the intro (title and company filled in), the experience text verbatim, the alignment (company filled in between fixed phrases) and the closing (company filled in), in that order, joined by "\n\n" |
| CoverLetter.FillWithOwnNames | src/utils/cover_letter_generator.py:3-16 | `Fill` with each field's own `{name}` spelling returns the template's source text `Source(t)`, for every template |
| CoverLetter.FillIntro | src/utils/cover_letter_generator.py:30-33 | the intro section is the intro template with `{role}` replaced by the title and `{company}` by the company |
| CoverLetter.FillAlignment | src/utils/cover_letter_generator.py:35-41 | the alignment section puts the four extracted phrases and the company into their slots |
| CoverLetter.FillClosing | src/utils/cover_letter_generator.py:42-44 | the closing section is the closing template with the company filled in |
| Text.JoinFour | src/utils/cover_letter_generator.py:46 | joining four sections puts the separator between neighbours and nowhere else |
| CoverLetter.IntroThenExperience | src/utils/cover_letter_generator.py:29-34 | the letter starts with the filled intro, and the experience text follows it verbatim after one separator |
| CoverLetter.CompanyNamedThrice | src/utils/cover_letter_generator.py:30-44 | the company name occurs at three non-overlapping positions (intro, alignment, closing) |
| CoverLetter.ExtractorsIgnoreInput | src/utils/cover_letter_generator.py:48-66 | each of the four extractors returns the same phrase for any two inputs |
| CoverLetter.IgnoresDescription | src/utils/cover_letter_generator.py:48-66 | the extractors return constants, so the letter does not depend on the job description |
| CoverLetter.TitleRecoverable | src/utils/cover_letter_generator.py:30-33 | for a fixed company, equal letters mean equal job titles |

## Left out

- The LinkedIn client's constructor and `search_jobs` (network calls through a third-party library) are not part of this model. A hunt takes the search as a parameter that returns postings or raises.
- The postings a search returns are modelled as jobs whose text fields are strings. A `None` description that `_parse_jobs` can store would make `.lower()` raise in the filter. That crash path is not modelled.
- `Config.EXCLUDE_TERMS` and `Config.TARGET_INDUSTRIES`, read at src/core/job_hunter.py:60, :75-76 and :127, are not defined in src/config.py. As written, `_filter_jobs` raises `AttributeError` on the first posting that is not already in the ledger. The model takes both as fields of `Config`, as if they were defined.
- The resume analyser, the command-line entry point and configuration loading are not part of this model. The configuration constants are fields of `Config`, and the exclusion and target-industry terms are used exactly as given. The code does not lower-case them, and neither does the model.
- `print` output is not modelled.
- `datetime.now().isoformat()` is not modelled. The k-th record of a hunt is stamped `clock(k)` from a clock parameter.
- `str.lower` is modelled for ASCII letters only. Unicode case mapping is not modelled.
- Jobs are values. `_rank_jobs` writes `match_score` into the caller's dictionaries, and the model writes it into an array the caller hands over. Aliasing between that list and other references to the same dictionaries is not modelled.
- Ledger records keep the timestamp in one field, `at`. The source stores it under `date_applied` for `ready_to_apply` and under `date_saved` for `to_review`, and the status tells which key applies.
- JobHunting.JobHunter.ApplyToJob: the cover letter is generated and then dropped, as in the source. The model states nothing about it beyond `CoverLetter.Generate`.
- JobHunting.KeyOf: reads a missing score as 0. Every job that reaches the sort has a score, so that default is never used.
- LinkedIn.ParseJobs: element values are modelled as strings. The source copies whatever JSON value is stored under each key.
- `__init__` of the cover-letter generator only builds the constant templates. They are module constants here.

# DSA sheet progress engine — a Dafny model

This project models the progress-tracking and aggregation core of a DSA
practice-sheet backend. The catalog is a tree of chapters, topics and
problems. Each user has at most one progress record per problem.

The model covers:

- **Progress updates.** An update merges a partial DTO into the user's record
  for a problem. A solved status forces completion and stamps `completedAt`.
  An explicit `isCompleted: false` clears `completedAt`. `lastAttemptedAt` is
  always stamped. The attempt counter rises by one whenever a status other
  than NotStarted is set on a record that is absent or NotStarted, so a
  problem moved back to NotStarted and started again counts a second attempt.
- **Bulk updates.** These merge fields and stamp the time, and derive nothing
  else.
- **The sheet.** This is the catalog annotated with one user's progress, with
  per-topic and per-chapter totals, completed counts and rounded percentages.
- **User statistics.** Total, completed, remaining and percentage, plus a
  per-difficulty map that always has the keys Easy, Medium and Hard.
- **Catalog reads.** The active, order-sorted listings, the by-id lookups with
  their not-found errors, the bookmark and per-topic reads, and the problem
  search.

## Layout

- **`wrappers.dfy`**: `Option` and `Result`.
- **`schema.dfy`** (module `Schema`): the enums, the four document types, their
  creation defaults, the rating bounds and the unique (userId, problemId) index.
- **`listing.dfy`** (module `Listing`): the query primitives.
  - `Filter` is a find with a condition.
  - `SortBy` is `sort({order: 1})`, a stable insertion sort.
  - `FirstWithId` is `findById`.
- **`catalog.dfy`** (module `Catalog`): the `find*` listings and lookups, the
  parent checks used on creation, and `searchProblems`.
- **`progress_engine.dfy`** (module `ProgressEngine`): pure functions.
  - How an incoming update becomes an update document (`Derive`).
  - How the store merges such a document into a record (`Merge`).
  - The bulk variant (`PlainDoc`, `BulkMerged`).
- **`progress_store.dfy`** (module `ProgressStore`): the store as a map keyed by
  (userId, problemId), with the single and bulk upserts, the loop that applies
  a bulk update and counts matched and created items, and the per-user reads.
- **`sheet.dfy`** (module `SheetAggregator`): the sheet and its rollups, and
  the rounded percentage.
- **`stats.dfy`** (module `StatsAggregator`): the statistics and the loop that
  fills the difficulty map.
- **`service.dfy`** (module `Service`): class `DsaService`, which holds the
  catalog and the mutable progress store. Its methods are the service's
  state-changing and looping operations, each proved against the pure
  functions above.
- **`scenarios.dfy`** (module `Scenarios`): worked examples on a two-problem
  catalog.

Time is an integer `now` passed in by the caller. Ids are strings.

## Model

| member | source | states |
|---|---|---|
| Schema.FiveStatuses | src/dsa/schemas/dsa.schema.ts:113-119 | the status enumeration has exactly five distinct values and every status is among them |
| Schema.StatusNameRoundTrip | src/dsa/schemas/dsa.schema.ts:113-119 | status names parse back to their status, and a name parses to a status exactly when it is that status's stored string |
| Schema.DifficultyNameRoundTrip | src/dsa/schemas/dsa.schema.ts:52-56 | a difficulty is one of exactly three; names parse back and identify the difficulty (both directions) |
| Schema.NewChapter | src/dsa/schemas/dsa.schema.ts:8-23 | a created chapter keeps the supplied fields and defaults to order 0 and active |
| Schema.NewTopic | src/dsa/schemas/dsa.schema.ts:31-46 | a created topic keeps its required chapter reference and defaults to order 0 and active |
| Schema.NewProblem | src/dsa/schemas/dsa.schema.ts:59-107 | a created problem keeps its required topic reference and difficulty; order 0, active, not premium |
| Schema.DefaultProgress | src/dsa/schemas/dsa.schema.ts:122-158 | a fresh record for the pair is not completed, NotStarted, has 0 attempts, is not bookmarked and has every optional field unset |
| Schema.AtMostOneRecordPerPair | src/dsa/schemas/dsa.schema.ts:162-163 | under the unique index, two stored records with the same (userId, problemId) are the same record |
| Listing.FilterKeeps | src/dsa/dsa.service.ts:73-75 | a find keeps exactly the documents that satisfy the condition, each with its multiplicity, and no others |
| Listing.SortBy | src/dsa/dsa.service.ts:74 | sorting by order yields an ascending sequence that is a permutation of its input |
| Listing.FirstWithId | src/dsa/dsa.service.ts:78 | a lookup finds a document exactly when one with that id exists, and what it finds has that id |
| Catalog.FindAllChapters | src/dsa/dsa.service.ts:73-75 | exactly the active chapters, each as often as stored, ascending by order |
| Catalog.FindAllTopics | src/dsa/dsa.service.ts:97-103 | exactly the active topics, each as often as stored, ascending by order |
| Catalog.FindTopicsByChapter | src/dsa/dsa.service.ts:105-110 | exactly the active topics of the chapter, ascending by order |
| Catalog.FindAllProblems | src/dsa/dsa.service.ts:142-148 | exactly the active problems, ascending by order |
| Catalog.FindProblemsByTopic | src/dsa/dsa.service.ts:135-140 | exactly the active problems of the topic, ascending by order |
| Catalog.FindChapterById | src/dsa/dsa.service.ts:77-83 | succeeds exactly when a chapter (active or not) has the id, and returns it; otherwise ChapterNotFound |
| Catalog.FindTopicById | src/dsa/dsa.service.ts:112-121 | succeeds exactly when a topic has the id, and returns it; otherwise TopicNotFound |
| Catalog.FindProblemById | src/dsa/dsa.service.ts:150-156 | succeeds exactly when a problem has the id, and returns it; otherwise ProblemNotFound |
| Catalog.CheckTopicParent | src/dsa/dsa.service.ts:86-95 | creating a topic is allowed exactly when its chapter exists, and otherwise fails with ChapterNotFound |
| Catalog.CheckProblemParent | src/dsa/dsa.service.ts:124-133 | creating a problem is allowed exactly when its topic exists, and otherwise fails with TopicNotFound |
| Catalog.SearchProblems | src/dsa/dsa.service.ts:359-383 | exactly the active problems meeting every given filter (query in title, description or a tag, ignoring case; exact difficulty; a shared tag), ascending by order |
| Catalog.EmptySearchListsActiveProblems | src/dsa/dsa.service.ts:360-372 | with no query, difficulty or tags the search returns the same list as the active-problem listing |
| ProgressEngine.Derive | src/dsa/dsa.service.ts:168-188 | the update document stamps `lastAttemptedAt` with `now`; it increments attempts by one exactly when the update starts an attempt; a solved status sets completed with completion time `now`, otherwise `isCompleted` is the supplied value and the completion time is cleared exactly on an explicit `isCompleted: false`; the other supplied fields are carried over |
| ProgressEngine.PlainDoc | src/dsa/dsa.service.ts:347-350 | a bulk item's document is its supplied fields plus `lastAttemptedAt` = `now`: no derived completion, no completion time, no increment |
| ProgressEngine.Merge | src/dsa/dsa.service.ts:190-196 | the upsert keeps the record's (userId, problemId) and adds the document's increment to the counter; each field the document sets (`isCompleted`, `status`, `completedAt`, `notes`, `solutionCode`, `timeSpent`, `lastAttemptedAt`, `isBookmarked`, `difficultyRating`) takes the document's value, and each field it leaves unset keeps the stored value |
| ProgressEngine.MergeTakesSetFields | src/dsa/dsa.service.ts:190-196 | the set-or-keep rule above fixes every field: any record that satisfies it for a stored record and a document is the merged record |
| ProgressEngine.MergeEmptyDocKeeps | src/dsa/dsa.service.ts:190-196 | a document that sets nothing and increments nothing leaves the record unchanged |
| ProgressEngine.Updated | src/dsa/dsa.service.ts:159-199 | a single update's record carries the pair when created, keeps its pair otherwise, is stamped with `now`, is completed at `now` on a solved status, and its counter rises by at most one and never falls |
| ProgressEngine.BulkMerged | src/dsa/dsa.service.ts:341-353 | a bulk item's record carries the pair when created and keeps its pair otherwise. It is stamped with `now` and keeps its counter and completion time. Each field the item supplies (`isCompleted`, `status`, `notes`, `solutionCode`, `timeSpent`, `isBookmarked`, `difficultyRating`) takes the supplied value, and each field it does not supply keeps the stored value, or the default for a new record |
| ProgressEngine.BulkFieldsMerged | src/dsa/dsa.service.ts:341-353 | a bulk item keeps the pair, stamps `now`, keeps the counter and the completion time, copies every supplied field verbatim, and keeps every unsupplied one |
| ProgressEngine.SolvedForcesCompletion | src/dsa/dsa.service.ts:171-174 | a solved status yields a completed record with completion time `now`, even if the update said `isCompleted: false` |
| ProgressEngine.UncompletingClearsCompletionTime | src/dsa/dsa.service.ts:175-177 | without a solved status, an explicit `isCompleted: false` leaves the record uncompleted with no completion time |
| ProgressEngine.CompletionFields | src/dsa/dsa.service.ts:168-177 | the completion flag and time in every case, in terms of the update and the prior record |
| ProgressEngine.SuppliedFieldsMerged | src/dsa/dsa.service.ts:168-196 | `lastAttemptedAt` is `now`; every other supplied field is copied verbatim and every unsupplied one keeps its prior value; the key is kept |
| ProgressEngine.AttemptsRule | src/dsa/dsa.service.ts:183-188 | attempts rise by exactly one when a status other than NotStarted meets an absent or NotStarted record, and are unchanged otherwise |
| ProgressEngine.AttemptsMonotone | src/dsa/dsa.service.ts:183-188 | over any series of updates the attempt counter never decreases and rises by at most one per update |
| ProgressEngine.ReapplyingConverges | src/dsa/dsa.service.ts:168-196 | re-applying an update changes only the time stamps, never the counter or any other field |
| ProgressEngine.SolvedTwiceCountsOneAttempt | src/dsa/dsa.service.ts:183-188 | solving a fresh problem independently twice leaves one attempt, completed, with the second time stamp |
| ProgressEngine.NotStartedKeepsCompletion | src/dsa/dsa.service.ts:171-177 | setting the status back to NotStarted does not undo an earlier completion |
| ProgressEngine.RatingStoredUnchecked | src/dsa/schemas/dsa.schema.ts:156-157 | an in-range rating keeps the record in range 1..5; a supplied rating is stored as given |
| ProgressEngine.BulkDerivesNothing | src/dsa/dsa.service.ts:340-353 | a bulk item keeps the counter and completion time, takes `isCompleted` and status only as supplied, and stamps `lastAttemptedAt` |
| ProgressEngine.BulkAndSingleDiverge | src/dsa/dsa.service.ts:171-188 | the same "solved independently" update completes the record with one attempt when sent singly, but not when sent in bulk |
| ProgressStore.UpdateStore | src/dsa/dsa.service.ts:163-196 | after an update the store holds exactly its old pairs plus the updated pair, every other pair's record is unchanged, and the updated pair's record is the single-update record computed from its previous record, stamped with `now` |
| ProgressStore.BulkStep | src/dsa/dsa.service.ts:342-353 | one bulk operation adds its pair to the store's pairs and leaves every other pair's record unchanged. The pair's record becomes its previous record (or the default) with the item's fields merged, stamped with `now`, and with the counter kept |
| ProgressStore.BulkApply | src/dsa/dsa.service.ts:340-357 | a bulk update never removes a pair, every pair it adds belongs to the user, and every pair an item names is present and stamped with `now` |
| ProgressStore.BulkApplyLastWins | src/dsa/dsa.service.ts:340-357 | the bulk operations apply in order: a pair's final record is the item that last names it, merged over whatever the earlier items left for the pair |
| ProgressStore.ApplyBulk | src/dsa/dsa.service.ts:355-356 | applying the items one by one gives the bulk upsert and keeps the unique index; matched + upserted = number of items, and upserted is the number of pairs created |
| ProgressStore.UpdateStoreUpserts | src/dsa/dsa.service.ts:163-196 | an update keeps the unique index, leaves one record for the pair (from the defaults when absent) equal to the merged record, and touches no other pair |
| ProgressStore.UpdateStoreAttemptsMonotone | src/dsa/dsa.service.ts:183-196 | no record's attempt counter decreases under an update |
| ProgressStore.BulkStepKeys | src/dsa/dsa.service.ts:341-353 | one bulk operation keeps the unique index, adds its pair, and creates a new key exactly when the pair was absent |
| ProgressStore.BulkApplyUpserts | src/dsa/dsa.service.ts:340-357 | a bulk update keeps the unique index, adds exactly the user's named pairs, and leaves unnamed pairs untouched |
| ProgressStore.BulkApplyKeys | src/dsa/dsa.service.ts:340-357 | the pairs after a bulk update are the old pairs plus the pairs the items name |
| ProgressStore.BulkApplyFrame | src/dsa/dsa.service.ts:340-357 | a pair that is another user's, or that no item names, keeps its record |
| ProgressStore.BulkApplyKeepsAttempts | src/dsa/dsa.service.ts:340-357 | a bulk update keeps every existing attempt counter, and records it creates have 0 attempts |
| ProgressStore.BulkCreatesUncheckedRecords | src/dsa/dsa.service.ts:340-355 | a bulk update creates a record even for a problem id that resolves to no problem |
| ProgressStore.UserProgress | src/dsa/dsa.service.ts:201-206 | exactly the records stored under the user |
| ProgressStore.Bookmarked | src/dsa/dsa.service.ts:330-338 | exactly the user's records that are bookmarked |
| ProgressStore.UserProgressForTopic | src/dsa/dsa.service.ts:208-220 | exactly the user's records whose problem is an active problem of the topic |
| ProgressStore.BookmarkUpdateIsVisible | src/dsa/dsa.service.ts:330-338 | after an update that sets `isBookmarked`, the record is among the bookmarks exactly when the flag is true |
| SheetAggregator.Percent | src/dsa/dsa.service.ts:257 | 0 when there is nothing to complete, and at most 100 when completed does not exceed total |
| SheetAggregator.PercentIsRoundedRatio | src/dsa/dsa.service.ts:257 | the percentage is 100·c/t rounded half up: 2t·r ≤ 200c + t < 2t·(r + 1) |
| SheetAggregator.PercentExamples | src/dsa/dsa.service.ts:257 | 3/4 → 75, 1/2 → 50, 1/3 → 33, 2/3 → 67, 4/4 → 100, 0/0 → 0 |
| SheetAggregator.IndexOf | src/dsa/dsa.service.ts:224-230 | the progress map holds an entry for a problem exactly when the user has a record for it, and that entry is the record |
| SheetAggregator.MissingRecordShowsDefaults | src/dsa/dsa.service.ts:242-247 | a problem without a record shows not completed, NotStarted, 0 attempts, not bookmarked |
| SheetAggregator.TopicSheet | src/dsa/dsa.service.ts:237-258 | a topic view is for its topic and lists, position by position, the topic's active problems, each with the user's record or the default; total = number of problems, completed ≤ total, percentage ≤ 100 |
| SheetAggregator.ChapterSheet | src/dsa/dsa.service.ts:233-271 | a chapter view is for its chapter and has one topic view per active topic of the chapter, in order |
| SheetAggregator.Sheet | src/dsa/dsa.service.ts:222-276 | the sheet has one chapter view per active chapter, in order, and the view at each position is that chapter's sheet (its active topics, each with its active problems and the user's records) |
| SheetAggregator.SheetAsWritten | src/dsa/dsa.service.ts:222-276 | the service's sheet fails exactly when a record of the user points to a problem that does not exist; when it succeeds it is the sheet over the resolvable records |
| SheetAggregator.SumsCountAllViews | src/dsa/dsa.service.ts:262-263 | summing topic totals and completed counts counts the problems, and the completed problems, of all the topics |
| SheetAggregator.TopicSheetCorrect | src/dsa/dsa.service.ts:237-258 | a topic lists exactly its active problems in order, each with its record or the default, with completed ≤ total and percentage = rounded ratio ≤ 100 |
| SheetAggregator.TopicSheetRollup | src/dsa/dsa.service.ts:250-257 | a topic's figures are its problem count, its completed count, and their rounded percentage |
| SheetAggregator.ChapterSheetCorrect | src/dsa/dsa.service.ts:233-271 | a chapter lists its active topics in order; its totals are the sums over its topics, with completed ≤ total and percentage ≤ 100 |
| SheetAggregator.SheetCorrect | src/dsa/dsa.service.ts:222-276 | the sheet lists the active chapters in order, each position holding that chapter's sheet, and every chapter and topic in it satisfies its rollup |
| SheetAggregator.DanglingRecordFailsSheet | src/dsa/dsa.service.ts:228-230 | one bulk-created record for a nonexistent problem makes the whole sheet request fail |
| SheetAggregator.ResolvedIndex | src/dsa/dsa.service.ts:226-230 | the progress map limited to records whose problem exists |
| SheetAggregator.SheetIgnoringDangling | src/dsa/dsa.service.ts:222-276 | the corrected sheet is the sheet over the resolvable records, and equals the service's result whenever no record dangles |
| SheetAggregator.SheetIgnoresUnlistedRecords | src/dsa/dsa.service.ts:240-248 | records for problems outside the catalog cannot change the sheet |
| SheetAggregator.ChapterSheetIgnoresUnlistedRecords | src/dsa/dsa.service.ts:233-271 | the same, for one chapter |
| SheetAggregator.TopicSheetIgnoresUnlistedRecords | src/dsa/dsa.service.ts:237-258 | the same, for one topic |
| StatsAggregator.DifficultyOf | src/dsa/dsa.service.ts:292-300 | a record's problem resolves exactly when a problem with that id exists, and the difficulty found is that of such a problem; unresolvable ones are dropped |
| StatsAggregator.FillDifficultyStats | src/dsa/dsa.service.ts:310-318 | the map has exactly the keys Easy, Medium and Hard, each holding the last group's count for it or 0 |
| StatsAggregator.GroupingRestoresCounts | src/dsa/dsa.service.ts:302-318 | overwriting the three zeros with a grouping that omits empty groups gives back every difficulty's count, zero ones included |
| StatsAggregator.GroupedCountsAreCounts | src/dsa/dsa.service.ts:284-318 | filling the zeros from the grouping gives each difficulty's number of completed records |
| StatsAggregator.StatsOf | src/dsa/dsa.service.ts:278-327 | the service's statistics: total counts the active problems; completed counts every completed record of the user (:281); remaining = total − completed; the percentage is the rounded share of completed in total, 0 when there are no problems (:324); the table is exactly the three keys, each holding the number of the user's completed records whose problem has that difficulty (:310-318) |
| StatsAggregator.DifficultyCounts | src/dsa/dsa.service.ts:284-318 | the table has exactly the three difficulties, each holding the number of the user's completions of a problem of that difficulty |
| StatsAggregator.StatsFacts | src/dsa/dsa.service.ts:278-327 | the difficulty counts add up to the completions whose problem exists, so never exceed the completed count |
| StatsAggregator.DifficultyPartition | src/dsa/dsa.service.ts:284-308 | the three difficulty groups' sizes add up to the number of completed records whose problem exists |
| StatsAggregator.DifficultyCover | src/dsa/dsa.service.ts:284-308 | the completed records whose problem exists are the union of the three difficulty groups |
| StatsAggregator.InactiveCompletionOvercounts | src/dsa/dsa.service.ts:279-281 | with one active and one deactivated completed problem the statistics report total 1, completed 2, remaining −1, 200% |
| StatsAggregator.ActiveStatsOf | src/dsa/dsa.service.ts:278-327 | the corrected statistics: total counts the active problems; completed is the number of active problems the user has a completed record for, so completed ≤ total and 0 ≤ remaining = total − completed; the percentage is the rounded share of completed in total, at most 100; the table is exactly the three keys, each holding the user's completed active problems of that difficulty, and together they add up to the completed count |
| StatsAggregator.ActiveDifficultyCounts | src/dsa/dsa.service.ts:284-318 | the corrected table has exactly the three difficulties, each the user's completions of active problems of that difficulty, adding up to all the user's completions of active problems |
| StatsAggregator.DifficultiesSplitCompleted | src/dsa/dsa.service.ts:284-318 | the completions of active problems split into the three difficulties |
| StatsAggregator.ActiveCompletedAgrees | src/dsa/dsa.service.ts:279-281 | when problem ids are unique and every completed record of the user is for an existing, active problem, the corrected completed count equals the service's count of completed records |
| StatsAggregator.ActiveDifficultyAgrees | src/dsa/dsa.service.ts:284-318 | under the same conditions, each corrected difficulty count equals the service's |
| StatsAggregator.ActiveStatsAgree | src/dsa/dsa.service.ts:278-327 | under the same conditions, the corrected statistics are exactly the service's statistics |
| Service.DsaService.UpdateUserProgress | src/dsa/dsa.service.ts:159-199 | fails with ProblemNotFound exactly when the problem does not exist, leaving the store unchanged; otherwise the store becomes the single-update upsert and the record returned is the one stored |
| Service.DsaService.BulkUpdateProgress | src/dsa/dsa.service.ts:340-357 | the store becomes the in-order bulk upsert; matched + upserted counts equal the number of items, and upserted is the number of new pairs |
| Service.DsaService.GetDsaSheetWithProgress | src/dsa/dsa.service.ts:222-276 | the result is the corrected sheet, one chapter sheet per active chapter in order, built over the user's records whose problem exists |
| Service.DsaService.GetUserStats | src/dsa/dsa.service.ts:278-327 | the result is the corrected statistics (ActiveStatsOf): completed counts the user's completed active problems, the percentage is their rounded share, and the table holds them per difficulty. These coincide with the service's figures when problem ids are unique and every completed record of the user is for an existing, active problem. Completed ≤ total, remaining ≥ 0, and the table has exactly the three difficulty keys |
| Scenarios.SolvingOneOfTwo | src/dsa/dsa.service.ts:278-327 | solving "Two Sum" out of two active problems gives 1 completed, 1 remaining, 50% and Easy 1, Medium 0, Hard 0 |
| Scenarios.SearchIgnoresCaseAndSortsByOrder | src/dsa/dsa.service.ts:359-383 | "SUM" matches "Two Sum" and "3Sum", returned in ascending order whatever the stored order |
| Scenarios.SearchWithDifficulty | src/dsa/dsa.service.ts:359-383 | query "sum" with difficulty "Easy" returns only the Easy match |

## Left out

- Mongo and Mongoose mechanics are not modelled: ObjectId conversion,
  `populate`, and the `$lookup`/`$unwind`/`$group` pipeline. They become
  sequence filters, maps and set counts. A populated reference that resolves
  to nothing is modelled as the failure it causes in the sheet.
- Regular expressions: the search query is treated as a literal,
  ASCII-case-insensitive substring. Regex metacharacters and Unicode case
  folding are not modelled.
- Sort ties: Mongo leaves the order of equal `order` values unspecified. The
  model uses a stable sort, and its contracts promise only ascending order and
  a permutation.
- Concurrency is not modelled. This covers the find-then-upsert race in
  `updateUserProgress`, the parallel fan-out in the sheet, and `bulkWrite`
  atomicity. Every step runs sequentially.
- The clock is a parameter. A bulk update uses one `now` for all its items.
- A single update reads the clock twice: once for `completedAt` (src/dsa/dsa.service.ts:174) and once for `lastAttemptedAt` (:180). The model uses one `now` for both, so it cannot show the two times differing by the milliseconds between the calls.
- `Math.round` on floating-point values is modelled by exact integer
  rounding half up. Float artefacts of `c / t * 100` are not modelled. For
  example, in IEEE doubles 23 / 40 * 100 is 57.49999999999999, so the
  source reports 57 where `Percent(23, 40)` is 58.
- Catalog creation (`createChapter`, `createTopic`, `createProblem`) is
  modelled only by its parent-exists check and the schema defaults.
  Persistence and timestamps are left out.
- Required schema fields (`chapterId`, `topicId`, `difficulty`) are
  non-optional fields of the datatypes, so a document without them cannot be
  built.
- The HTTP controller, authentication, users, module wiring, configuration,
  the console scripts and the older duplicate schema under `src/schemas/`
  are not part of this model.
- Input validation: the code validates neither the status enum nor the
  1..5 rating on updates. The update uses `findOneAndUpdate` without
  validators, and the DTOs are plain interfaces. `ProgressEngine.RatingStoredUnchecked`
  records this: a supplied rating is stored as given, so `RatingInRange` is
  kept only when the inputs satisfy it.
- Request bodies are assumed to carry only the seven declared update fields,
  each either absent or a well-typed value. The source does not enforce this.
  The body is typed by an interface, so the global validation pipe has no
  class to check against, and `{ ...updateProgressDto }` forwards the body
  as sent. Mongoose drops only paths outside the schema. As a result:
  - a body may also set `attempts`, `completedAt`, `userId` or `problemId`
    directly. For example, `{"attempts": 0}` resets the counter, and with a
    status that starts an attempt the same path also collides with the
    `$inc`. The model cannot express such a body.
  - an explicit JSON `null` clears a field in the source. The model's `None`
    means "not supplied" and keeps the prior value.
  - non-integer `timeSpent` or `difficultyRating` values, and status strings
    outside the five known ones, cannot be expressed.
- ProgressEngine.AttemptsMonotone: holds only for bodies limited to the
  declared fields. A body that sets `attempts` itself can lower the counter.
- ProgressStore.UpdateStoreAttemptsMonotone: holds only for bodies limited to
  the declared fields, for the same reason.
- ProgressStore.UserProgressForTopic: requires the unique-index invariant
  `Keyed`. The store the service holds always keeps it (`DsaService.Valid`).
- Service.DsaService.BulkUpdateProgress: the result reports only matched
  and upserted counts. The rest of Mongo's bulk-write result is left out.

## Findings

| source | as written | input that shows it | evidently intended | confidence | as-written member | corrected member |
|---|---|---|---|---|---|---|
| src/dsa/dsa.service.ts:279-281 | `totalProblems` counts only active problems, but `completedProblems` counts every completed record of the user, including those of deactivated problems | one active and one deactivated problem, both completed: total 1, completed 2, remaining −1, percentage 200 | count only completions of active problems, so that completed ≤ total, remaining ≥ 0 and the percentage is at most 100 | medium, not executed | StatsAggregator.InactiveCompletionOvercounts | StatsAggregator.ActiveStatsOf |
| src/dsa/dsa.service.ts:228-230 | the progress map reads `progress.problemId._id` of each populated record; for a record whose problem does not exist the populated reference is null, and the whole request fails. `bulkUpdateProgress` creates such records because it checks no problem id | a bulk update with an unknown problem id, then a request for the sheet | skip records whose problem does not resolve, as the statistics pipeline already does | high, not executed | SheetAggregator.DanglingRecordFailsSheet | SheetAggregator.SheetIgnoringDangling |

`Service.DsaService` uses the corrected definitions. `GetUserStats` is
proved against `ActiveStatsOf`, and `GetDsaSheetWithProgress` against
`SheetIgnoringDangling`. The code's own behaviour stays modelled by `StatsOf`
and `SheetAsWritten`, and the two as-written lemmas exhibit each discrepancy.
`SheetIgnoringDangling` also proves that the corrected sheet agrees with
`SheetAsWritten` whenever no record dangles.

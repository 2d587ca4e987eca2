/**
 * The DSA service: the catalog it reads and the progress store it writes,
 * with the operations that change the store (a single progress update,
 * a bulk update) and the two aggregating reads that walk it (the sheet and
 * the statistics).
 */
module Service {
  import opened Wrappers
  import opened Schema
  import opened Catalog
  import opened ProgressEngine
  import opened ProgressStore
  import opened SheetAggregator
  import opened StatsAggregator

  /** What `bulkWrite` reports: items that found an existing record, and items that created one. */
  datatype BulkResult = BulkResult(matchedCount: nat, upsertedCount: nat)

  class DsaService {
    const chapters: seq<Chapter>
    const topics: seq<Topic>
    const problems: seq<Problem>
    /** The progress collection, keyed by its unique (userId, problemId) index. */
    var progress: Store

    ghost predicate Valid()
      reads this
    {
      Keyed(progress)
    }

    constructor (chapters: seq<Chapter>, topics: seq<Topic>, problems: seq<Problem>)
      ensures Valid()
      ensures this.chapters == chapters && this.topics == topics && this.problems == problems
      ensures progress == map[]
    {
      this.chapters := chapters;
      this.topics := topics;
      this.problems := problems;
      progress := map[];
    }

    /**
     * Applies one partial update to the user's record for a problem: fails
     * with ProblemNotFound, changing nothing, when the problem does not
     * exist; otherwise upserts the record with the derived fields.
     */
    method UpdateUserProgress(userId: Id, problemId: Id, dto: ProgressUpdate, now: int)
      returns (r: Result<ProgressRecord, NotFound>)
      requires Valid()
      modifies this
      ensures Valid()
      ensures r.Failure? <==> !HasProblem(problems, problemId)
      ensures r.Failure? ==> r.error == ProblemNotFound && progress == old(progress)
      ensures r.Success? ==>
                && progress == UpdateStore(old(progress), userId, problemId, dto, now)
                && r.value == progress[(userId, problemId)]
    {
      var found := FindProblemById(problems, problemId);
      if found.Failure? {
        return Failure(found.error);
      }

      var updateData := Spread(dto);
      if dto.status.Some? && IsSolved(dto.status.value) {
        updateData := updateData.(isCompleted := Some(true), completedAt := Some(Some(now)));
      } else if dto.isCompleted == Some(false) {
        updateData := updateData.(completedAt := Some(None));
      }
      updateData := updateData.(lastAttemptedAt := Some(now));

      var existing := Lookup(progress, userId, problemId);
      if dto.status.Some? && dto.status.value != NotStarted {
        if existing.None? || existing.value.status == NotStarted {
          updateData := updateData.(incAttempts := 1);
        }
      }
      assert updateData == Derive(existing, dto, now);

      var record := Merge(BaseOf(existing, userId, problemId), updateData);
      UpdateStoreUpserts(progress, userId, problemId, dto, now);
      progress := progress[(userId, problemId) := record];
      r := Success(record);
    }

    /**
     * Merges each item's fields into the user's record for its problem, in
     * order, creating records as needed; nothing is derived and no problem
     * id is checked.
     */
    method BulkUpdateProgress(userId: Id, items: seq<BulkItem>, now: int) returns (result: BulkResult)
      requires Valid()
      modifies this
      ensures Valid()
      ensures progress == BulkApply(old(progress), userId, items, now)
      ensures result.matchedCount + result.upsertedCount == |items|
      ensures result.upsertedCount == |progress.Keys - old(progress).Keys|
    {
      var store, matched, upserted := ApplyBulk(progress, userId, items, now);
      progress := store;
      result := BulkResult(matched, upserted);
    }

    /**
     * The sheet for the user: indexes the user's records by problem id,
     * skipping any record whose problem does not exist, then builds the
     * nested views and rollups.
     */
    method GetDsaSheetWithProgress(userId: Id) returns (r: seq<ChapterView>)
      requires Valid()
      ensures r == SheetIgnoringDangling(chapters, topics, problems, progress, userId)
    {
      var index: ProgressIndex := map[];
      var pending := progress.Keys;
      while pending != {}
        invariant pending <= progress.Keys
        invariant forall p :: p in index <==> (userId, p) in progress && (userId, p) !in pending && HasProblem(problems, p)
        invariant forall p :: p in index ==> index[p] == progress[(userId, p)]
        decreases pending
      {
        var k :| k in pending;
        if k.0 == userId {
          var record := progress[k];
          // the record's problem, as looked up when the records were read
          var looked := FindProblemById(problems, record.problemId);
          if looked.Success? {
            index := index[record.problemId := record];
          }
        }
        pending := pending - {k};
      }
      assert index == ResolvedIndex(progress, problems, userId);
      r := Sheet(chapters, topics, problems, index);
    }

    /**
     * The user's statistics over the active problems, with a count for each
     * of the three difficulties.
     */
    method GetUserStats(userId: Id) returns (s: Stats)
      ensures s == ActiveStatsOf(problems, progress, userId)
      ensures s.completedProblems <= s.totalProblems && s.remainingProblems >= 0
      ensures s.difficultyStats.Keys == {Easy, Medium, Hard}
    {
      var store := progress;
      var active := Listing.Filter(problems, ProblemActive);
      var totalProblems := |active|;
      var completedProblems := |Listing.Filter(active, CompletedTest(store, userId))|;
      var e := CompletedActiveOf(active, store, userId, Easy);
      var m := CompletedActiveOf(active, store, userId, Medium);
      var h := CompletedActiveOf(active, store, userId, Hard);
      var difficultyStats := FillDifficultyStats(Grouping(e, m, h));
      GroupingRestoresCounts(e, m, h, Easy);
      GroupingRestoresCounts(e, m, h, Medium);
      GroupingRestoresCounts(e, m, h, Hard);
      CountsEqual(difficultyStats, ActiveDifficultyCounts(active, store, userId));
      s := Stats(totalProblems, completedProblems, totalProblems - completedProblems,
                 Percent(completedProblems, totalProblems), difficultyStats);
    }
  }
}

/**
 * The progress update engine as pure functions: how an incoming partial
 * update becomes the update document sent to the store (with the status
 * derivations and the attempt increment), and how the store merges such a
 * document into the existing record or into a freshly defaulted one.
 */
module ProgressEngine {
  import opened Wrappers
  import opened Schema

  /** The fields a caller may supply; `None` means "not supplied". */
  datatype ProgressUpdate = ProgressUpdate(
    isCompleted: Option<bool>,
    status: Option<SolutionStatus>,
    notes: Option<string>,
    solutionCode: Option<string>,
    timeSpent: Option<int>,
    isBookmarked: Option<bool>,
    difficultyRating: Option<int>)

  /**
   * What the store is asked to do to one record: set every `Some` field
   * (`completedAt` may be set to null, hence the nested Option) and add
   * `incAttempts` to the attempt counter.
   */
  datatype UpdateDoc = UpdateDoc(
    isCompleted: Option<bool>,
    status: Option<SolutionStatus>,
    completedAt: Option<Option<int>>,
    notes: Option<string>,
    solutionCode: Option<string>,
    timeSpent: Option<int>,
    isBookmarked: Option<bool>,
    difficultyRating: Option<int>,
    lastAttemptedAt: Option<int>,
    incAttempts: nat)

  /** The update document that copies the supplied fields and nothing else. */
  function Spread(dto: ProgressUpdate): UpdateDoc {
    UpdateDoc(dto.isCompleted, dto.status, None, dto.notes, dto.solutionCode,
              dto.timeSpent, dto.isBookmarked, dto.difficultyRating, None, 0)
  }

  predicate IsSolved(s: SolutionStatus) {
    s == SolvedWithHelp || s == SolvedIndependently
  }

  /** The update sets the status to one of the two solved statuses. */
  predicate MarksSolved(dto: ProgressUpdate) {
    dto.status.Some? && IsSolved(dto.status.value)
  }

  /**
   * The update moves the problem out of "not started": it sets a status
   * other than NotStarted while the existing record is absent or NotStarted.
   */
  predicate StartsAttempt(existing: Option<ProgressRecord>, dto: ProgressUpdate) {
    && dto.status.Some? && dto.status.value != NotStarted
    && (existing.None? || existing.value.status == NotStarted)
  }

  /**
   * The update document of a single progress update made at time `now`:
   * the supplied fields, completion forced by a solved status or its time
   * cleared by an explicit `isCompleted: false`, the time stamp, and one
   * attempt exactly when the update starts one.
   */
  function Derive(existing: Option<ProgressRecord>, dto: ProgressUpdate, now: int): (doc: UpdateDoc)
    ensures doc.lastAttemptedAt == Some(now)
    ensures doc.incAttempts == (if StartsAttempt(existing, dto) then 1 else 0)
    ensures MarksSolved(dto) ==> doc.isCompleted == Some(true) && doc.completedAt == Some(Some(now))
    ensures !MarksSolved(dto) ==> doc.isCompleted == dto.isCompleted
    ensures !MarksSolved(dto) && dto.isCompleted == Some(false) ==> doc.completedAt == Some(None)
    ensures !MarksSolved(dto) && dto.isCompleted != Some(false) ==> doc.completedAt.None?
    ensures doc.status == dto.status && doc.notes == dto.notes && doc.solutionCode == dto.solutionCode
    ensures doc.timeSpent == dto.timeSpent && doc.isBookmarked == dto.isBookmarked
    ensures doc.difficultyRating == dto.difficultyRating
  {
    var spread := Spread(dto);
    var withCompletion :=
      if MarksSolved(dto) then spread.(isCompleted := Some(true), completedAt := Some(Some(now)))
      else if dto.isCompleted == Some(false) then spread.(completedAt := Some(None))
      else spread;
    withCompletion.(lastAttemptedAt := Some(now), incAttempts := if StartsAttempt(existing, dto) then 1 else 0)
  }

  /** The update document of one item of a bulk update: the supplied fields and the time, nothing derived. */
  function PlainDoc(dto: ProgressUpdate, now: int): (doc: UpdateDoc)
    ensures doc.lastAttemptedAt == Some(now) && doc.incAttempts == 0 && doc.completedAt.None?
    ensures doc.isCompleted == dto.isCompleted && doc.status == dto.status
    ensures doc.notes == dto.notes && doc.solutionCode == dto.solutionCode && doc.timeSpent == dto.timeSpent
    ensures doc.isBookmarked == dto.isBookmarked && doc.difficultyRating == dto.difficultyRating
  {
    Spread(dto).(lastAttemptedAt := Some(now))
  }

  /** The record an upsert starts from: the existing one, or a new one with the schema defaults. */
  function BaseOf(existing: Option<ProgressRecord>, userId: Id, problemId: Id): ProgressRecord {
    if existing.Some? then existing.value else DefaultProgress(userId, problemId)
  }

  /** The update document that changes nothing. */
  function EmptyDoc(): UpdateDoc {
    UpdateDoc(None, None, None, None, None, None, None, None, None, 0)
  }

  /**
   * `r` is `base` after the update document: the key is kept, the counter
   * is incremented, every field the document sets takes the document's
   * value and every field it leaves unset keeps the stored one.
   */
  predicate MergeFields(base: ProgressRecord, doc: UpdateDoc, r: ProgressRecord) {
    && KeyOf(r) == KeyOf(base) && r.attempts == base.attempts + doc.incAttempts
    && (doc.isCompleted.Some? ==> r.isCompleted == doc.isCompleted.value)
    && (doc.isCompleted.None? ==> r.isCompleted == base.isCompleted)
    && (doc.status.Some? ==> r.status == doc.status.value)
    && (doc.status.None? ==> r.status == base.status)
    && (doc.completedAt.Some? ==> r.completedAt == doc.completedAt.value)
    && (doc.completedAt.None? ==> r.completedAt == base.completedAt)
    && (doc.notes.Some? ==> r.notes == doc.notes)
    && (doc.notes.None? ==> r.notes == base.notes)
    && (doc.solutionCode.Some? ==> r.solutionCode == doc.solutionCode)
    && (doc.solutionCode.None? ==> r.solutionCode == base.solutionCode)
    && (doc.timeSpent.Some? ==> r.timeSpent == doc.timeSpent)
    && (doc.timeSpent.None? ==> r.timeSpent == base.timeSpent)
    && (doc.lastAttemptedAt.Some? ==> r.lastAttemptedAt == doc.lastAttemptedAt)
    && (doc.lastAttemptedAt.None? ==> r.lastAttemptedAt == base.lastAttemptedAt)
    && (doc.isBookmarked.Some? ==> r.isBookmarked == doc.isBookmarked.value)
    && (doc.isBookmarked.None? ==> r.isBookmarked == base.isBookmarked)
    && (doc.difficultyRating.Some? ==> r.difficultyRating == doc.difficultyRating)
    && (doc.difficultyRating.None? ==> r.difficultyRating == base.difficultyRating)
  }

  /** The store's merge: every field the document sets is replaced, the counter is incremented, the rest is kept. */
  function Merge(base: ProgressRecord, doc: UpdateDoc): (r: ProgressRecord)
    ensures MergeFields(base, doc, r)
  {
    ProgressRecord(
      base.userId,
      base.problemId,
      if doc.isCompleted.Some? then doc.isCompleted.value else base.isCompleted,
      if doc.status.Some? then doc.status.value else base.status,
      if doc.completedAt.Some? then doc.completedAt.value else base.completedAt,
      if doc.notes.Some? then doc.notes else base.notes,
      if doc.solutionCode.Some? then doc.solutionCode else base.solutionCode,
      if doc.timeSpent.Some? then doc.timeSpent else base.timeSpent,
      base.attempts + doc.incAttempts,
      if doc.lastAttemptedAt.Some? then doc.lastAttemptedAt else base.lastAttemptedAt,
      if doc.isBookmarked.Some? then doc.isBookmarked.value else base.isBookmarked,
      if doc.difficultyRating.Some? then doc.difficultyRating else base.difficultyRating)
  }

  /** The merge rule fixes every field: the merged record is the only record that satisfies it. */
  lemma MergeTakesSetFields(base: ProgressRecord, doc: UpdateDoc, r: ProgressRecord)
    requires MergeFields(base, doc, r)
    ensures r == Merge(base, doc)
  {
  }

  /** A document that sets nothing and adds no attempt leaves the record as it was. */
  lemma MergeEmptyDocKeeps(base: ProgressRecord)
    ensures Merge(base, EmptyDoc()) == base
  {
  }

  /**
   * The record a single progress update leaves for (userId, problemId): a
   * new record carries the pair, the time is stamped, a solved status
   * completes it, and the counter never falls.
   */
  function Updated(existing: Option<ProgressRecord>, userId: Id, problemId: Id, dto: ProgressUpdate, now: int): (r: ProgressRecord)
    ensures existing.None? ==> KeyOf(r) == (userId, problemId)
    ensures existing.Some? ==> KeyOf(r) == KeyOf(existing.value)
    ensures r.lastAttemptedAt == Some(now)
    ensures MarksSolved(dto) ==> r.isCompleted && r.completedAt == Some(now)
    ensures AttemptsOf(existing) <= r.attempts <= AttemptsOf(existing) + 1
  {
    Merge(BaseOf(existing, userId, problemId), Derive(existing, dto, now))
  }

  /**
   * `r` is `base` with every field the update supplies taken from it and
   * every field it does not supply kept.
   */
  predicate SuppliedOrKept(base: ProgressRecord, dto: ProgressUpdate, r: ProgressRecord) {
    && r.isCompleted == (if dto.isCompleted.Some? then dto.isCompleted.value else base.isCompleted)
    && r.status == (if dto.status.Some? then dto.status.value else base.status)
    && r.notes == (if dto.notes.Some? then dto.notes else base.notes)
    && r.solutionCode == (if dto.solutionCode.Some? then dto.solutionCode else base.solutionCode)
    && r.timeSpent == (if dto.timeSpent.Some? then dto.timeSpent else base.timeSpent)
    && r.isBookmarked == (if dto.isBookmarked.Some? then dto.isBookmarked.value else base.isBookmarked)
    && r.difficultyRating == (if dto.difficultyRating.Some? then dto.difficultyRating else base.difficultyRating)
  }

  /**
   * The record one bulk item leaves for (userId, problemId): the pair's
   * record with the supplied fields merged, the time stamped, and the
   * counter and completion time kept.
   */
  function BulkMerged(existing: Option<ProgressRecord>, userId: Id, problemId: Id, dto: ProgressUpdate, now: int): (r: ProgressRecord)
    ensures existing.None? ==> KeyOf(r) == (userId, problemId)
    ensures existing.Some? ==> KeyOf(r) == KeyOf(existing.value)
    ensures r.lastAttemptedAt == Some(now)
    ensures r.attempts == AttemptsOf(existing)
    ensures r.completedAt == BaseOf(existing, userId, problemId).completedAt
    ensures SuppliedOrKept(BaseOf(existing, userId, problemId), dto, r)
  {
    Merge(BaseOf(existing, userId, problemId), PlainDoc(dto, now))
  }

  // ---------------------------------------------------------------------
  // The derivation rules

  /** Setting a solved status forces completion at `now`, whatever `isCompleted` the caller supplied. */
  lemma SolvedForcesCompletion(existing: Option<ProgressRecord>, userId: Id, problemId: Id, dto: ProgressUpdate, now: int)
    requires MarksSolved(dto)
    ensures Updated(existing, userId, problemId, dto, now).isCompleted
    ensures Updated(existing, userId, problemId, dto, now).completedAt == Some(now)
  {
  }

  /** Without a solved status, an explicit `isCompleted: false` clears the completion time, whatever the status. */
  lemma UncompletingClearsCompletionTime(existing: Option<ProgressRecord>, userId: Id, problemId: Id, dto: ProgressUpdate, now: int)
    requires !MarksSolved(dto) && dto.isCompleted == Some(false)
    ensures !Updated(existing, userId, problemId, dto, now).isCompleted
    ensures Updated(existing, userId, problemId, dto, now).completedAt == None
  {
  }

  /**
   * Completion flag and time in every case: forced by a solved status,
   * otherwise the supplied flag (or the prior one), and the prior time
   * unless the flag is explicitly cleared.
   */
  lemma CompletionFields(existing: Option<ProgressRecord>, userId: Id, problemId: Id, dto: ProgressUpdate, now: int)
    ensures var r := Updated(existing, userId, problemId, dto, now);
            var base := BaseOf(existing, userId, problemId);
            && r.isCompleted == (MarksSolved(dto) || (if dto.isCompleted.Some? then dto.isCompleted.value else base.isCompleted))
            && r.completedAt == (if MarksSolved(dto) then Some(now)
                                 else if dto.isCompleted == Some(false) then None
                                 else base.completedAt)
  {
  }

  /**
   * Every update stamps `lastAttemptedAt`, copies each other supplied field
   * verbatim and keeps each unsupplied one; the record keeps its key.
   */
  lemma SuppliedFieldsMerged(existing: Option<ProgressRecord>, userId: Id, problemId: Id, dto: ProgressUpdate, now: int)
    ensures var r := Updated(existing, userId, problemId, dto, now);
            var base := BaseOf(existing, userId, problemId);
            && r.userId == base.userId && r.problemId == base.problemId
            && r.lastAttemptedAt == Some(now)
            && r.status == (if dto.status.Some? then dto.status.value else base.status)
            && r.notes == (if dto.notes.Some? then dto.notes else base.notes)
            && r.solutionCode == (if dto.solutionCode.Some? then dto.solutionCode else base.solutionCode)
            && r.timeSpent == (if dto.timeSpent.Some? then dto.timeSpent else base.timeSpent)
            && r.isBookmarked == (if dto.isBookmarked.Some? then dto.isBookmarked.value else base.isBookmarked)
            && r.difficultyRating == (if dto.difficultyRating.Some? then dto.difficultyRating else base.difficultyRating)
  {
  }

  /**
   * The counter rises by exactly one whenever the update sets a status other
   * than NotStarted on a record that is absent or NotStarted (so each return
   * from NotStarted counts again), and is otherwise unchanged; it never
   * decreases.
   */
  lemma AttemptsRule(existing: Option<ProgressRecord>, userId: Id, problemId: Id, dto: ProgressUpdate, now: int)
    ensures var r := Updated(existing, userId, problemId, dto, now);
            var prior := BaseOf(existing, userId, problemId).attempts;
            && r.attempts == (if StartsAttempt(existing, dto) then prior + 1 else prior)
            && r.attempts >= prior
  {
  }

  /**
   * Re-applying the same update converges: only the time stamps move
   * (`lastAttemptedAt`, and `completedAt` when the update marks the problem
   * solved), the attempt counter does not.
   */
  lemma ReapplyingConverges(existing: Option<ProgressRecord>, userId: Id, problemId: Id, dto: ProgressUpdate, now1: int, now2: int)
    ensures var first := Updated(existing, userId, problemId, dto, now1);
            var second := Updated(Some(first), userId, problemId, dto, now2);
            second == first.(lastAttemptedAt := Some(now2),
                             completedAt := if MarksSolved(dto) then Some(now2) else first.completedAt)
  {
  }

  /** Solving a fresh problem independently twice leaves one attempt, completion, and the second time stamp. */
  lemma SolvedTwiceCountsOneAttempt(userId: Id, problemId: Id, now1: int, now2: int)
    ensures var dto := ProgressUpdate(None, Some(SolvedIndependently), None, None, None, None, None);
            var first := Updated(None, userId, problemId, dto, now1);
            var second := Updated(Some(first), userId, problemId, dto, now2);
            && first.attempts == 1 && second.attempts == 1
            && second.isCompleted && second.completedAt == Some(now2)
            && first.lastAttemptedAt == Some(now1) && second.lastAttemptedAt == Some(now2)
  {
  }

  /** Setting the status back to NotStarted does not undo a completion. */
  lemma NotStartedKeepsCompletion(existing: Option<ProgressRecord>, userId: Id, problemId: Id, now: int)
    requires existing.Some? && existing.value.isCompleted
    ensures var dto := ProgressUpdate(None, Some(NotStarted), None, None, None, None, None);
            var r := Updated(existing, userId, problemId, dto, now);
            r.status == NotStarted && r.isCompleted && r.completedAt == existing.value.completedAt
  {
  }

  /** The rating is stored as supplied: an in-range rating keeps the record in range, an out-of-range one is not rejected. */
  lemma RatingStoredUnchecked(existing: Option<ProgressRecord>, userId: Id, problemId: Id, dto: ProgressUpdate, now: int)
    ensures var r := Updated(existing, userId, problemId, dto, now);
            && (RatingInRange(BaseOf(existing, userId, problemId).difficultyRating) && RatingInRange(dto.difficultyRating)
                ==> RatingInRange(r.difficultyRating))
            && (dto.difficultyRating.Some? ==> r.difficultyRating == dto.difficultyRating)
  {
  }

  // ---------------------------------------------------------------------
  // A series of updates to one (user, problem) pair

  /** One update made at time `at`. */
  datatype Step = Step(dto: ProgressUpdate, at: int)

  /** The record after applying `steps` in order, starting from `existing`. */
  function ApplySteps(existing: Option<ProgressRecord>, userId: Id, problemId: Id, steps: seq<Step>): Option<ProgressRecord>
    decreases |steps|
  {
    if steps == [] then existing
    else
      var prior := ApplySteps(existing, userId, problemId, steps[..|steps| - 1]);
      var last := steps[|steps| - 1];
      Some(Updated(prior, userId, problemId, last.dto, last.at))
  }

  /** The attempt count of an optional record (0 when there is none). */
  function AttemptsOf(r: Option<ProgressRecord>): nat {
    if r.Some? then r.value.attempts else 0
  }

  /**
   * Over any series of updates the attempt counter never decreases, and it
   * rises by at most one per update.
   */
  lemma {:induction false} AttemptsMonotone(existing: Option<ProgressRecord>, userId: Id, problemId: Id, steps: seq<Step>, k: nat)
    requires k <= |steps|
    ensures AttemptsOf(existing) <= AttemptsOf(ApplySteps(existing, userId, problemId, steps[..k]))
    ensures AttemptsOf(ApplySteps(existing, userId, problemId, steps[..k]))
            <= AttemptsOf(ApplySteps(existing, userId, problemId, steps))
    ensures AttemptsOf(ApplySteps(existing, userId, problemId, steps)) <= AttemptsOf(existing) + |steps|
    decreases |steps|
  {
    if steps != [] {
      var init := steps[..|steps| - 1];
      var prior := ApplySteps(existing, userId, problemId, init);
      var last := steps[|steps| - 1];
      AttemptsRule(prior, userId, problemId, last.dto, last.at);
      if k < |steps| {
        assert steps[..k] == init[..k];
        AttemptsMonotone(existing, userId, problemId, init, k);
      } else {
        assert steps[..k] == steps;
        AttemptsMonotone(existing, userId, problemId, init, 0);
      }
    } else {
      assert steps[..k] == steps;
    }
  }

  // ---------------------------------------------------------------------
  // Bulk items

  /**
   * A bulk item merges the supplied fields and stamps the time, but derives
   * nothing: no forced completion, no completion time, no attempt increment.
   */
  lemma BulkDerivesNothing(existing: Option<ProgressRecord>, userId: Id, problemId: Id, dto: ProgressUpdate, now: int)
    ensures var r := BulkMerged(existing, userId, problemId, dto, now);
            var base := BaseOf(existing, userId, problemId);
            && r.attempts == base.attempts
            && r.isCompleted == (if dto.isCompleted.Some? then dto.isCompleted.value else base.isCompleted)
            && r.completedAt == base.completedAt
            && r.lastAttemptedAt == Some(now)
            && r.status == (if dto.status.Some? then dto.status.value else base.status)
  {
  }

  /**
   * A bulk item keeps the pair, stamps the time, keeps the counter and the
   * completion time, and copies each supplied field while keeping each
   * unsupplied one.
   */
  lemma BulkFieldsMerged(existing: Option<ProgressRecord>, userId: Id, problemId: Id, dto: ProgressUpdate, now: int)
    ensures var r := BulkMerged(existing, userId, problemId, dto, now);
            var base := BaseOf(existing, userId, problemId);
            && r.userId == base.userId && r.problemId == base.problemId
            && r.lastAttemptedAt == Some(now)
            && r.attempts == base.attempts && r.completedAt == base.completedAt
            && r.notes == (if dto.notes.Some? then dto.notes else base.notes)
            && r.solutionCode == (if dto.solutionCode.Some? then dto.solutionCode else base.solutionCode)
            && r.timeSpent == (if dto.timeSpent.Some? then dto.timeSpent else base.timeSpent)
            && r.isBookmarked == (if dto.isBookmarked.Some? then dto.isBookmarked.value else base.isBookmarked)
            && r.difficultyRating == (if dto.difficultyRating.Some? then dto.difficultyRating else base.difficultyRating)
  {
  }

  /** The same "solved independently" update gives a completed record with one attempt singly, and neither in bulk. */
  lemma BulkAndSingleDiverge(userId: Id, problemId: Id, now: int)
    ensures var dto := ProgressUpdate(None, Some(SolvedIndependently), None, None, None, None, None);
            var single := Updated(None, userId, problemId, dto, now);
            var bulk := BulkMerged(None, userId, problemId, dto, now);
            && single.isCompleted && single.attempts == 1
            && !bulk.isCompleted && bulk.attempts == 0 && bulk.status == SolvedIndependently
  {
  }
}

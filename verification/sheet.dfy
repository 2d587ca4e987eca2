/**
 * The sheet aggregator: the whole catalog (active chapters, their active
 * topics, their active problems, each level ordered) annotated with one
 * user's progress, with completion totals and percentages rolled up per
 * topic and per chapter.
 */
module SheetAggregator {
  import opened Wrappers
  import opened Schema
  import opened Listing
  import opened Catalog
  import opened ProgressStore

  /** A problem's progress as the sheet shows it: the stored record, or the default for "no record". */
  datatype ProgressView = Stored(record: ProgressRecord) | Untouched {
    function IsCompleted(): bool {
      if Stored? then record.isCompleted else false
    }
    function Status(): SolutionStatus {
      if Stored? then record.status else NotStarted
    }
    function Attempts(): nat {
      if Stored? then record.attempts else 0
    }
    function IsBookmarked(): bool {
      if Stored? then record.isBookmarked else false
    }
  }

  datatype ProblemView = ProblemView(problem: Problem, progress: ProgressView)

  datatype TopicView = TopicView(
    topic: Topic,
    problems: seq<ProblemView>,
    totalProblems: nat,
    completedProblems: nat,
    completionPercentage: nat)

  datatype ChapterView = ChapterView(
    chapter: Chapter,
    topics: seq<TopicView>,
    totalProblems: nat,
    completedProblems: nat,
    completionPercentage: nat)

  /** One user's records, indexed by problem id. */
  type ProgressIndex = map<Id, ProgressRecord>

  /**
   * `completed` out of `total` as a whole percentage, rounded half up;
   * 0 when there is nothing to complete.
   */
  function Percent(completed: nat, total: nat): (r: nat)
    ensures total == 0 ==> r == 0
    ensures completed <= total ==> r <= 100
  {
    if total == 0 then 0
    else
      var r := (200 * completed + total) / (2 * total);
      PercentBounds(completed, total, r);
      r
  }

  lemma PercentBounds(completed: nat, total: nat, r: nat)
    requires total > 0 && r == (200 * completed + total) / (2 * total)
    ensures completed <= total ==> r <= 100
  {
    if completed <= total {
      assert 2 * total * r <= 200 * completed + total <= 201 * total;
      assert (101 - r) * (2 * total) > 0;
    }
  }

  /**
   * The percentage is the whole number nearest to 100 * completed / total,
   * halves rounded up: r <= 100c/t + 1/2 < r + 1.
   */
  lemma PercentIsRoundedRatio(completed: nat, total: nat)
    requires total > 0
    ensures var r := Percent(completed, total);
            2 * total * r <= 200 * completed + total < 2 * total * r + 2 * total
  {
  }

  /** The rounding on 3 of 4, 1 of 2, 1 of 3, 2 of 3, 4 of 4 and 0 of 0. */
  lemma PercentExamples()
    ensures Percent(3, 4) == 75 && Percent(1, 2) == 50 && Percent(0, 0) == 0
    ensures Percent(1, 3) == 33 && Percent(2, 3) == 67 && Percent(4, 4) == 100
  {
  }

  /** The user's records indexed by problem id. */
  function IndexOf(store: Store, userId: Id): (index: ProgressIndex)
    ensures forall p :: p in index <==> (userId, p) in store
    ensures forall p :: p in index ==> index[p] == store[(userId, p)]
  {
    map k | k in store && k.0 == userId :: k.1 := store[k]
  }

  function ProgressFor(index: ProgressIndex, problemId: Id): ProgressView {
    if problemId in index then Stored(index[problemId]) else Untouched
  }

  /** A problem without a record shows as not completed, not started, no attempts, not bookmarked. */
  lemma MissingRecordShowsDefaults(index: ProgressIndex, problemId: Id)
    requires problemId !in index
    ensures var v := ProgressFor(index, problemId);
            !v.IsCompleted() && v.Status() == NotStarted && v.Attempts() == 0 && !v.IsBookmarked()
  {
  }

  function ViewsOf(problems: seq<Problem>, index: ProgressIndex): seq<ProblemView> {
    seq(|problems|, i requires 0 <= i < |problems| => ProblemView(problems[i], ProgressFor(index, problems[i].id)))
  }

  predicate ViewCompleted(v: ProblemView) {
    v.progress.IsCompleted()
  }

  function CompletedCount(views: seq<ProblemView>): nat {
    |Filter(views, ViewCompleted)|
  }

  /** One topic of the sheet: its active problems in order, each with the user's progress, and their figures. */
  function TopicSheet(t: Topic, problems: seq<Problem>, index: ProgressIndex): (tv: TopicView)
    ensures tv.topic == t
    ensures var ps := FindProblemsByTopic(problems, t.id);
            && |tv.problems| == |ps| == tv.totalProblems
            && forall k :: 0 <= k < |ps| ==> tv.problems[k] == ProblemView(ps[k], ProgressFor(index, ps[k].id))
    ensures tv.completedProblems <= tv.totalProblems && tv.completionPercentage <= 100
  {
    var views := ViewsOf(FindProblemsByTopic(problems, t.id), index);
    var completed := CompletedCount(views);
    TopicView(t, views, |views|, completed, Percent(completed, |views|))
  }

  function SumTotals(tvs: seq<TopicView>): nat {
    if tvs == [] then 0 else tvs[0].totalProblems + SumTotals(tvs[1..])
  }

  function SumCompleted(tvs: seq<TopicView>): nat {
    if tvs == [] then 0 else tvs[0].completedProblems + SumCompleted(tvs[1..])
  }

  /** One chapter of the sheet: one view per active topic of the chapter, in order. */
  function ChapterSheet(c: Chapter, topics: seq<Topic>, problems: seq<Problem>, index: ProgressIndex): (cv: ChapterView)
    ensures cv.chapter == c
    ensures var ts := FindTopicsByChapter(topics, c.id);
            && |cv.topics| == |ts|
            && forall j :: 0 <= j < |ts| ==> cv.topics[j].topic == ts[j]
  {
    var ts := FindTopicsByChapter(topics, c.id);
    var tvs := seq(|ts|, j requires 0 <= j < |ts| => TopicSheet(ts[j], problems, index));
    var total := SumTotals(tvs);
    var completed := SumCompleted(tvs);
    ChapterView(c, tvs, total, completed, Percent(completed, total))
  }

  /** The sheet for the user whose records are `index`: one chapter sheet per active chapter, in order. */
  function Sheet(chapters: seq<Chapter>, topics: seq<Topic>, problems: seq<Problem>, index: ProgressIndex): (r: seq<ChapterView>)
    ensures var cs := FindAllChapters(chapters);
            && |r| == |cs|
            && forall i :: 0 <= i < |cs| ==> r[i].chapter == cs[i] && r[i] == ChapterSheet(cs[i], topics, problems, index)
  {
    var cs := FindAllChapters(chapters);
    seq(|cs|, i requires 0 <= i < |cs| => ChapterSheet(cs[i], topics, problems, index))
  }

  // ---------------------------------------------------------------------
  // Rollup invariants

  /** The problem views of all the topics, in order. */
  function AllViews(tvs: seq<TopicView>): seq<ProblemView> {
    if tvs == [] then [] else tvs[0].problems + AllViews(tvs[1..])
  }

  /** A topic's figures: its own problem count, completed count, and their rounded percentage. */
  ghost predicate TopicRollup(tv: TopicView) {
    && tv.totalProblems == |tv.problems|
    && tv.completedProblems == CompletedCount(tv.problems)
    && tv.completedProblems <= tv.totalProblems
    && tv.completionPercentage == Percent(tv.completedProblems, tv.totalProblems)
    && tv.completionPercentage <= 100
  }

  /** A chapter's figures count the problems of all its topics. */
  ghost predicate ChapterRollup(cv: ChapterView) {
    && (forall j :: 0 <= j < |cv.topics| ==> TopicRollup(cv.topics[j]))
    && cv.totalProblems == |AllViews(cv.topics)|
    && cv.completedProblems == CompletedCount(AllViews(cv.topics))
    && cv.completedProblems <= cv.totalProblems
    && cv.completionPercentage == Percent(cv.completedProblems, cv.totalProblems)
    && cv.completionPercentage <= 100
  }

  /** Summing topic figures counts the problems of all the topics. */
  lemma {:induction false} SumsCountAllViews(tvs: seq<TopicView>)
    requires forall j :: 0 <= j < |tvs| ==> TopicRollup(tvs[j])
    ensures SumTotals(tvs) == |AllViews(tvs)|
    ensures SumCompleted(tvs) == CompletedCount(AllViews(tvs))
  {
    if tvs != [] {
      SumsCountAllViews(tvs[1..]);
      FilterConcat(tvs[0].problems, AllViews(tvs[1..]), ViewCompleted);
    }
  }

  /**
   * A topic's view lists exactly its active problems in order, each with
   * the user's record or the default, and its figures are consistent.
   */
  lemma TopicSheetCorrect(t: Topic, problems: seq<Problem>, index: ProgressIndex)
    ensures var tv := TopicSheet(t, problems, index);
            var ps := FindProblemsByTopic(problems, t.id);
            && tv.topic == t
            && |tv.problems| == |ps|
            && (forall k :: 0 <= k < |ps| ==>
                  && tv.problems[k].problem == ps[k]
                  && tv.problems[k].progress == (if ps[k].id in index then Stored(index[ps[k].id]) else Untouched))
            && TopicRollup(tv)
  {
  }

  /** A chapter's view lists its active topics in order and its figures count all their problems. */
  lemma ChapterSheetCorrect(c: Chapter, topics: seq<Topic>, problems: seq<Problem>, index: ProgressIndex)
    ensures var cv := ChapterSheet(c, topics, problems, index);
            var ts := FindTopicsByChapter(topics, c.id);
            && cv.chapter == c
            && |cv.topics| == |ts|
            && (forall j :: 0 <= j < |ts| ==> cv.topics[j] == TopicSheet(ts[j], problems, index))
            && ChapterRollup(cv)
  {
    var ts := FindTopicsByChapter(topics, c.id);
    var tvs := seq(|ts|, j requires 0 <= j < |ts| => TopicSheet(ts[j], problems, index));
    forall j | 0 <= j < |tvs| ensures TopicRollup(tvs[j]) {
      TopicSheetRollup(ts[j], problems, index);
    }
    SumsCountAllViews(tvs);
  }

  lemma TopicSheetRollup(t: Topic, problems: seq<Problem>, index: ProgressIndex)
    ensures TopicRollup(TopicSheet(t, problems, index))
  {
  }

  /** The sheet has one chapter sheet per active chapter, in order, and every level's figures are consistent. */
  lemma SheetCorrect(chapters: seq<Chapter>, topics: seq<Topic>, problems: seq<Problem>, index: ProgressIndex)
    ensures var sheet := Sheet(chapters, topics, problems, index);
            var cs := FindAllChapters(chapters);
            && |sheet| == |cs|
            && forall i :: 0 <= i < |cs| ==>
                 sheet[i].chapter == cs[i] && sheet[i] == ChapterSheet(cs[i], topics, problems, index) && ChapterRollup(sheet[i])
  {
    var cs := FindAllChapters(chapters);
    forall i | 0 <= i < |cs| ensures ChapterRollup(ChapterSheet(cs[i], topics, problems, index)) {
      ChapterSheetCorrect(cs[i], topics, problems, index);
    }
  }

  // ---------------------------------------------------------------------
  // Records whose problem does not exist

  /** The user has a record whose problem id resolves to no problem. */
  predicate HasDanglingRecord(store: Store, problems: seq<Problem>, userId: Id) {
    exists k :: k in store && k.0 == userId && !HasProblem(problems, k.1)
  }

  datatype SheetError = NullProblemReference

  /**
   * The sheet as the service computes it: building the index dereferences
   * each record's looked-up problem, which is null for a record whose
   * problem does not exist, and the whole request fails.
   */
  function SheetAsWritten(chapters: seq<Chapter>, topics: seq<Topic>, problems: seq<Problem>, store: Store, userId: Id): (r: Result<seq<ChapterView>, SheetError>)
    ensures r.Failure? <==> HasDanglingRecord(store, problems, userId)
    ensures r.Success? ==> r.value == Sheet(chapters, topics, problems, ResolvedIndex(store, problems, userId))
  {
    if HasDanglingRecord(store, problems, userId) then Failure(NullProblemReference)
    else
      assert IndexOf(store, userId) == ResolvedIndex(store, problems, userId);
      Success(Sheet(chapters, topics, problems, IndexOf(store, userId)))
  }

  /** A single record for a problem that does not exist makes the whole sheet fail. */
  lemma DanglingRecordFailsSheet(chapters: seq<Chapter>, topics: seq<Topic>, problems: seq<Problem>, userId: Id, problemId: Id, dto: ProgressEngine.ProgressUpdate, now: int)
    requires !HasProblem(problems, problemId)
    ensures var store := BulkApply(map[], userId, [BulkItem(problemId, dto)], now);
            SheetAsWritten(chapters, topics, problems, store, userId) == Failure(NullProblemReference)
  {
    var store := BulkApply(map[], userId, [BulkItem(problemId, dto)], now);
    BulkCreatesUncheckedRecords(problems, userId, problemId, dto, now);
    assert (userId, problemId) in store;
  }

  /** The index restricted to the records whose problem exists. */
  function ResolvedIndex(store: Store, problems: seq<Problem>, userId: Id): (index: ProgressIndex)
    ensures forall p :: p in index <==> (userId, p) in store && HasProblem(problems, p)
    ensures forall p :: p in index ==> index[p] == store[(userId, p)]
  {
    map k | k in store && k.0 == userId && HasProblem(problems, k.1) :: k.1 := store[k]
  }

  /**
   * The sheet that skips records whose problem does not exist: it is the
   * sheet over the resolvable records alone, and it is what the service
   * returns whenever there is no such record.
   */
  function SheetIgnoringDangling(chapters: seq<Chapter>, topics: seq<Topic>, problems: seq<Problem>, store: Store, userId: Id): (r: seq<ChapterView>)
    ensures r == Sheet(chapters, topics, problems, ResolvedIndex(store, problems, userId))
    ensures !HasDanglingRecord(store, problems, userId) ==>
              SheetAsWritten(chapters, topics, problems, store, userId) == Success(r)
  {
    SheetIgnoresUnlistedRecords(chapters, topics, problems, IndexOf(store, userId), ResolvedIndex(store, problems, userId));
    Sheet(chapters, topics, problems, IndexOf(store, userId))
  }

  /** Two indexes that agree on every existing problem give the same sheet. */
  lemma SheetIgnoresUnlistedRecords(chapters: seq<Chapter>, topics: seq<Topic>, problems: seq<Problem>, index1: ProgressIndex, index2: ProgressIndex)
    requires forall p :: HasProblem(problems, p) ==> ProgressFor(index1, p) == ProgressFor(index2, p)
    ensures Sheet(chapters, topics, problems, index1) == Sheet(chapters, topics, problems, index2)
  {
    var cs := FindAllChapters(chapters);
    forall i | 0 <= i < |cs|
      ensures ChapterSheet(cs[i], topics, problems, index1) == ChapterSheet(cs[i], topics, problems, index2)
    {
      ChapterSheetIgnoresUnlistedRecords(cs[i], topics, problems, index1, index2);
    }
  }

  lemma ChapterSheetIgnoresUnlistedRecords(c: Chapter, topics: seq<Topic>, problems: seq<Problem>, index1: ProgressIndex, index2: ProgressIndex)
    requires forall p :: HasProblem(problems, p) ==> ProgressFor(index1, p) == ProgressFor(index2, p)
    ensures ChapterSheet(c, topics, problems, index1) == ChapterSheet(c, topics, problems, index2)
  {
    var ts := FindTopicsByChapter(topics, c.id);
    var tvs1 := seq(|ts|, j requires 0 <= j < |ts| => TopicSheet(ts[j], problems, index1));
    var tvs2 := seq(|ts|, j requires 0 <= j < |ts| => TopicSheet(ts[j], problems, index2));
    forall j | 0 <= j < |ts| ensures tvs1[j] == tvs2[j] {
      TopicSheetIgnoresUnlistedRecords(ts[j], problems, index1, index2);
    }
    assert tvs1 == tvs2;
  }

  lemma TopicSheetIgnoresUnlistedRecords(t: Topic, problems: seq<Problem>, index1: ProgressIndex, index2: ProgressIndex)
    requires forall p :: HasProblem(problems, p) ==> ProgressFor(index1, p) == ProgressFor(index2, p)
    ensures TopicSheet(t, problems, index1) == TopicSheet(t, problems, index2)
  {
    var ps := FindProblemsByTopic(problems, t.id);
    forall k | 0 <= k < |ps| ensures ProgressFor(index1, ps[k].id) == ProgressFor(index2, ps[k].id) {
      assert ps[k] in problems;
      assert HasProblem(problems, ps[k].id);
    }
    assert ViewsOf(ps, index1) == ViewsOf(ps, index2);
  }
}

/**
 * Worked examples over a two-problem catalog: one user solves "Two Sum" and
 * the statistics report half the sheet done, and the search matches titles
 * ignoring case and returns its results ascending by order.
 */
module Scenarios {
  import opened Wrappers
  import opened Schema
  import opened Listing
  import opened Catalog
  import opened ProgressEngine
  import opened ProgressStore
  import opened StatsAggregator
  import opened SheetAggregator

  function TwoSum(): Problem {
    NewProblem("two-sum", "Two Sum", "Find two numbers adding up to a target", "arrays", Easy)
  }

  function ThreeSum(): Problem {
    NewProblem("three-sum", "3Sum", "Find all triplets with zero total", "arrays", Medium).(order := 1)
  }

  function SolveIndependently(): ProgressUpdate {
    ProgressUpdate(None, Some(SolvedIndependently), None, None, None, None, None)
  }

  /** Solving one of two active problems: 1 completed, 1 remaining, 50%, one Easy. */
  lemma SolvingOneOfTwo(userId: Id, now: int)
    ensures var store := UpdateStore(map[], userId, "two-sum", SolveIndependently(), now);
            var s := StatsOf([TwoSum(), ThreeSum()], store, userId);
            && s.totalProblems == 2 && s.completedProblems == 1 && s.remainingProblems == 1
            && s.completionPercentage == 50
            && s.difficultyStats == map[Easy := 1, Medium := 0, Hard := 0]
  {
    var store := UpdateStore(map[], userId, "two-sum", SolveIndependently(), now);
    SolvedForcesCompletion(None, userId, "two-sum", SolveIndependently(), now);
    OneEasySolvedStats(store, userId);
  }

  /** A store holding only the user's completed "Two Sum" record gives half the two-problem sheet, one Easy. */
  lemma OneEasySolvedStats(store: Store, userId: Id)
    requires store.Keys == {(userId, "two-sum")} && store[(userId, "two-sum")].isCompleted
    ensures var s := StatsOf([TwoSum(), ThreeSum()], store, userId);
            && s.totalProblems == 2 && s.completedProblems == 1 && s.remainingProblems == 1
            && s.completionPercentage == 50
            && s.difficultyStats == map[Easy := 1, Medium := 0, Hard := 0]
  {
    var problems := [TwoSum(), ThreeSum()];
    var key := (userId, "two-sum");
    assert CompletedKeys(store, userId) == {key};
    assert Filter(problems, ProblemActive) == problems;
    var counts := DifficultyCounts(store, problems, userId);
    assert counts == map[Easy := 1, Medium := 0, Hard := 0] by {
      assert DifficultyOf(problems, "two-sum") == Some(Easy);
      assert CompletedOfDifficulty(store, problems, userId, Easy) == {key};
      assert CompletedOfDifficulty(store, problems, userId, Medium) == {};
      assert CompletedOfDifficulty(store, problems, userId, Hard) == {};
    }
    assert Percent(1, 2) == 50;
  }

  /** A query matches regardless of case, in any title, and results come ascending by order. */
  lemma SearchIgnoresCaseAndSortsByOrder()
    ensures SearchProblems([ThreeSum(), TwoSum()], SearchQuery(Some("SUM"), None, None)) == [TwoSum(), ThreeSum()]
  {
    var q := SearchQuery(Some("SUM"), None, None);
    assert OccursAt(TwoSum().title, "SUM", 4);
    assert OccursAt(ThreeSum().title, "SUM", 1);
    assert MatchesSearch(TwoSum(), q) && MatchesSearch(ThreeSum(), q);
    var keep := (p: Problem) => MatchesSearch(p, q);
    assert Filter([ThreeSum(), TwoSum()], keep) == [ThreeSum(), TwoSum()];
  }

  /** The difficulty filter is combined with the query: only the Easy match remains. */
  lemma SearchWithDifficulty()
    ensures SearchProblems([TwoSum(), ThreeSum()], SearchQuery(Some("sum"), Some("Easy"), None)) == [TwoSum()]
  {
    var q := SearchQuery(Some("sum"), Some("Easy"), None);
    assert OccursAt(TwoSum().title, "sum", 4);
    assert MatchesSearch(TwoSum(), q);
    assert !MatchesSearch(ThreeSum(), q);
    var keep := (p: Problem) => MatchesSearch(p, q);
    assert Filter([TwoSum(), ThreeSum()], keep) == [TwoSum()];
  }
}

/**
 * The statistics aggregator: how many active problems there are, how many
 * the user has completed, what remains, the rounded percentage, and the
 * completions grouped by difficulty with a zero for every difficulty that
 * has none.
 */
module StatsAggregator {
  import opened Wrappers
  import opened Schema
  import opened Listing
  import opened Catalog
  import opened ProgressStore
  import SheetAggregator

  datatype Stats = Stats(
    totalProblems: nat,
    completedProblems: nat,
    remainingProblems: int,
    completionPercentage: nat,
    difficultyStats: map<Difficulty, nat>)

  /** The keys of the user's completed records. */
  function CompletedKeys(store: Store, userId: Id): set<ProgressKey> {
    set k | k in store && k.0 == userId && store[k].isCompleted
  }

  /** The difficulty of the problem a record points to, when that problem exists. */
  function DifficultyOf(problems: seq<Problem>, problemId: Id): (r: Option<Difficulty>)
    ensures r.Some? <==> HasProblem(problems, problemId)
    ensures r.Some? ==> exists p :: p in problems && p.id == problemId && p.difficulty == r.value
  {
    match FirstWithId(problems, problemId, ProblemId)
    case Some(p) => Some(p.difficulty)
    case None => None
  }

  /** The user's completed records whose problem exists and has difficulty `d`. */
  function CompletedOfDifficulty(store: Store, problems: seq<Problem>, userId: Id, d: Difficulty): set<ProgressKey> {
    set k | k in CompletedKeys(store, userId) && DifficultyOf(problems, k.1) == Some(d)
  }

  /**
   * The grouping the store returns for per-difficulty counts `e`, `m`, `h`:
   * one (difficulty, count) entry for each difficulty whose count is not zero.
   */
  function Grouping(e: nat, m: nat, h: nat): seq<(Difficulty, nat)> {
    (if e > 0 then [(Easy, e)] else []) + (if m > 0 then [(Medium, m)] else []) + (if h > 0 then [(Hard, h)] else [])
  }

  /** The grouping of the user's completed records whose problem exists. */
  function GroupByDifficulty(store: Store, problems: seq<Problem>, userId: Id): seq<(Difficulty, nat)> {
    Grouping(|CompletedOfDifficulty(store, problems, userId, Easy)|,
             |CompletedOfDifficulty(store, problems, userId, Medium)|,
             |CompletedOfDifficulty(store, problems, userId, Hard)|)
  }

  /** The count that the last entry for `d` carries, or 0 when no entry names `d`. */
  function LastCountFor(groups: seq<(Difficulty, nat)>, d: Difficulty): nat {
    if groups == [] then 0
    else if groups[|groups| - 1].0 == d then groups[|groups| - 1].1
    else LastCountFor(groups[..|groups| - 1], d)
  }

  /**
   * Starts from a zero for each of the three difficulties and overwrites
   * the entry of every group in turn: the result always has exactly the
   * three keys, and each holds its last group's count or zero.
   */
  method FillDifficultyStats(groups: seq<(Difficulty, nat)>) returns (stats: map<Difficulty, nat>)
    ensures stats.Keys == {Easy, Medium, Hard}
    ensures forall d :: d in stats && stats[d] == LastCountFor(groups, d)
  {
    stats := map[Easy := 0, Medium := 0, Hard := 0];
    assert groups[..0] == [];
    forall d: Difficulty ensures d in stats {
      match d
      case Easy =>
      case Medium =>
      case Hard =>
    }
    for i := 0 to |groups|
      invariant stats.Keys == {Easy, Medium, Hard}
      invariant forall d :: d in stats && stats[d] == LastCountFor(groups[..i], d)
    {
      assert groups[..i + 1][..i] == groups[..i];
      stats := stats[groups[i].0 := groups[i].1];
    }
    assert groups[..|groups|] == groups;
  }

  /** Overwriting the zeros with a grouping restores each difficulty's count, zero ones included. */
  lemma GroupingRestoresCounts(e: nat, m: nat, h: nat, d: Difficulty)
    ensures LastCountFor(Grouping(e, m, h), d) == match d case Easy => e case Medium => m case Hard => h
  {
    var ge: seq<(Difficulty, nat)> := if e > 0 then [(Easy, e)] else [];
    var gm: seq<(Difficulty, nat)> := if m > 0 then [(Medium, m)] else [];
    var gh: seq<(Difficulty, nat)> := if h > 0 then [(Hard, h)] else [];
    assert ge + gm + gh == Grouping(e, m, h);
    LastCountForAppend(ge + gm, gh, d);
    LastCountForAppend(ge, gm, d);
    LastCountForAppend([], ge, d);
    assert [] + ge == ge;
  }

  /** Overwriting the zeros with the grouping yields each difficulty's completion count. */
  lemma GroupedCountsAreCounts(store: Store, problems: seq<Problem>, userId: Id, d: Difficulty)
    ensures LastCountFor(GroupByDifficulty(store, problems, userId), d) == |CompletedOfDifficulty(store, problems, userId, d)|
  {
    GroupingRestoresCounts(|CompletedOfDifficulty(store, problems, userId, Easy)|,
                           |CompletedOfDifficulty(store, problems, userId, Medium)|,
                           |CompletedOfDifficulty(store, problems, userId, Hard)|, d);
  }

  /** Appending at most one entry: the last entry wins when it names `d`. */
  lemma LastCountForAppend(groups: seq<(Difficulty, nat)>, more: seq<(Difficulty, nat)>, d: Difficulty)
    requires |more| <= 1
    ensures LastCountFor(groups + more, d) ==
            if more != [] && more[0].0 == d then more[0].1 else LastCountFor(groups, d)
  {
    if more == [] {
      assert groups + more == groups;
    } else {
      assert (groups + more)[..|groups + more| - 1] == groups;
    }
  }

  /**
   * The statistics as the service computes them: the total counts the
   * active problems, the completed count is every completed record of the
   * user, what remains is the total less the completed, the percentage is
   * the rounded share, and the table counts completed records per
   * difficulty.
   */
  function StatsOf(problems: seq<Problem>, store: Store, userId: Id): (s: Stats)
    ensures s.totalProblems == |FindAllProblems(problems)|
    ensures s.completedProblems == |CompletedKeys(store, userId)|
    ensures s.remainingProblems == s.totalProblems - s.completedProblems
    ensures s.completionPercentage == SheetAggregator.Percent(s.completedProblems, s.totalProblems)
    ensures s.difficultyStats == DifficultyCounts(store, problems, userId)
    ensures s.difficultyStats.Keys == {Easy, Medium, Hard}
  {
    ActiveCount(problems);
    var total := |Filter(problems, ProblemActive)|;
    var completed := |CompletedKeys(store, userId)|;
    Stats(total, completed, total - completed, SheetAggregator.Percent(completed, total),
          DifficultyCounts(store, problems, userId))
  }

  /** A map with the three difficulty keys has every difficulty as a key. */
  lemma EveryDifficultyKeyed(m: map<Difficulty, nat>)
    requires m.Keys == {Easy, Medium, Hard}
    ensures forall d :: d in m
  {
    forall d: Difficulty ensures d in m {
      match d
      case Easy =>
      case Medium =>
      case Hard =>
    }
  }

  /** The user's completions per difficulty, counting those whose problem exists. */
  function DifficultyCounts(store: Store, problems: seq<Problem>, userId: Id): (m: map<Difficulty, nat>)
    ensures m.Keys == {Easy, Medium, Hard}
    ensures forall d :: d in m && m[d] == |CompletedOfDifficulty(store, problems, userId, d)|
  {
    var m := map[Easy := |CompletedOfDifficulty(store, problems, userId, Easy)|,
                 Medium := |CompletedOfDifficulty(store, problems, userId, Medium)|,
                 Hard := |CompletedOfDifficulty(store, problems, userId, Hard)|];
    EveryDifficultyKeyed(m);
    m
  }

  /**
   * The difficulty counts add up to the completions whose problem exists,
   * so never to more than the completions.
   */
  lemma StatsFacts(problems: seq<Problem>, store: Store, userId: Id)
    ensures var s := StatsOf(problems, store, userId);
            && s.difficultyStats[Easy] + s.difficultyStats[Medium] + s.difficultyStats[Hard]
               == |ResolvedCompletedKeys(store, problems, userId)|
            && s.difficultyStats[Easy] + s.difficultyStats[Medium] + s.difficultyStats[Hard] <= s.completedProblems
  {
    DifficultyPartition(store, problems, userId);
    CardinalityOfSubset(ResolvedCompletedKeys(store, problems, userId), CompletedKeys(store, userId));
  }

  /** The user's completed records whose problem exists. */
  function ResolvedCompletedKeys(store: Store, problems: seq<Problem>, userId: Id): set<ProgressKey> {
    set k | k in CompletedKeys(store, userId) && HasProblem(problems, k.1)
  }

  /** The three difficulty groups split the completions whose problem exists. */
  lemma DifficultyPartition(store: Store, problems: seq<Problem>, userId: Id)
    ensures |CompletedOfDifficulty(store, problems, userId, Easy)|
          + |CompletedOfDifficulty(store, problems, userId, Medium)|
          + |CompletedOfDifficulty(store, problems, userId, Hard)|
         == |ResolvedCompletedKeys(store, problems, userId)|
  {
    var e := CompletedOfDifficulty(store, problems, userId, Easy);
    var m := CompletedOfDifficulty(store, problems, userId, Medium);
    var h := CompletedOfDifficulty(store, problems, userId, Hard);
    DifficultyCover(store, problems, userId);
    assert e !! m && e !! h && m !! h;
    assert |e + m| == |e| + |m|;
    assert |e + m + h| == |e + m| + |h|;
  }

  /** Every completion whose problem exists falls in exactly one difficulty group. */
  lemma DifficultyCover(store: Store, problems: seq<Problem>, userId: Id)
    ensures ResolvedCompletedKeys(store, problems, userId)
         == CompletedOfDifficulty(store, problems, userId, Easy)
          + CompletedOfDifficulty(store, problems, userId, Medium)
          + CompletedOfDifficulty(store, problems, userId, Hard)
  {
    var e := CompletedOfDifficulty(store, problems, userId, Easy);
    var m := CompletedOfDifficulty(store, problems, userId, Medium);
    var h := CompletedOfDifficulty(store, problems, userId, Hard);
    forall k | k in ResolvedCompletedKeys(store, problems, userId) ensures k in e + m + h {
      var d := DifficultyOf(problems, k.1);
      match d.value
      case Easy => assert k in e;
      case Medium => assert k in m;
      case Hard => assert k in h;
    }
  }

  /** Counting the active problems counts the active listing. */
  lemma ActiveCount(problems: seq<Problem>)
    ensures |Filter(problems, ProblemActive)| == |FindAllProblems(problems)|
  {
    FilterKeeps(problems, ProblemActive);
    assert multiset(FindAllProblems(problems)) == multiset(Filter(problems, ProblemActive));
    assert |FindAllProblems(problems)| == |multiset(FindAllProblems(problems))|;
  }

  lemma CardinalityOfSubset<T>(a: set<T>, b: set<T>)
    requires a <= b
    ensures |a| <= |b|
  {
    assert b == a + (b - a);
  }

  // ---------------------------------------------------------------------
  // Completions of problems that are not active

  /**
   * A user who completed an active problem and a deactivated one: one
   * active problem, two completions, minus one remaining, 200 per cent.
   */
  lemma InactiveCompletionOvercounts(userId: Id, active: Problem, inactive: Problem, r1: ProgressRecord, r2: ProgressRecord)
    requires active.isActive && !inactive.isActive && active.id != inactive.id
    requires r1.isCompleted && r2.isCompleted
    ensures var store := map[(userId, active.id) := r1, (userId, inactive.id) := r2];
            var s := StatsOf([active, inactive], store, userId);
            s.totalProblems == 1 && s.completedProblems == 2 && s.remainingProblems == -1
            && s.completionPercentage == 200
  {
    var problems := [active, inactive];
    var store := map[(userId, active.id) := r1, (userId, inactive.id) := r2];
    assert Filter(problems, ProblemActive) == [active] by {
      assert problems[1..] == [inactive];
      assert Filter([inactive], ProblemActive) == [];
    }
    assert |CompletedKeys(store, userId)| == 2 by {
      assert CompletedKeys(store, userId) == {(userId, active.id), (userId, inactive.id)};
    }
    assert SheetAggregator.Percent(2, 1) == 200;
  }

  /** The user has a completed record for this problem. */
  predicate CompletedBy(store: Store, userId: Id, p: Problem) {
    (userId, p.id) in store && store[(userId, p.id)].isCompleted
  }

  /** The test "the user has completed this problem". */
  function CompletedTest(store: Store, userId: Id): Problem -> bool {
    (p: Problem) => CompletedBy(store, userId, p)
  }

  /** The test "the user has completed this problem, and it has difficulty `d`". */
  function DifficultyTest(store: Store, userId: Id, d: Difficulty): Problem -> bool {
    (p: Problem) => p.difficulty == d && CompletedBy(store, userId, p)
  }

  /**
   * Statistics that count only the completions of active problems: the
   * completed count is the number of active problems the user completed, so
   * it never exceeds the total, nothing remains negative, the percentage is
   * the rounded share within 0..100, and the table holds the user's
   * completed active problems per difficulty, which split the completed
   * count.
   */
  function ActiveStatsOf(problems: seq<Problem>, store: Store, userId: Id): (s: Stats)
    ensures s.totalProblems == |FindAllProblems(problems)|
    ensures s.completedProblems == |Filter(Filter(problems, ProblemActive), CompletedTest(store, userId))|
    ensures s.completedProblems <= s.totalProblems
    ensures 0 <= s.remainingProblems == s.totalProblems - s.completedProblems
    ensures s.completionPercentage == SheetAggregator.Percent(s.completedProblems, s.totalProblems)
    ensures s.completionPercentage <= 100
    ensures s.difficultyStats == ActiveDifficultyCounts(Filter(problems, ProblemActive), store, userId)
    ensures s.difficultyStats.Keys == {Easy, Medium, Hard}
    ensures s.difficultyStats[Easy] + s.difficultyStats[Medium] + s.difficultyStats[Hard] == s.completedProblems
  {
    var active := Filter(problems, ProblemActive);
    var completed := |Filter(active, CompletedTest(store, userId))|;
    ActiveCount(problems);
    Stats(|active|, completed, |active| - completed, SheetAggregator.Percent(completed, |active|),
          ActiveDifficultyCounts(active, store, userId))
  }

  /** The user's completions of `active` per difficulty; they add up to all the user's completions of `active`. */
  function ActiveDifficultyCounts(active: seq<Problem>, store: Store, userId: Id): (m: map<Difficulty, nat>)
    ensures m.Keys == {Easy, Medium, Hard}
    ensures forall d :: d in m && m[d] == CompletedActiveOf(active, store, userId, d)
    ensures m[Easy] + m[Medium] + m[Hard] == |Filter(active, CompletedTest(store, userId))|
  {
    var m := map[Easy := CompletedActiveOf(active, store, userId, Easy),
                 Medium := CompletedActiveOf(active, store, userId, Medium),
                 Hard := CompletedActiveOf(active, store, userId, Hard)];
    EveryDifficultyKeyed(m);
    DifficultiesSplitCompleted(active, store, userId);
    m
  }

  /** Two difficulty tables that hold every difficulty with the same count are the same table. */
  lemma CountsEqual(x: map<Difficulty, nat>, y: map<Difficulty, nat>)
    requires x.Keys == y.Keys == {Easy, Medium, Hard}
    requires x[Easy] == y[Easy] && x[Medium] == y[Medium] && x[Hard] == y[Hard]
    ensures x == y
  {
    EveryDifficultyKeyed(x);
    forall d ensures x[d] == y[d] {
      match d
      case Easy =>
      case Medium =>
      case Hard =>
    }
  }

  /** How many of `active` the user has completed with difficulty `d`. */
  function CompletedActiveOf(active: seq<Problem>, store: Store, userId: Id, d: Difficulty): nat {
    |Filter(active, DifficultyTest(store, userId, d))|
  }

  /** The three difficulty counts add up to the completed count. */
  lemma DifficultiesSplitCompleted(active: seq<Problem>, store: Store, userId: Id)
    ensures CompletedActiveOf(active, store, userId, Easy) + CompletedActiveOf(active, store, userId, Medium)
            + CompletedActiveOf(active, store, userId, Hard) == |Filter(active, CompletedTest(store, userId))|
  {
    var harder := (p: Problem) => p.difficulty != Easy && CompletedBy(store, userId, p);
    FilterPartition(active, CompletedTest(store, userId), DifficultyTest(store, userId, Easy), harder);
    FilterPartition(active, harder, DifficultyTest(store, userId, Medium), DifficultyTest(store, userId, Hard));
  }

  // ---------------------------------------------------------------------
  // Agreement of the corrected statistics with the service's

  /** No two problems share an id, as no two documents share an `_id`. */
  ghost predicate UniqueIds(problems: seq<Problem>) {
    forall i, j :: 0 <= i < j < |problems| ==> problems[i].id != problems[j].id
  }

  /** Every record the user has completed is for an active problem. */
  predicate OnlyActiveCompleted(problems: seq<Problem>, store: Store, userId: Id) {
    forall k :: k in CompletedKeys(store, userId) ==> exists p :: p in problems && p.isActive && p.id == k.1
  }

  lemma SameIdSameProblem(problems: seq<Problem>, p: Problem, q: Problem)
    requires UniqueIds(problems) && p in problems && q in problems && p.id == q.id
    ensures p == q
  {
    var i :| 0 <= i < |problems| && problems[i] == p;
    var j :| 0 <= j < |problems| && problems[j] == q;
  }

  /** Under the two conditions the corrected completed count is the service's. */
  lemma ActiveCompletedAgrees(problems: seq<Problem>, store: Store, userId: Id)
    requires UniqueIds(problems) && OnlyActiveCompleted(problems, store, userId)
    ensures |Filter(Filter(problems, ProblemActive), CompletedTest(store, userId))| == |CompletedKeys(store, userId)|
  {
    var h := (p: Problem) => p.isActive && CompletedBy(store, userId, p);
    var key := (p: Problem) => (userId, p.id);
    FilterFilter(problems, ProblemActive, CompletedTest(store, userId), h);
    DistinctKeysCount(problems, h, key);
    var keys := KeysOf(problems, h, key);
    forall k | k in keys ensures k in CompletedKeys(store, userId) {
      var x :| x in problems && h(x) && key(x) == k;
    }
    forall k | k in CompletedKeys(store, userId) ensures k in keys {
      var p :| p in problems && p.isActive && p.id == k.1;
      assert k == key(p);
    }
    assert keys == CompletedKeys(store, userId);
  }

  /** Under the two conditions the corrected count for difficulty `d` is the service's. */
  lemma ActiveDifficultyAgrees(problems: seq<Problem>, store: Store, userId: Id, d: Difficulty)
    requires UniqueIds(problems) && OnlyActiveCompleted(problems, store, userId)
    ensures CompletedActiveOf(Filter(problems, ProblemActive), store, userId, d)
            == |CompletedOfDifficulty(store, problems, userId, d)|
  {
    var h := (p: Problem) => p.isActive && p.difficulty == d && CompletedBy(store, userId, p);
    var key := (p: Problem) => (userId, p.id);
    FilterFilter(problems, ProblemActive, DifficultyTest(store, userId, d), h);
    DistinctKeysCount(problems, h, key);
    var keys := KeysOf(problems, h, key);
    forall k | k in keys ensures k in CompletedOfDifficulty(store, problems, userId, d) {
      var x :| x in problems && h(x) && key(x) == k;
      var q :| q in problems && q.id == x.id && q.difficulty == DifficultyOf(problems, x.id).value;
      SameIdSameProblem(problems, x, q);
    }
    forall k | k in CompletedOfDifficulty(store, problems, userId, d) ensures k in keys {
      var p :| p in problems && p.isActive && p.id == k.1;
      var q :| q in problems && q.id == k.1 && q.difficulty == d;
      SameIdSameProblem(problems, p, q);
      assert k == key(p);
    }
    assert keys == CompletedOfDifficulty(store, problems, userId, d);
  }

  /**
   * When problem ids are unique and the user has completed no inactive
   * problem, the corrected statistics are exactly the service's.
   */
  lemma ActiveStatsAgree(problems: seq<Problem>, store: Store, userId: Id)
    requires UniqueIds(problems) && OnlyActiveCompleted(problems, store, userId)
    ensures ActiveStatsOf(problems, store, userId) == StatsOf(problems, store, userId)
  {
    ActiveCompletedAgrees(problems, store, userId);
    ActiveDifficultyAgrees(problems, store, userId, Easy);
    ActiveDifficultyAgrees(problems, store, userId, Medium);
    ActiveDifficultyAgrees(problems, store, userId, Hard);
  }
}

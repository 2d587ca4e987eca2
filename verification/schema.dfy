/**
 * The persisted entities of the DSA sheet: the three-level catalog
 * (Chapter, Topic, Problem) and the per-user progress record, with the
 * enumerations, field defaults, bounds and the unique (userId, problemId)
 * index that the Mongoose schema declares.
 */
module Schema {
  import opened Wrappers

  /** Document identifiers (ObjectIds) are opaque strings here. */
  type Id = string

  datatype SolutionStatus =
    | NotStarted
    | InProgress
    | SolvedWithHelp
    | SolvedIndependently
    | NeedsReview

  datatype Difficulty = Easy | Medium | Hard

  const AllStatuses: seq<SolutionStatus> :=
    [NotStarted, InProgress, SolvedWithHelp, SolvedIndependently, NeedsReview]

  const AllDifficulties: seq<Difficulty> := [Easy, Medium, Hard]

  /** The string each status is stored as. */
  function StatusName(s: SolutionStatus): string {
    match s
    case NotStarted => "not-started"
    case InProgress => "in-progress"
    case SolvedWithHelp => "solved-with-help"
    case SolvedIndependently => "solved-independently"
    case NeedsReview => "needs-review"
  }

  /** The status stored under `name`, if `name` is one of the enumeration's strings. */
  function ParseStatus(name: string): Option<SolutionStatus> {
    if name == "not-started" then Some(NotStarted)
    else if name == "in-progress" then Some(InProgress)
    else if name == "solved-with-help" then Some(SolvedWithHelp)
    else if name == "solved-independently" then Some(SolvedIndependently)
    else if name == "needs-review" then Some(NeedsReview)
    else None
  }

  /** The string each difficulty is stored as (and searched by). */
  function DifficultyName(d: Difficulty): string {
    match d
    case Easy => "Easy"
    case Medium => "Medium"
    case Hard => "Hard"
  }

  function ParseDifficulty(name: string): Option<Difficulty> {
    if name == "Easy" then Some(Easy)
    else if name == "Medium" then Some(Medium)
    else if name == "Hard" then Some(Hard)
    else None
  }

  /** The status enumeration has exactly five distinct members. */
  lemma FiveStatuses()
    ensures |AllStatuses| == 5
    ensures forall s: SolutionStatus :: s in AllStatuses
    ensures forall i, j :: 0 <= i < j < |AllStatuses| ==> AllStatuses[i] != AllStatuses[j]
  {
    forall s: SolutionStatus ensures s in AllStatuses {
      match s
      case NotStarted => assert AllStatuses[0] == s;
      case InProgress => assert AllStatuses[1] == s;
      case SolvedWithHelp => assert AllStatuses[2] == s;
      case SolvedIndependently => assert AllStatuses[3] == s;
      case NeedsReview => assert AllStatuses[4] == s;
    }
  }

  /** Status names and parsing are inverse: the stored strings identify the status. */
  lemma StatusNameRoundTrip(s: SolutionStatus, name: string)
    ensures ParseStatus(StatusName(s)) == Some(s)
    ensures ParseStatus(name) == Some(s) <==> name == StatusName(s)
  {
  }

  /** A problem's difficulty is one of exactly three names, and the names identify it. */
  lemma DifficultyNameRoundTrip(d: Difficulty, name: string)
    ensures d in AllDifficulties && |AllDifficulties| == 3
    ensures ParseDifficulty(DifficultyName(d)) == Some(d)
    ensures ParseDifficulty(name) == Some(d) <==> name == DifficultyName(d)
  {
  }

  datatype Chapter = Chapter(
    id: Id,
    name: string,
    description: string,
    order: int,
    isActive: bool,
    icon: Option<string>)

  /** A topic always names its owning chapter. */
  datatype Topic = Topic(
    id: Id,
    name: string,
    description: string,
    chapterId: Id,
    order: int,
    isActive: bool)

  datatype ProblemLinks = ProblemLinks(
    youtube: Option<string>,
    leetcode: Option<string>,
    codeforces: Option<string>,
    article: Option<string>,
    geeksforgeeks: Option<string>,
    interviewbit: Option<string>)

  const NoLinks := ProblemLinks(None, None, None, None, None, None)

  /** A problem always names its owning topic and carries a difficulty. */
  datatype Problem = Problem(
    id: Id,
    title: string,
    description: string,
    topicId: Id,
    difficulty: Difficulty,
    links: ProblemLinks,
    tags: seq<string>,
    timeComplexity: Option<string>,
    spaceComplexity: Option<string>,
    order: int,
    isActive: bool,
    isPremium: bool)

  /**
   * One user's progress on one problem. Times are instants as integers;
   * `None` stands for a field that is absent or null in the stored document.
   */
  datatype ProgressRecord = ProgressRecord(
    userId: Id,
    problemId: Id,
    isCompleted: bool,
    status: SolutionStatus,
    completedAt: Option<int>,
    notes: Option<string>,
    solutionCode: Option<string>,
    timeSpent: Option<int>,
    attempts: nat,
    lastAttemptedAt: Option<int>,
    isBookmarked: bool,
    difficultyRating: Option<int>)

  /** A chapter as created from its required fields: order 0, active. */
  function NewChapter(id: Id, name: string, description: string, icon: Option<string>): (c: Chapter)
    ensures c.id == id && c.name == name && c.description == description && c.icon == icon
    ensures c.order == 0 && c.isActive
  {
    Chapter(id, name, description, 0, true, icon)
  }

  /** A topic as created from its required fields: order 0, active. */
  function NewTopic(id: Id, name: string, description: string, chapterId: Id): (t: Topic)
    ensures t.id == id && t.name == name && t.description == description && t.chapterId == chapterId
    ensures t.order == 0 && t.isActive
  {
    Topic(id, name, description, chapterId, 0, true)
  }

  /** A problem as created from its required fields: order 0, active, not premium, no links or tags. */
  function NewProblem(id: Id, title: string, description: string, topicId: Id, difficulty: Difficulty): (p: Problem)
    ensures p.id == id && p.title == title && p.description == description
    ensures p.topicId == topicId && p.difficulty == difficulty
    ensures p.order == 0 && p.isActive && !p.isPremium
    ensures p.tags == [] && p.links == NoLinks
  {
    Problem(id, title, description, topicId, difficulty, NoLinks, [], None, None, 0, true, false)
  }

  /**
   * The record the store creates for (userId, problemId) before any update
   * is merged in: not completed, not started, no attempts, not bookmarked.
   */
  function DefaultProgress(userId: Id, problemId: Id): (r: ProgressRecord)
    ensures r.userId == userId && r.problemId == problemId
    ensures !r.isCompleted && r.status == NotStarted && r.attempts == 0 && !r.isBookmarked
    ensures r.completedAt == None && r.lastAttemptedAt == None
    ensures r.notes == None && r.solutionCode == None && r.timeSpent == None && r.difficultyRating == None
  {
    ProgressRecord(userId, problemId, false, NotStarted, None, None, None, None, 0, None, false, None)
  }

  /** The schema's bounds on a personal difficulty rating: absent, or 1 to 5. */
  predicate RatingInRange(rating: Option<int>) {
    rating.None? || 1 <= rating.value <= 5
  }

  type ProgressKey = (Id, Id)

  function KeyOf(r: ProgressRecord): ProgressKey {
    (r.userId, r.problemId)
  }

  /**
   * The unique (userId, problemId) index: the store is a map from the pair
   * to the one record that carries it.
   */
  ghost predicate Keyed(store: map<ProgressKey, ProgressRecord>) {
    forall k :: k in store ==> KeyOf(store[k]) == k
  }

  /** Under the unique index no two stored records share a (userId, problemId) pair. */
  lemma AtMostOneRecordPerPair(store: map<ProgressKey, ProgressRecord>, r1: ProgressRecord, r2: ProgressRecord)
    requires Keyed(store)
    requires r1 in store.Values && r2 in store.Values
    requires r1.userId == r2.userId && r1.problemId == r2.problemId
    ensures r1 == r2
  {
    var k1 :| k1 in store && store[k1] == r1;
    var k2 :| k2 in store && store[k2] == r2;
    assert k1 == KeyOf(r1) == KeyOf(r2) == k2;
  }
}

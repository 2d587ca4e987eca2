/**
 * The catalog reads of the service: the active, order-sorted listings of
 * chapters, topics and problems, the by-id lookups that fail with NotFound,
 * and the problem search.
 */
module Catalog {
  import opened Wrappers
  import opened Schema
  import opened Listing

  /** The three lookups fail with a not-found error naming the entity. */
  datatype NotFound = ChapterNotFound | TopicNotFound | ProblemNotFound

  function ChapterId(c: Chapter): Id { c.id }
  function TopicId(t: Topic): Id { t.id }
  function ProblemId(p: Problem): Id { p.id }
  function ChapterOrder(c: Chapter): int { c.order }
  function TopicOrder(t: Topic): int { t.order }
  function ProblemOrder(p: Problem): int { p.order }
  predicate ChapterActive(c: Chapter) { c.isActive }
  predicate TopicActive(t: Topic) { t.isActive }
  predicate ProblemActive(p: Problem) { p.isActive }

  /** The active chapters, ascending by order. */
  function FindAllChapters(chapters: seq<Chapter>): (r: seq<Chapter>)
    ensures forall c :: c in r <==> c in chapters && c.isActive
    ensures forall c :: multiset(r)[c] == if c.isActive then multiset(chapters)[c] else 0
    ensures SortedBy(r, ChapterOrder)
  {
    FilterKeeps(chapters, ChapterActive);
    SortBy(Filter(chapters, ChapterActive), ChapterOrder)
  }

  /** The active topics, ascending by order. */
  function FindAllTopics(topics: seq<Topic>): (r: seq<Topic>)
    ensures forall t :: t in r <==> t in topics && t.isActive
    ensures forall t :: multiset(r)[t] == if t.isActive then multiset(topics)[t] else 0
    ensures SortedBy(r, TopicOrder)
  {
    FilterKeeps(topics, TopicActive);
    SortBy(Filter(topics, TopicActive), TopicOrder)
  }

  /** The active topics of one chapter, ascending by order. */
  function FindTopicsByChapter(topics: seq<Topic>, chapterId: Id): (r: seq<Topic>)
    ensures forall t :: t in r <==> t in topics && t.isActive && t.chapterId == chapterId
    ensures forall t :: multiset(r)[t] == (if t.isActive && t.chapterId == chapterId then multiset(topics)[t] else 0)
    ensures SortedBy(r, TopicOrder)
  {
    var keep := (t: Topic) => t.isActive && t.chapterId == chapterId;
    FilterKeeps(topics, keep);
    SortBy(Filter(topics, keep), TopicOrder)
  }

  /** The active problems, ascending by order. */
  function FindAllProblems(problems: seq<Problem>): (r: seq<Problem>)
    ensures forall p :: p in r <==> p in problems && p.isActive
    ensures forall p :: multiset(r)[p] == if p.isActive then multiset(problems)[p] else 0
    ensures SortedBy(r, ProblemOrder)
  {
    FilterKeeps(problems, ProblemActive);
    SortBy(Filter(problems, ProblemActive), ProblemOrder)
  }

  /** The active problems of one topic, ascending by order. */
  function FindProblemsByTopic(problems: seq<Problem>, topicId: Id): (r: seq<Problem>)
    ensures forall p :: p in r <==> p in problems && p.isActive && p.topicId == topicId
    ensures forall p :: multiset(r)[p] == (if p.isActive && p.topicId == topicId then multiset(problems)[p] else 0)
    ensures SortedBy(r, ProblemOrder)
  {
    var keep := (p: Problem) => p.isActive && p.topicId == topicId;
    FilterKeeps(problems, keep);
    SortBy(Filter(problems, keep), ProblemOrder)
  }

  /** The chapter with id `id`, active or not; ChapterNotFound when there is none. */
  function FindChapterById(chapters: seq<Chapter>, id: Id): (r: Result<Chapter, NotFound>)
    ensures r.Success? <==> exists c :: c in chapters && c.id == id
    ensures r.Success? ==> r.value in chapters && r.value.id == id
    ensures r.Failure? ==> r.error == ChapterNotFound
  {
    match FirstWithId(chapters, id, ChapterId)
    case Some(c) => Success(c)
    case None => Failure(ChapterNotFound)
  }

  /** The topic with id `id`, active or not; TopicNotFound when there is none. */
  function FindTopicById(topics: seq<Topic>, id: Id): (r: Result<Topic, NotFound>)
    ensures r.Success? <==> exists t :: t in topics && t.id == id
    ensures r.Success? ==> r.value in topics && r.value.id == id
    ensures r.Failure? ==> r.error == TopicNotFound
  {
    match FirstWithId(topics, id, TopicId)
    case Some(t) => Success(t)
    case None => Failure(TopicNotFound)
  }

  /** Whether some problem, active or not, has id `id`. */
  predicate HasProblem(problems: seq<Problem>, id: Id) {
    exists p :: p in problems && p.id == id
  }

  /** The problem with id `id`, active or not; ProblemNotFound when there is none. */
  function FindProblemById(problems: seq<Problem>, id: Id): (r: Result<Problem, NotFound>)
    ensures r.Success? <==> HasProblem(problems, id)
    ensures r.Success? ==> r.value in problems && r.value.id == id
    ensures r.Failure? ==> r.error == ProblemNotFound
  {
    match FirstWithId(problems, id, ProblemId)
    case Some(p) => Success(p)
    case None => Failure(ProblemNotFound)
  }

  /** Creating a topic first checks that its chapter exists. */
  function CheckTopicParent(chapters: seq<Chapter>, t: Topic): (r: Result<Topic, NotFound>)
    ensures r.Success? <==> exists c :: c in chapters && c.id == t.chapterId
    ensures r.Success? ==> r.value == t
    ensures r.Failure? ==> r.error == ChapterNotFound
  {
    match FindChapterById(chapters, t.chapterId)
    case Success(_) => Success(t)
    case Failure(e) => Failure(e)
  }

  /** Creating a problem first checks that its topic exists. */
  function CheckProblemParent(topics: seq<Topic>, p: Problem): (r: Result<Problem, NotFound>)
    ensures r.Success? <==> exists t :: t in topics && t.id == p.topicId
    ensures r.Success? ==> r.value == p
    ensures r.Failure? ==> r.error == TopicNotFound
  {
    match FindTopicById(topics, p.topicId)
    case Success(_) => Success(p)
    case Failure(e) => Failure(e)
  }

  // ---------------------------------------------------------------------
  // Search

  /** ASCII case folding. */
  function Lower(c: char): char {
    if 'A' <= c <= 'Z' then (c as int + 32) as char else c
  }

  function LowerString(s: string): (r: string)
    ensures |r| == |s|
    ensures forall i :: 0 <= i < |s| ==> r[i] == Lower(s[i])
  {
    seq(|s|, i requires 0 <= i < |s| => Lower(s[i]))
  }

  /** `query` occurs in `text` starting at position `i`, ignoring case. */
  predicate OccursAt(text: string, query: string, i: int) {
    0 <= i <= |text| - |query| && LowerString(text[i..i + |query|]) == LowerString(query)
  }

  /** `query` occurs somewhere in `text`, ignoring case. */
  predicate ContainsIgnoringCase(text: string, query: string) {
    exists i :: 0 <= i <= |text| - |query| && OccursAt(text, query, i)
  }

  /** A search parameter counts only when it is present and non-empty. */
  predicate Given(s: Option<string>) {
    s.Some? && s.value != ""
  }

  datatype SearchQuery = SearchQuery(query: Option<string>, difficulty: Option<string>, tags: Option<seq<string>>)

  /** The query occurs in the title, the description or one of the tags. */
  predicate MatchesText(p: Problem, query: string) {
    || ContainsIgnoringCase(p.title, query)
    || ContainsIgnoringCase(p.description, query)
    || exists t :: t in p.tags && ContainsIgnoringCase(t, query)
  }

  /** The problem carries at least one of `tags`. */
  predicate SharesTag(p: Problem, tags: seq<string>) {
    exists t :: t in tags && t in p.tags
  }

  /** Active, and every filter that is given holds (they are combined with AND). */
  predicate MatchesSearch(p: Problem, q: SearchQuery) {
    && p.isActive
    && (Given(q.query) ==> MatchesText(p, q.query.value))
    && (Given(q.difficulty) ==> DifficultyName(p.difficulty) == q.difficulty.value)
    && (q.tags.Some? && |q.tags.value| > 0 ==> SharesTag(p, q.tags.value))
  }

  /** The problems that match the search, ascending by order. */
  function SearchProblems(problems: seq<Problem>, q: SearchQuery): (r: seq<Problem>)
    ensures forall p :: p in r <==> p in problems && MatchesSearch(p, q)
    ensures forall p :: multiset(r)[p] == if MatchesSearch(p, q) then multiset(problems)[p] else 0
    ensures SortedBy(r, ProblemOrder)
  {
    var keep := (p: Problem) => MatchesSearch(p, q);
    FilterKeeps(problems, keep);
    SortBy(Filter(problems, keep), ProblemOrder)
  }

  /** Searching for nothing lists exactly the active problems. */
  lemma EmptySearchListsActiveProblems(problems: seq<Problem>)
    ensures SearchProblems(problems, SearchQuery(None, None, None)) == FindAllProblems(problems)
  {
    var q := SearchQuery(None, None, None);
    assert Filter(problems, (p: Problem) => MatchesSearch(p, q)) == Filter(problems, ProblemActive) by {
      FilterSamePredicate(problems, (p: Problem) => MatchesSearch(p, q), ProblemActive);
    }
  }

  lemma {:induction false} FilterSamePredicate<T(!new)>(s: seq<T>, f: T -> bool, g: T -> bool)
    requires forall x :: f(x) == g(x)
    ensures Filter(s, f) == Filter(s, g)
  {
    if s != [] {
      FilterSamePredicate(s[1..], f, g);
    }
  }
}

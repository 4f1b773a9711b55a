/**
 * The task list page: the tasks whose title or description contains the search term
 * (ignoring case) and whose category is the chosen one, incomplete tasks first and then by
 * descending priority.
 */
module TaskList {
  import opened Strings
  import opened Sorting
  import opened TaskModel

  /** The category tab: every category, or one. */
  datatype ActiveCategory = All | Only(category: Category)

  /** `priorityOrder`: High 3, Medium 2, Low 1. */
  function PriorityRank(p: Priority): nat {
    match p
    case High => 3
    case Medium => 2
    case Low => 1
  }

  /** The lowercased title or description contains the lowercased search term. */
  predicate MatchesSearch(t: Task, searchTerm: string) {
    Contains(Lower(t.title), Lower(searchTerm)) || Contains(Lower(t.description), Lower(searchTerm))
  }

  predicate MatchesCategory(t: Task, active: ActiveCategory) {
    active == All || t.category == active.category
  }

  /** The filter predicate of the page. */
  function Shown(searchTerm: string, active: ActiveCategory): Task -> bool {
    (t: Task) => MatchesSearch(t, searchTerm) && MatchesCategory(t, active)
  }

  /** The comparator of the page: incomplete before completed, then higher priority first. */
  function Compare(a: Task, b: Task): int {
    if a.completed != b.completed then (if a.completed then 1 else -1)
    else PriorityRank(b.priority) - PriorityRank(a.priority)
  }

  /** A key whose descending order is the comparator's order: incomplete tasks rank above 3. */
  function DisplayKey(t: Task): int {
    (if t.completed then 0 else 4) + PriorityRank(t.priority)
  }

  /**
   * The comparator has the sign of `DisplayKey(b) - DisplayKey(a)`, so sorting with it is
   * the stable sort by descending `DisplayKey`.
   */
  lemma CompareIsByKey(a: Task, b: Task)
    ensures Compare(a, b) < 0 <==> DisplayKey(a) > DisplayKey(b)
    ensures Compare(a, b) == 0 <==> DisplayKey(a) == DisplayKey(b)
    ensures Compare(a, b) > 0 <==> DisplayKey(a) < DisplayKey(b)
  {
  }

  /** `filteredTasks`. */
  function FilteredTasks(tasks: seq<Task>, searchTerm: string, active: ActiveCategory): (r: seq<Task>)
    ensures |r| <= |tasks|
    ensures multiset(r) == multiset(Filter(tasks, Shown(searchTerm, active)))
    ensures SortedDesc(r, DisplayKey)
  {
    SortDesc(Filter(tasks, Shown(searchTerm, active)), DisplayKey)
  }

  /**
   * The shown tasks are tasks of the list, no task more often than in the list, and they are
   * exactly the tasks that match the search and the category.
   */
  lemma FilteredAreMatches(tasks: seq<Task>, searchTerm: string, active: ActiveCategory)
    ensures multiset(FilteredTasks(tasks, searchTerm, active)) <= multiset(tasks)
    ensures forall t :: t in FilteredTasks(tasks, searchTerm, active) <==>
      t in tasks && MatchesSearch(t, searchTerm) && MatchesCategory(t, active)
  {
    var kept := Filter(tasks, Shown(searchTerm, active));
    FilterCounts(tasks, Shown(searchTerm, active));
    forall t ensures t in FilteredTasks(tasks, searchTerm, active) <==>
      t in tasks && MatchesSearch(t, searchTerm) && MatchesCategory(t, active)
    {
      FilterContains(tasks, Shown(searchTerm, active), t);
      assert t in kept <==> t in multiset(kept);
    }
  }

  lemma ContainsEmpty(s: string)
    ensures Contains(s, [])
  {
  }

  /** With an empty search and every category, every task is shown, as often as in the list. */
  lemma EmptySearchShowsAll(tasks: seq<Task>)
    ensures multiset(FilteredTasks(tasks, [], All)) == multiset(tasks)
    ensures |FilteredTasks(tasks, [], All)| == |tasks|
  {
    forall t | t in tasks ensures Shown([], All)(t) {
      ContainsEmpty(Lower(t.title));
    }
    FilterKeepsAll(tasks, Shown([], All));
  }

  /** Every incomplete task comes before every completed one. */
  lemma IncompleteFirst(tasks: seq<Task>, searchTerm: string, active: ActiveCategory)
    ensures var r := FilteredTasks(tasks, searchTerm, active);
      forall i, j :: 0 <= i < j < |r| && r[i].completed ==> r[j].completed
  {
  }

  /** Among tasks of equal completion status, priority does not increase along the list. */
  lemma PriorityOrder(tasks: seq<Task>, searchTerm: string, active: ActiveCategory)
    ensures var r := FilteredTasks(tasks, searchTerm, active);
      forall i, j :: 0 <= i < j < |r| && r[i].completed == r[j].completed ==>
        PriorityRank(r[i].priority) >= PriorityRank(r[j].priority)
  {
  }

  /** Tasks of equal completion status and priority keep their order in the list. */
  lemma TiesKeepListOrder(tasks: seq<Task>, searchTerm: string, active: ActiveCategory, k: int)
    ensures Filter(FilteredTasks(tasks, searchTerm, active), KeyIs(DisplayKey, k))
         == Filter(Filter(tasks, Shown(searchTerm, active)), KeyIs(DisplayKey, k))
  {
    SortIsStable(Filter(tasks, Shown(searchTerm, active)), DisplayKey, k);
  }
}

/**
 * The list view of the to-do demo: tasks are kept when they match the
 * search text and the completion filter, then sorted (stably, as
 * `Array.prototype.sort` does) by priority, by date (newest first) or by
 * title.
 */
module TaskList {
  import opened Seqs
  import opened Text
  import opened TaskTypes

  /** The search text occurs, ignoring case, in the title or the description. */
  predicate MatchesSearch(query: string, t: Task) {
    Contains(Lower(t.title), Lower(query)) || Contains(Lower(t.description), Lower(query))
  }

  /** The completion filter. */
  predicate MatchesFilter(filter: FilterOption, t: Task) {
    filter == All || (filter == Completed && t.completed) || (filter == Active && !t.completed)
  }

  predicate Keeps(query: string, filter: FilterOption, t: Task) {
    MatchesSearch(query, t) && MatchesFilter(filter, t)
  }

  /** The `filter` step. */
  function FilterTasks(tasks: seq<Task>, query: string, filter: FilterOption): (r: seq<Task>)
    ensures forall t :: t in r <==> t in tasks && Keeps(query, filter, t)
    ensures forall t :: multiset(r)[t] == if Keeps(query, filter, t) then multiset(tasks)[t] else 0
  {
    Filter(t => Keeps(query, filter, t), tasks)
  }

  /** `{ high: 0, medium: 1, low: 2 }`. */
  function Rank(p: Priority): int {
    match p
    case High => 0
    case Medium => 1
    case Low => 2
  }

  /**
   * The comparator is at most zero: `a` may come before `b`.  Dates compare
   * newest first; titles by `localeCompare`, taken as lexicographic order.
   */
  predicate Before(sort: SortOption, a: Task, b: Task) {
    match sort
    case ByPriority => Rank(a.priority) <= Rank(b.priority)
    case ByDate => b.createdAt <= a.createdAt
    case ByTitle => LexLe(a.title, b.title)
  }

  /** The comparator returns zero: the two tasks tie. */
  predicate Ties(sort: SortOption, a: Task, b: Task) {
    Before(sort, a, b) && Before(sort, b, a)
  }

  lemma BeforeTotal(sort: SortOption, a: Task, b: Task)
    ensures Before(sort, a, b) || Before(sort, b, a)
  {
    if sort == ByTitle {
      LexLeTotal(a.title, b.title);
    }
  }

  lemma BeforeTransitive(sort: SortOption, a: Task, b: Task, c: Task)
    requires Before(sort, a, b) && Before(sort, b, c)
    ensures Before(sort, a, c)
  {
    if sort == ByTitle {
      LexLeTransitive(a.title, b.title, c.title);
    }
  }

  /** Every earlier element may come before every later one. */
  ghost predicate Sorted(sort: SortOption, s: seq<Task>) {
    forall i, j :: 0 <= i < j < |s| ==> Before(sort, s[i], s[j])
  }

  /** Puts `x` in front of the first element it may come before. */
  function Insert(sort: SortOption, x: Task, s: seq<Task>): (r: seq<Task>)
    ensures multiset(r) == multiset(s) + multiset{x}
  {
    if s == [] then [x]
    else if Before(sort, x, s[0]) then [x] + s
    else
      assert s == [s[0]] + s[1..];
      [s[0]] + Insert(sort, x, s[1..])
  }

  /** The `sort` step: a stable insertion sort under the comparator. */
  function SortTasks(sort: SortOption, s: seq<Task>): (r: seq<Task>)
    ensures multiset(r) == multiset(s)
  {
    if s == [] then []
    else
      assert s == [s[0]] + s[1..];
      Insert(sort, s[0], SortTasks(sort, s[1..]))
  }

  /**
   * The list shown: filtered, then sorted.  It is a permutation of the
   * filtered list: nothing added, dropped or duplicated.
   */
  function VisibleTasks(tasks: seq<Task>, query: string, filter: FilterOption, sort: SortOption): (r: seq<Task>)
    ensures multiset(r) == multiset(FilterTasks(tasks, query, filter))
    ensures forall t :: multiset(r)[t] == if Keeps(query, filter, t) then multiset(tasks)[t] else 0
  {
    SortTasks(sort, FilterTasks(tasks, query, filter))
  }

  /** Whatever may follow `h` still may after `x` is inserted, if `x` may follow `h` too. */
  lemma InsertAfterHead(sort: SortOption, h: Task, x: Task, s: seq<Task>)
    requires Before(sort, h, x)
    requires forall k :: 0 <= k < |s| ==> Before(sort, h, s[k])
    ensures forall y :: y in Insert(sort, x, s) ==> Before(sort, h, y)
  {
    var r := Insert(sort, x, s);
    forall y | y in r ensures Before(sort, h, y) {
      assert y in multiset(r);
      if y != x {
        assert y in multiset(s);
      }
    }
  }

  lemma {:induction false} InsertSorted(sort: SortOption, x: Task, s: seq<Task>)
    requires Sorted(sort, s)
    ensures Sorted(sort, Insert(sort, x, s))
  {
    if s != [] && !Before(sort, x, s[0]) {
      var rest := Insert(sort, x, s[1..]);
      InsertSorted(sort, x, s[1..]);
      BeforeTotal(sort, x, s[0]);
      InsertAfterHead(sort, s[0], x, s[1..]);
      var r := [s[0]] + rest;
      assert r == Insert(sort, x, s);
      forall i, j | 0 <= i < j < |r| ensures Before(sort, r[i], r[j]) {
        if i == 0 {
          assert r[j] in rest;
        } else {
          assert r[i] == rest[i - 1] && r[j] == rest[j - 1];
        }
      }
    } else if s != [] {
      var r := [x] + s;
      forall i, j | 0 <= i < j < |r| ensures Before(sort, r[i], r[j]) {
        if i == 0 && j > 1 {
          BeforeTransitive(sort, x, s[0], s[j - 1]);
        }
      }
    }
  }

  /** The sorted list is ordered by the comparator. */
  lemma {:induction false} SortTasksSorted(sort: SortOption, s: seq<Task>)
    ensures Sorted(sort, SortTasks(sort, s))
  {
    if s != [] {
      SortTasksSorted(sort, s[1..]);
      InsertSorted(sort, s[0], SortTasks(sort, s[1..]));
    }
  }

  /** The elements of `s` that tie with `t`, in order. */
  function TiedWith(sort: SortOption, t: Task, s: seq<Task>): seq<Task> {
    if s == [] then []
    else if Ties(sort, s[0], t) then [s[0]] + TiedWith(sort, t, s[1..])
    else TiedWith(sort, t, s[1..])
  }

  lemma {:induction false} InsertTiedWith(sort: SortOption, x: Task, s: seq<Task>, t: Task)
    ensures TiedWith(sort, t, Insert(sort, x, s))
         == if Ties(sort, x, t) then [x] + TiedWith(sort, t, s) else TiedWith(sort, t, s)
  {
    if s == [] {
    } else if Before(sort, x, s[0]) {
      assert ([x] + s)[1..] == s;
    } else {
      InsertTiedWith(sort, x, s[1..], t);
      assert ([s[0]] + Insert(sort, x, s[1..]))[1..] == Insert(sort, x, s[1..]);
      if Ties(sort, x, t) && Ties(sort, s[0], t) {
        BeforeTransitive(sort, x, t, s[0]);
      }
    }
  }

  /** Sorting is stable: tasks that tie keep their relative order. */
  lemma {:induction false} SortTasksStable(sort: SortOption, s: seq<Task>, t: Task)
    ensures TiedWith(sort, t, SortTasks(sort, s)) == TiedWith(sort, t, s)
  {
    if s != [] {
      SortTasksStable(sort, s[1..], t);
      InsertTiedWith(sort, s[0], SortTasks(sort, s[1..]), t);
    }
  }

  /** A task is shown iff it is in the list and passes both the search and the filter. */
  lemma VisibleMembers(tasks: seq<Task>, query: string, filter: FilterOption, sort: SortOption, t: Task)
    ensures t in VisibleTasks(tasks, query, filter, sort) <==> t in tasks && MatchesSearch(query, t) && MatchesFilter(filter, t)
  {
    var f := FilterTasks(tasks, query, filter);
    assert t in SortTasks(sort, f) <==> t in multiset(SortTasks(sort, f));
  }

  /** `'active'` shows only open tasks, `'completed'` only finished ones. */
  lemma VisibleHonoursFilter(tasks: seq<Task>, query: string, filter: FilterOption, sort: SortOption)
    ensures filter == Active ==> forall t :: t in VisibleTasks(tasks, query, filter, sort) ==> !t.completed
    ensures filter == Completed ==> forall t :: t in VisibleTasks(tasks, query, filter, sort) ==> t.completed
  {
    forall t | t in VisibleTasks(tasks, query, filter, sort) ensures MatchesFilter(filter, t) {
      VisibleMembers(tasks, query, filter, sort, t);
    }
  }

  /** An empty search with filter `'all'` keeps every task, in its original order before sorting. */
  lemma EmptySearchKeepsAll(tasks: seq<Task>, sort: SortOption)
    ensures FilterTasks(tasks, "", All) == tasks
    ensures multiset(VisibleTasks(tasks, "", All, sort)) == multiset(tasks)
  {
    forall i | 0 <= i < |tasks| ensures Keeps("", All, tasks[i]) {
      ContainsEmpty(Lower(tasks[i].title));
    }
    FilterKeepsAll(t => Keeps("", All, t), tasks);
  }

  /** The shown list is ordered by the chosen sort, and ties keep the list's order. */
  lemma VisibleOrdered(tasks: seq<Task>, query: string, filter: FilterOption, sort: SortOption, t: Task)
    ensures Sorted(sort, VisibleTasks(tasks, query, filter, sort))
    ensures TiedWith(sort, t, VisibleTasks(tasks, query, filter, sort)) == TiedWith(sort, t, FilterTasks(tasks, query, filter))
  {
    SortTasksSorted(sort, FilterTasks(tasks, query, filter));
    SortTasksStable(sort, FilterTasks(tasks, query, filter), t);
  }

  /** Spelled out per sort option: rank ascending, newest first, title ascending. */
  lemma VisibleOrderPerOption(tasks: seq<Task>, query: string, filter: FilterOption, sort: SortOption, i: int, j: int)
    requires 0 <= i < j < |VisibleTasks(tasks, query, filter, sort)|
    ensures var v := VisibleTasks(tasks, query, filter, sort);
      && (sort == ByPriority ==> Rank(v[i].priority) <= Rank(v[j].priority))
      && (sort == ByDate ==> v[i].createdAt >= v[j].createdAt)
      && (sort == ByTitle ==> LexLe(v[i].title, v[j].title))
  {
    SortTasksSorted(sort, FilterTasks(tasks, query, filter));
  }
}

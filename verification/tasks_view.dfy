/**
 * The tasks screen: the pending and completed counters, and the task list
 * after the status toggle, the filter chips, the search box and the chosen
 * sort order.
 */
module TasksScreen {
  import opened Dates
  import opened Seqs
  import opened Sorting
  import opened Text
  import opened Models

  /** Neither completed nor skipped. */
  function IsPending(t: TaskModel): bool { !t.isCompleted && !t.isSkipped }

  function IsDone(t: TaskModel): bool { t.isCompleted }

  function PendingTasks(tasks: seq<TaskModel>): (r: seq<TaskModel>)
    ensures forall t :: t in r <==> t in tasks && !t.isCompleted && !t.isSkipped
  {
    Filter(tasks, IsPending)
  }

  function CompletedTasks(tasks: seq<TaskModel>): (r: seq<TaskModel>)
    ensures forall t :: t in r <==> t in tasks && t.isCompleted
  {
    Filter(tasks, IsDone)
  }

  /**
   * The "Pending" and "Completed" cards never add up to more than "Total";
   * they add up to it exactly when no task is skipped without being completed.
   */
  lemma CountersAddUp(tasks: seq<TaskModel>)
    ensures |PendingTasks(tasks)| + |CompletedTasks(tasks)| <= |tasks|
    ensures |PendingTasks(tasks)| + |CompletedTasks(tasks)| == |tasks| <==>
              forall t :: t in tasks ==> !(t.isSkipped && !t.isCompleted)
  {
    FilterDisjointCount(tasks, IsPending, IsDone);
    if exists t :: t in tasks && t.isSkipped && !t.isCompleted {
      var t :| t in tasks && t.isSkipped && !t.isCompleted;
      SkippedOnlyMissing(tasks, t);
    }
  }

  /** A task that is skipped but not completed is on neither card. */
  lemma {:induction false} SkippedOnlyMissing(tasks: seq<TaskModel>, t: TaskModel)
    requires t in tasks && t.isSkipped && !t.isCompleted
    ensures |Filter(tasks, IsPending)| + |Filter(tasks, IsDone)| < |tasks|
    decreases |tasks|
  {
    var x := tasks[0];
    FilterDisjointCount(tasks[1..], IsPending, IsDone);
    if x != t {
      SkippedOnlyMissing(tasks[1..], t);
    }
  }

  /** `TaskPriority.sortOrder`: urgent first. */
  function SortOrder(p: TaskPriority): (n: int)
    ensures 0 <= n <= 3
    ensures n == 0 <==> p == Urgent
  {
    match p
    case Urgent => 0
    case High => 1
    case Medium => 2
    case Low => 3
  }

  /** Distinct priorities have distinct ranks, and rank follows urgency. */
  lemma SortOrderInjective(p: TaskPriority, q: TaskPriority)
    ensures SortOrder(p) == SortOrder(q) ==> p == q
    ensures SortOrder(Urgent) < SortOrder(High) < SortOrder(Medium) < SortOrder(Low)
  {
  }

  datatype TaskFilter = All | Today | Upcoming | Overdue

  datatype TaskSort = DueDate | Priority | Name | Created

  /** The filter chip's condition at the moment `now`. */
  function FilterKeeps(filter: TaskFilter, now: Time): (keeps: TaskModel -> bool)
    ensures forall t: TaskModel :: filter == All ==> keeps(t)
    ensures forall t: TaskModel :: filter == Today ==> (keeps(t) <==> StartOfDay(t.dueDate) == StartOfDay(now))
    ensures forall t: TaskModel :: filter == Upcoming ==> (keeps(t) <==> t.dueDate > now)
    ensures forall t: TaskModel :: filter == Overdue ==> (keeps(t) <==> t.dueDate < now && !t.isCompleted)
  {
    (t: TaskModel) =>
      match filter
      case All => true
      case Today => DayOf(t.dueDate) == DayOf(now)
      case Upcoming => t.dueDate > now
      case Overdue => t.dueDate < now && !t.isCompleted
  }

  /** An open task due at any other moment than `now` is upcoming or overdue, never both. */
  lemma UpcomingOverdueSplit(t: TaskModel, now: Time)
    requires !t.isCompleted && t.dueDate != now
    ensures FilterKeeps(Upcoming, now)(t) != FilterKeeps(Overdue, now)(t)
  {
  }

  /** The search box over name and description; `matches` is the locale-aware containment test. */
  function MatchesSearch(searchText: string, matches: (string, string) -> bool): TaskModel -> bool {
    (t: TaskModel) => searchText == [] || matches(t.name, searchText) || matches(t.taskDescription, searchText)
  }

  predicate DueLe(a: TaskModel, b: TaskModel) { a.dueDate <= b.dueDate }

  predicate PriorityLe(a: TaskModel, b: TaskModel) { SortOrder(a.priority) <= SortOrder(b.priority) }

  predicate CreatedLe(a: TaskModel, b: TaskModel) { a.createdAt <= b.createdAt }

  function TaskName(t: TaskModel): string { t.name }

  /** The ordering each sort choice sorts by. */
  function OrderFor(sort: TaskSort): (TaskModel, TaskModel) -> bool {
    match sort
    case DueDate => DueLe
    case Priority => PriorityLe
    case Name => NameOrder(TaskName)
    case Created => CreatedLe
  }

  lemma OrderForTotalPreorder(sort: TaskSort)
    ensures TotalPreorder(OrderFor(sort))
  {
    NameOrderTotalPreorder(TaskName);
  }

  /** Every task, or only the pending ones. */
  function StatusKeeps(showCompleted: bool): TaskModel -> bool {
    (t: TaskModel) => showCompleted || IsPending(t)
  }

  /** The list shown: status toggle, then chip, then search, then sort. */
  method FilteredTasks(tasks: seq<TaskModel>, showCompleted: bool, filter: TaskFilter, sort: TaskSort,
                       searchText: string, matches: (string, string) -> bool, now: Time)
    returns (shown: seq<TaskModel>)
    ensures forall t :: t in shown <==>
              t in tasks && StatusKeeps(showCompleted)(t) && FilterKeeps(filter, now)(t)
              && MatchesSearch(searchText, matches)(t)
    ensures multiset(shown) ==
              multiset(Filter(Filter(Filter(tasks, StatusKeeps(showCompleted)), FilterKeeps(filter, now)),
                              MatchesSearch(searchText, matches)))
    ensures SortedBy(shown, OrderFor(sort))
  {
    var kept;
    if showCompleted {
      kept := tasks;
      FilterAll(tasks, StatusKeeps(showCompleted));
    } else {
      kept := PendingTasks(tasks);
      FilterSame(tasks, IsPending, StatusKeeps(showCompleted));
    }
    if filter != All {
      kept := Filter(kept, FilterKeeps(filter, now));
    } else {
      FilterAll(kept, FilterKeeps(filter, now));
    }
    if searchText != [] {
      kept := Filter(kept, MatchesSearch(searchText, matches));
    } else {
      FilterAll(kept, MatchesSearch(searchText, matches));
    }
    shown := SortBy(kept, OrderFor(sort));
    OrderForTotalPreorder(sort);
    SortBySorted(kept, OrderFor(sort));
    forall t ensures t in shown <==> t in kept {
      SortByMembers(kept, OrderFor(sort), t);
    }
  }
}

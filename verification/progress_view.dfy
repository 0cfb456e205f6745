/**
 * The progress screen: every finished task, habit instance and dose, most
 * recent action first, narrowed by a type chip and the search box, and shown
 * thirty at a time behind a "Load More" button.
 */
module ProgressScreen {
  import opened Wrappers
  import opened Dates
  import opened Seqs
  import opened Sorting
  import opened Models
  import opened ItemsList

  /** Completed or skipped. */
  function TaskFinished(t: TaskModel): bool { t.isCompleted || t.isSkipped }

  /** A habit record is listed when it is finished and its habit still exists. */
  function HabitRecordListed(habits: seq<HabitModel>): HabitInstanceModel -> bool {
    (r: HabitInstanceModel) => (r.IsCompleted() || r.IsSkipped()) && KeyInUse(habits, HabitId, r.habitId)
  }

  /** A dose record is listed when it is finished and its medication still exists. */
  function DoseRecordListed(medications: seq<MedicationModel>): MedicationInstanceModel -> bool {
    (r: MedicationInstanceModel) => (r.IsCompleted() || r.IsSkipped()) && KeyInUse(medications, MedicationId, r.medicationId)
  }

  /**
   * The `compactMap` over habit records: one instance per listed record, built
   * from the first habit with the record's habit id, on the record's date and
   * carrying the record's state. Records of deleted habits are dropped.
   */
  function FinishedHabitInstances(habits: seq<HabitModel>, records: seq<HabitInstanceModel>): (r: seq<HabitInstance>)
    ensures |r| == |Filter(records, HabitRecordListed(habits))|
    ensures forall x :: x in r ==>
      (x.isCompleted || x.isSkipped) && x.originalHabit in habits
      && exists rec :: rec in records && rec.habitId == x.originalHabit.id && rec.scheduledDate == x.instanceDate
    decreases |records|
  {
    if records == [] then []
    else
      var rec, rest := records[0], FinishedHabitInstances(habits, records[1..]);
      assert records == [rec] + records[1..];
      match IndexOfKey(habits, HabitId, rec.habitId)
      case Some(i) =>
        if rec.IsCompleted() || rec.IsSkipped() then [NewHabitInstance(habits[i], rec.scheduledDate, Some(rec))] + rest
        else rest
      case None => rest
  }

  /** As `FinishedHabitInstances`, for dose records and the first medication with their id. */
  function FinishedDoseInstances(medications: seq<MedicationModel>, records: seq<MedicationInstanceModel>)
    : (r: seq<MedicationInstance>)
    requires forall rec :: rec in records ==> rec.doseNumber >= 1
    ensures |r| == |Filter(records, DoseRecordListed(medications))|
    ensures forall x :: x in r ==>
      (x.isCompleted || x.isSkipped) && x.originalMedication in medications
      && exists rec :: rec in records && rec.medicationId == x.originalMedication.id
                    && rec.scheduledDate == x.instanceDate && rec.doseNumber == x.doseNumber
    decreases |records|
  {
    if records == [] then []
    else
      var rec, rest := records[0], FinishedDoseInstances(medications, records[1..]);
      assert records == [rec] + records[1..];
      match IndexOfKey(medications, MedicationId, rec.medicationId)
      case Some(i) =>
        if rec.IsCompleted() || rec.IsSkipped()
        then [NewMedicationInstance(medications[i], rec.scheduledDate, rec.doseNumber, Some(rec))] + rest
        else rest
      case None => rest
  }

  /** Most recent action first; an item without an action time sorts last. */
  function RecentFirst(a: Item, b: Item): (before: bool)
    ensures a.ActionTimestamp().Some? && b.ActionTimestamp().None? ==> before
    ensures a.ActionTimestamp().None? && b.ActionTimestamp().Some? ==> !before
    ensures a.ActionTimestamp().Some? && b.ActionTimestamp().Some? ==>
      (before <==> a.ActionTimestamp().value >= b.ActionTimestamp().value)
  {
    match (a.ActionTimestamp(), b.ActionTimestamp())
    case (Some(x), Some(y)) => x >= y
    case (Some(_), None) => true
    case (None, Some(_)) => false
    case (None, None) => true
  }

  lemma RecentFirstTotalPreorder()
    ensures TotalPreorder(RecentFirst)
  {
  }

  /** What the progress list is made of, before sorting. */
  function FinishedPool(tasks: seq<TaskModel>, habits: seq<HabitModel>, habitRecords: seq<HabitInstanceModel>,
                        medications: seq<MedicationModel>, doseRecords: seq<MedicationInstanceModel>): seq<Item>
    requires forall rec :: rec in doseRecords ==> rec.doseNumber >= 1
  {
    TaskItems(Filter(tasks, TaskFinished))
    + HabitItems(FinishedHabitInstances(habits, habitRecords))
    + DoseItems(FinishedDoseInstances(medications, doseRecords))
  }

  /** Every entry of the pool is finished, so the progress list shows nothing still to do. */
  lemma PoolOnlyFinished(tasks: seq<TaskModel>, habits: seq<HabitModel>, habitRecords: seq<HabitInstanceModel>,
                         medications: seq<MedicationModel>, doseRecords: seq<MedicationInstanceModel>, x: Item)
    requires forall rec :: rec in doseRecords ==> rec.doseNumber >= 1
    requires x in FinishedPool(tasks, habits, habitRecords, medications, doseRecords)
    ensures x.IsCompleted() || x.IsSkipped()
  {
    var ts := TaskItems(Filter(tasks, TaskFinished));
    var hs := HabitItems(FinishedHabitInstances(habits, habitRecords));
    var ds := DoseItems(FinishedDoseInstances(medications, doseRecords));
    if x in ts {
      var k :| 0 <= k < |ts| && ts[k] == x;
      assert Filter(tasks, TaskFinished)[k] in Filter(tasks, TaskFinished);
    } else if x in hs {
      var k :| 0 <= k < |hs| && hs[k] == x;
      assert FinishedHabitInstances(habits, habitRecords)[k] in FinishedHabitInstances(habits, habitRecords);
    } else {
      var k :| 0 <= k < |ds| && ds[k] == x;
      assert FinishedDoseInstances(medications, doseRecords)[k] in FinishedDoseInstances(medications, doseRecords);
    }
  }

  /** The pool holds one entry per finished task and per listed habit and dose record. */
  lemma PoolSize(tasks: seq<TaskModel>, habits: seq<HabitModel>, habitRecords: seq<HabitInstanceModel>,
                 medications: seq<MedicationModel>, doseRecords: seq<MedicationInstanceModel>)
    requires forall rec :: rec in doseRecords ==> rec.doseNumber >= 1
    ensures |FinishedPool(tasks, habits, habitRecords, medications, doseRecords)|
         == |Filter(tasks, TaskFinished)| + |Filter(habitRecords, HabitRecordListed(habits))|
            + |Filter(doseRecords, DoseRecordListed(medications))|
  {
  }

  /** `allCompletedItems`: the pool, most recent action first. */
  method AllCompletedItems(tasks: seq<TaskModel>, habits: seq<HabitModel>, habitRecords: seq<HabitInstanceModel>,
                           medications: seq<MedicationModel>, doseRecords: seq<MedicationInstanceModel>)
    returns (items: seq<Item>)
    requires forall rec :: rec in doseRecords ==> rec.doseNumber >= 1
    ensures multiset(items) == multiset(FinishedPool(tasks, habits, habitRecords, medications, doseRecords))
    ensures SortedBy(items, RecentFirst)
  {
    items := [];
    items := items + TaskItems(Filter(tasks, TaskFinished));
    items := items + HabitItems(FinishedHabitInstances(habits, habitRecords));
    items := items + DoseItems(FinishedDoseInstances(medications, doseRecords));
    ghost var pool := items;
    items := SortBy(items, RecentFirst);
    RecentFirstTotalPreorder();
    SortBySorted(pool, RecentFirst);
  }

  /** The type chips. */
  datatype FilterType = All | Tasks | Habits | Medicine

  function ItemName(x: Item): string {
    match x
    case TaskItem(t) => t.name
    case HabitItem(h) => h.name
    case DoseItem(m) => m.name
  }

  function ItemDescription(x: Item): string {
    match x
    case TaskItem(t) => t.taskDescription
    case HabitItem(h) => h.itemDescription
    case DoseItem(m) => m.itemDescription
  }

  /** A chip keeps every item or one kind of item. */
  function KindKeeps(filter: FilterType): (keeps: Item -> bool)
    ensures forall x: Item :: x.TaskItem? ==> (keeps(x) <==> filter == All || filter == Tasks)
    ensures forall x: Item :: x.HabitItem? ==> (keeps(x) <==> filter == All || filter == Habits)
    ensures forall x: Item :: x.DoseItem? ==> (keeps(x) <==> filter == All || filter == Medicine)
  {
    (x: Item) =>
      match filter
      case All => true
      case Tasks => x.TaskItem?
      case Habits => x.HabitItem?
      case Medicine => x.DoseItem?
  }

  /** The search box over name and description; `matches` is the locale-aware containment test. */
  function MatchesSearch(searchText: string, matches: (string, string) -> bool): Item -> bool {
    (x: Item) => searchText == [] || matches(ItemName(x), searchText) || matches(ItemDescription(x), searchText)
  }

  /** `filteredItems`: the chip, then the search; the order of the full list is kept. */
  method FilteredItems(all: seq<Item>, filter: FilterType, searchText: string, matches: (string, string) -> bool)
    returns (items: seq<Item>)
    ensures items == Filter(Filter(all, KindKeeps(filter)), MatchesSearch(searchText, matches))
    ensures filter == All && searchText == [] ==> items == all
    ensures forall x :: x in items <==> x in all && KindKeeps(filter)(x) && MatchesSearch(searchText, matches)(x)
    ensures SortedBy(all, RecentFirst) ==> SortedBy(items, RecentFirst)
    ensures multiset(items) <= multiset(all)
  {
    items := all;
    if filter != All {
      items := Filter(items, KindKeeps(filter));
      FilterKeepsOrder(all, KindKeeps(filter), RecentFirst);
    } else {
      FilterAll(items, KindKeeps(filter));
    }
    ghost var chipped := items;
    if searchText != [] {
      items := Filter(items, MatchesSearch(searchText, matches));
      FilterKeepsOrder(chipped, MatchesSearch(searchText, matches), RecentFirst);
    } else {
      FilterAll(items, MatchesSearch(searchText, matches));
    }
  }

  /** The first `n` items, as many as the list has. */
  function Shown(items: seq<Item>, n: int): (r: seq<Item>)
    ensures |r| == if n <= 0 then 0 else if n < |items| then n else |items|
    ensures r <= items
  {
    Prefix(items, n)
  }

  /** The "Load More" button is drawn exactly when some items are not yet shown. */
  lemma LoadMoreWhenHidden(items: seq<Item>, n: int)
    requires n >= 0
    ensures |items| > n <==> |Shown(items, n)| < |items|
  {
  }

  /** Loading more keeps what was shown and shows up to thirty more. */
  lemma LoadMoreExtends(items: seq<Item>, n: int)
    requires n >= 0
    ensures Shown(items, n) <= Shown(items, n + PageSize)
    ensures |Shown(items, n + PageSize)| - |Shown(items, n)| == if |items| - n < 0 then 0
                                                                else if |items| - n < PageSize then |items| - n
                                                                else PageSize
  {
  }

  const PageSize := 30

  /** The screen's paging state: how many items are drawn. */
  class ProgressView {
    var itemsShown: int

    /** Always a positive whole number of pages. */
    predicate Valid()
      reads this
    {
      itemsShown >= PageSize && itemsShown % PageSize == 0
    }

    constructor ()
      ensures Valid() && itemsShown == PageSize
    {
      itemsShown := PageSize;
    }

    /** The "Load More" action. */
    method LoadMore()
      requires Valid()
      modifies this
      ensures Valid() && itemsShown == old(itemsShown) + PageSize
    {
      itemsShown := itemsShown + PageSize;
    }

    /** What the list draws. */
    function ShownItems(items: seq<Item>): (r: seq<Item>)
      reads this
      requires Valid()
      ensures r <= items && |r| == if itemsShown < |items| then itemsShown else |items|
    {
      Shown(items, itemsShown)
    }

    /** Whether the "Load More" button is drawn. */
    predicate ShowsLoadMore(items: seq<Item>)
      reads this
    {
      |items| > itemsShown
    }
  }
}

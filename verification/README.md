# meSync scheduling and completion tracking, in Dafny

meSync is an iOS app that keeps three kinds of items:

- **Tasks** have a due date and a priority.
- **Habits** repeat: never, daily, weekly, monthly or on listed days of the month.
- **Medications** have a number of doses a day and reminder times.

This project models the logic behind its screens and proves properties of it:

- **`Recurrence`** decides whether a habit falls on a day. It holds the item list's rule and the two weaker copies on the habits screen.
- **`ItemsList`** builds the home list. It expands habits and medications into instances over a three-day window, adds the tasks due in it, and sorts the result by time. It then splits the list into active items and the "Completed & Skipped" section, which keeps a finished item until 02:00 on the day after its action.
- **`Store`** is the in-memory data manager. It upserts and deletes records by id, deletes a habit's records along with the habit, and toggles or skips a habit's or a dose's completion record for a day. Two invariants are kept through every change:
  - ids are unique;
  - no record is both completed and skipped, and there is at most one record per habit (or dose) and day.
- **`ItemCardActions`** is the complete and skip buttons of an item card. Each button flips the card's instance and writes the matching record to the store, and the card then shows what the store holds.
- **`QuickAdd`** and **`Home`** hold the quick-add panel's state machine (hidden, accordion, or one of three forms) and the home screen's buttons that drive it.
- **`TasksScreen`**, **`HabitsScreen`**, **`MedicationsScreen`** and **`ProgressScreen`** are the list projections of the four tabs: filters, searches, sorts, counters, the month grid, the next-dose lookup, and the paged history.
- **`TaskFormScreen`**, **`HabitFormScreen`** and **`MedicationFormScreen`** are the three editing forms: field loading, the save rules that keep a record's identity, and delete.

Time is a whole number of minutes. A day is `t / 1440`, and day 0 is Thursday 1970-01-01, which fixes the raw weekday (1 = Sunday). Three things are parameters rather than computed:

- Identifiers that `UUID()` would draw are passed in as `freshId` and required to be unused.
- Foundation's calendar functions for the day of the month and the whole months elapsed are fields of a `Calendar` value.
- The locale-aware `localizedCaseInsensitiveContains` is a `matches` function parameter.

Views whose state changes in place are classes: `DataManager`, `QuickAddBinding`, `HomeView`, `ItemCard`, the three forms and `ProgressView`. Their methods state the whole new state. The list computations that loop are methods proved against a specification function. The rest are functions and lemmas.

## Model

| member | source | states |
|---|---|---|
| Recurrence.ShouldOccur | meSync/Views/ItemsListView.swift:343-381 | The item list's rule is never true before the start day, is true on the start day of a one-off habit, and for a weekly habit needs a selected weekday. |
| Recurrence.HabitsViewShouldOccur | meSync/Views/HabitsView.swift:306-331 | The habits screen's copy is never true before the start day, and is true wherever the item list's rule is. |
| Recurrence.CalendarGridShouldOccur | meSync/Views/HabitsView.swift:545-570 | The calendar grid's copy agrees with the habits screen's copy everywhere. |
| Recurrence.NeverBeforeStart | meSync/Views/ItemsListView.swift:343-349 | None of the three rules makes a habit due on a day before the day of its `remindAt`. |
| Recurrence.NoRepetitionOnlyOnStart | meSync/Views/ItemsListView.swift:352-353 | A one-off habit is due on its start day and on no other day. |
| Recurrence.DailyRule | meSync/Views/ItemsListView.swift:355-357 | A daily habit is due exactly on the days on or after the start whose distance from it the interval divides. |
| Recurrence.WeeklyRule | meSync/Views/ItemsListView.swift:359-367 | A weekly habit is due exactly when the day's Monday-based weekday is selected AND the interval divides the whole weeks elapsed. The weekday alone is not enough. |
| Recurrence.MonthlyRule | meSync/Views/ItemsListView.swift:369-375 | A monthly habit is due exactly on the selected day of the month, when the interval divides the months elapsed. |
| Recurrence.CustomRule | meSync/Views/ItemsListView.swift:377-379 | A custom habit is due on the listed days of the month, with no interval. |
| Recurrence.DailyRecurs | meSync/Views/ItemsListView.swift:355-357 | Once due, a daily habit is due again every `|interval|` days. |
| Recurrence.WeeklyRecurs | meSync/Views/ItemsListView.swift:359-367 | Once due, a weekly habit is due again every `|interval|` weeks. |
| Recurrence.ShouldOccurRefines | meSync/Views/HabitsView.swift:306-331 | Whatever the item list's rule deems due, the habits screen's copy deems due as well. |
| Recurrence.UnitIntervalsAgree | meSync/Views/HabitsView.swift:306-331 | With weekly and monthly intervals of 1, the item list's rule and the screen's copy coincide. |
| Recurrence.CopiesAgree | meSync/Views/HabitsView.swift:545-570 | The calendar grid's copy and the habits screen's copy agree on every habit and date. |
| Recurrence.DefaultHabitOnlyOnStart | meSync/Models/Models.swift:74-99 | A habit built with the default arguments has usable intervals and is due exactly on the day it was made. |
| Recurrence.DailyEveryOtherDayExample | meSync/Views/ItemsListView.swift:355-357 | With interval 2 from a Monday, the habit is due on days 0, 2 and 4 but not on day 1 or the day before the start. |
| Recurrence.WeeklyIntervalExample | meSync/Views/ItemsListView.swift:359-367 | For Mondays and Wednesdays every second week, the Monday in the skipped week has a selected weekday but is not due. |
| Recurrence.Period | meSync/Views/ItemsListView.swift:357 | The period of a non-zero interval is its absolute value, which is positive. |
| Dates.MondayBasedBijection | meSync/Views/ItemsListView.swift:360-361 | The remap `raw == 1 ? 7 : raw - 1` is a bijection on 1..7 that sends Sunday to 7 and Monday to 1. |
| Dates.WeekdayPeriodic | meSync/Views/ItemsListView.swift:360 | The raw weekday repeats every 7 days and differs for any shift of 1 to 6 days. |
| Dates.WeeksBetween | meSync/Views/ItemsListView.swift:364 | Whole weeks elapsed is the largest `w` with `7w` at most the day difference. |
| Dates.DayOf | meSync/Views/ItemsListView.swift:345-346 | A time falls inside the day it is mapped to. |
| Dates.StartOfDay | meSync/Services/DataManager.swift:109 | Start of day is at or before the time, less than a day before it, and on the same day. |
| Dates.AtTimeOf | meSync/Views/ItemsListView.swift:61-68 | Setting the clock time of a date keeps its day and takes the other time's hour and minute. |
| Dates.Hour | meSync/Views/MedicationsView.swift:270 | The hour of a time is in 0..23. |
| Dates.IsoWeekday | meSync/Views/HabitFormView.swift:119-120 | The Monday-based weekday of a day is in 1..7. |
| Models.NewTask | meSync/Models/Models.swift:24-46 | The initialiser copies every given field, and stamps both `createdAt` and `updatedAt` with the moment of construction. |
| Models.NewHabit | meSync/Models/Models.swift:74-99 | The initialiser copies every given field, and stamps both audit fields with the moment of construction. |
| Models.NewMedication | meSync/Views/MedicationFormView.swift:228-234 | The initialiser copies every given field, and stamps both `createdAt` and `updatedAt` with the moment of construction. |
| Models.DefaultHabit | meSync/Models/Models.swift:74-99 | A habit built with the default arguments has no name, no repetition, `remindAt` now, intervals and day of month 1, no selected days, and both stamps now. |
| Models.DefaultTask | meSync/Models/Models.swift:24-46 | A task made with the default arguments is pending with no stamps, has medium priority, and is due and stamped at `now`. |
| Models.NewHabitRecord | meSync/Models/Models.swift:114-126 | A record made with the default arguments is neither completed nor skipped. |
| ItemsList.FirstStamp | meSync/Views/ItemsListView.swift:40-42 | `completedAt ?? skippedAt` is absent iff both are absent, and is the completion stamp when there is one. |
| ItemsList.NewHabitInstance | meSync/Views/ItemsListView.swift:44-75 | An instance is scheduled on the date's day at the habit's clock time. It has the habit-and-day key, and it takes its completion state and stamps from the stored record, if any. |
| ItemsList.NewMedicationInstance | meSync/Views/ItemsListView.swift:120-157 | Dose `n` is at reminder `n-1`'s clock time on the date, or at the bare date when there is no such reminder. It has the medication-day-dose key and the record's state. |
| ItemsList.DateRange | meSync/Views/ItemsListView.swift:193-199 | The window is the midnights of today and the next two days. |
| ItemsList.HabitDays | meSync/Views/ItemsListView.swift:252-257 | One habit yields at most one instance per window date, each of that habit. |
| ItemsList.HabitOccurrences | meSync/Views/ItemsListView.swift:248-262 | The expansion has at most one instance per habit and date, and each comes from a listed habit. |
| ItemsList.HabitDaysMembers | meSync/Views/ItemsListView.swift:252-257 | An instance is listed for a habit iff it is built for some window date on which the habit is due. |
| ItemsList.HabitOccurrencesMembers | meSync/Views/ItemsListView.swift:248-262 | An instance is generated iff some habit is due on some window date and the instance is built from that habit, that date and its stored record. |
| ItemsList.GenerateHabitInstances | meSync/Views/ItemsListView.swift:248-262 | The nested loop yields exactly the habit-major, date-minor sequence of due instances. |
| ItemsList.AppendHabitDays | meSync/Views/ItemsListView.swift:251-257 | The inner loop appends exactly one habit's instances on its due dates, in date order, each with that day's stored record. |
| ItemsList.Doses | meSync/Views/ItemsListView.swift:271-284 | One day yields `n` instances with dose numbers 1..n, each built from its stored record. |
| ItemsList.MedicationDays | meSync/Views/ItemsListView.swift:269-285 | Every instance of one medication is of that medication, with a dose number in 1..timesPerDay. |
| ItemsList.MedicationOccurrences | meSync/Views/ItemsListView.swift:265-289 | Every instance comes from a listed medication, with a dose number in 1..timesPerDay of that medication. |
| ItemsList.MedicationDaysLength | meSync/Views/ItemsListView.swift:269-285 | A medication yields `timesPerDay` instances per window day. |
| ItemsList.TotalDoses | meSync/Views/MedicationsView.swift:252-254 | The day's dose count, the sum of `timesPerDay`: 0 for no medications, and at least one per medication when each takes at least one dose. |
| ItemsList.MedicationOccurrencesLength | meSync/Views/ItemsListView.swift:265-289 | Expansion yields the window length times the sum of `timesPerDay` instances. |
| ItemsList.MedicationDaysMembers | meSync/Views/ItemsListView.swift:269-285 | An instance is listed iff it is dose `n`, with `1 <= n <= timesPerDay`, of a window date. |
| ItemsList.GenerateMedicationInstances | meSync/Views/ItemsListView.swift:265-289 | The triple loop yields the medication-major expansion, of length 3 times the sum of `timesPerDay`. |
| ItemsList.AppendMedicationDays | meSync/Views/ItemsListView.swift:269-285 | The inner loops append one medication's expansion to what came before. |
| ItemsList.ScheduledLeTotalPreorder | meSync/Views/ItemsListView.swift:309 | Ordering by scheduled time is a total preorder. |
| ItemsList.AllItems | meSync/Views/ItemsListView.swift:292-310 | The home list is a permutation of the window's tasks plus the due habit instances plus the doses, sorted by scheduled time. |
| ItemsList.InWindow | meSync/Views/ItemsListView.swift:298-301 | A task is in the window iff its due day is today or one of the next two days. |
| ItemsList.TaskInPool | meSync/Views/ItemsListView.swift:298-301 | A task is on the home list iff its due day lies in [today, today + 3). |
| ItemsList.ActiveItems | meSync/Views/ItemsListView.swift:312-314 | Active items are exactly those that are neither completed nor skipped. Each one is kept with all its copies, and the list's time order is kept. |
| ItemsList.ArchiveCutoff | meSync/Views/ItemsListView.swift:328-329 | The cutoff is 02:00 on the day after the action. |
| ItemsList.StillShown | meSync/Views/ItemsListView.swift:321-332 | Only finished items are shown. A finished item with no action time, or whose cutoff (02:00 on the day after its action) has not yet come, is shown. Nothing is shown at or after that cutoff. |
| ItemsList.CompletedAndSkippedItems | meSync/Views/ItemsListView.swift:316-333 | An item is in the finished section iff it is completed or skipped and either has no action time or `now` is before its cutoff. Every copy of a shown item is kept, and nothing else. |
| ItemsList.CompletedFirstLeTotalPreorder | meSync/Views/ItemsListView.swift:334-340 | Completed-first, then by time, is a total preorder. |
| ItemsList.CompletedAndSkippedOrdered | meSync/Views/ItemsListView.swift:334-340 | The finished section is sorted, and no skipped item comes before a completed one. |
| ItemsList.ActiveAndFinishedDisjoint | meSync/Views/ItemsListView.swift:312-333 | No item is in both sections, and an item missing from the active list is finished. |
| ItemsList.CutoffExample | meSync/Views/ItemsListView.swift:316-333 | A habit completed at 23:00 is still shown at 01:59 the next day and gone at 02:01. |
| ItemsList.TaskItems | meSync/Views/ItemsListView.swift:161-165 | Tasks are wrapped as list items one for one, in order. |
| Store.DataManager.constructor | meSync/Services/DataManager.swift:25-51 | A manager whose loads all fail starts with every list empty and valid. |
| Store.DataManager.SaveTask | meSync/Services/DataManager.swift:53-60 | The task replaces the one with its id in place, or is appended. Nothing else changes, and ids stay unique. |
| Store.DataManager.DeleteTask | meSync/Services/DataManager.swift:62-65 | Every task with that id is removed and the rest keep their order. |
| Store.DataManager.ToggleTaskCompletion | meSync/Services/DataManager.swift:67-73 | The task is saved with its completion flipped. |
| Store.TaskCompletionToggled | meSync/Services/DataManager.swift:67-73 | Completion flips, `completedAt` is set iff now completed and then equals `now`, and the skip fields are untouched. |
| Store.TaskToggleTwice | meSync/Services/DataManager.swift:67-73 | Toggling a pending task twice leaves it pending with no completion stamp. |
| Store.DataManager.SaveHabit | meSync/Services/DataManager.swift:77-87 | The habit, restamped at `now`, is upserted by id. Nothing else changes. |
| Store.DataManager.DeleteHabit | meSync/Services/DataManager.swift:89-95 | The habit and every record of its instances are removed. The store stays valid. |
| Store.DeleteHabitCascades | meSync/Services/DataManager.swift:89-95 | After the delete, no habit and no record with that habit id remain, and every other record is kept. |
| Store.GetHabitInstance | meSync/Services/DataManager.swift:99-105 | The result is a stored record of that habit on that day, with no earlier one. It is absent iff there is none. |
| Store.GetHabitInstanceOnly | meSync/Services/DataManager.swift:99-105 | In a store with one record per habit and day, the lookup returns that record. |
| Store.CompletionToggled | meSync/Services/DataManager.swift:107-135 | The record written is completed iff the found one was not. Completion is stamped `now` and clears the skip. A new record gets the fresh id at start of day. It is never both completed and skipped. |
| Store.ToggleTwiceClears | meSync/Services/DataManager.swift:107-135 | Toggling twice from a non-completed day leaves the day's record neither completed nor skipped. |
| Store.DataManager.ToggleHabitCompletion | meSync/Services/DataManager.swift:107-135 | The day's record is replaced in place or appended. The store stays valid: unique ids, one record per habit and day, never completed and skipped together. |
| Store.Skipped | meSync/Services/DataManager.swift:137-161 | The record written is skipped at `now` with no completion, and keeps the found record's id and slot. |
| Store.SkipIsNotToggle | meSync/Services/DataManager.swift:137-161 | Skipping twice leaves the day skipped, stamped with the later time. |
| Store.DataManager.SkipHabit | meSync/Services/DataManager.swift:137-161 | The day's record becomes skipped, is created if absent, and the store stays valid. |
| Store.UpsertKeepsStoreValid | meSync/Services/DataManager.swift:111-131 | Writing an exclusive record into its slot under a fitting id keeps a store valid. |
| Store.StoreRecordKeepsValid | meSync/Services/DataManager.swift:111-157 | A record written by a toggle or a skip keeps the habit store valid, and the lookup then finds it. |
| Store.FilterKeepsStoreValid | meSync/Services/DataManager.swift:92 | Removing records keeps a store valid. |
| Store.FoundIsOnly | meSync/Services/DataManager.swift:121 | In a store with unique keys, `firstIndex` finds a stored record at its own index. |
| Store.RemoveFoundEmptiesSlot | meSync/Views/ItemsListView.swift:719-721 | Removing the record found for a slot by its id leaves that slot empty. |
| Store.DataManager.RemoveHabitRecord | meSync/Views/ItemsListView.swift:720 | `removeAll` by record id removes exactly those records and keeps the store valid. |
| Store.DataManager.SaveMedication | meSync/Services/DataManager.swift:165-175 | The medication, restamped at `now`, is upserted by id. |
| Store.DataManager.DeleteMedication | meSync/Services/DataManager.swift:177-180 | The medication is removed by id. Its dose records are left in place. |
| Store.FreshKeyAppends | meSync/Services/DataManager.swift:56-58 | Saving a record whose id is not in use appends it. |
| Store.GetMedicationInstance | meSync/Views/ItemsListView.swift:272-276 | The dose lookup returns a stored record for that medication, day and dose, or none iff there is none. |
| Store.DoseCompletionToggled | meSync/Views/ItemsListView.swift:791 | As for habits: completion flips, is stamped `now`, clears the skip, and keeps the slot. |
| Store.DoseSkipped | meSync/Views/ItemsListView.swift:736 | As for habits: skipped at `now` with no completion, in the same slot. |
| Store.StoreDoseKeepsValid | meSync/Views/ItemsListView.swift:736-791 | Writing a dose record into its slot keeps the dose store valid. |
| Store.DataManager.ToggleMedicationCompletion | meSync/Views/ItemsListView.swift:791 | The dose's record is toggled as for habits, and the store stays valid. |
| Store.DataManager.SkipMedication | meSync/Views/ItemsListView.swift:736 | The dose's record is skipped as for habits, and the store stays valid. |
| Store.DataManager.StoreDose | meSync/Views/ItemsListView.swift:736-791 | A dose record is written at its slot or appended, and the store stays valid. |
| Store.DataManager.RemoveMedicationRecord | meSync/Views/ItemsListView.swift:748 | `removeAll` by dose-record id keeps the store valid. |
| Seqs.Upsert | meSync/Services/DataManager.swift:53-58 | The saved record is present, and the length grows by one iff its key was new. Records with other keys stay at their index. |
| Seqs.UpsertUnique | meSync/Services/DataManager.swift:53-58 | Upserting keeps keys unique, makes the saved record the only one with its key, and keeps every other record. |
| Seqs.IndexOfKey | meSync/Services/DataManager.swift:54 | `firstIndex(where:)` returns the first index with the key, or none iff no element has it. |
| Seqs.RemoveKey | meSync/Services/DataManager.swift:63 | `removeAll` keeps exactly the elements whose key differs. |
| Seqs.Filter | meSync/Views/TasksView.swift:230-236 | A filter keeps exactly the elements satisfying the predicate, as a sub-multiset. |
| Seqs.FilterCount | meSync/Views/ItemsListView.swift:312-314 | A filter keeps every copy of an element that satisfies the predicate, and no copy of one that does not. |
| Seqs.Prefix | meSync/Views/ProgressView.swift:42 | `prefix(n)` is the first `min(n, count)` elements. |
| Sorting.SortBy | meSync/Views/TasksView.swift:264-276 | Sorting yields a permutation of the input. |
| Sorting.SortBySorted | meSync/Views/TasksView.swift:264-276 | Under a total preorder, the sort's output is sorted. |
| Text.Trim | meSync/Views/HabitFormView.swift:49-51 | The result is the contiguous middle of the text, with whitespace only before and after it. It is empty iff the text is all whitespace, and otherwise neither of its ends is whitespace. |
| Text.SkipLeading | meSync/Views/HabitFormView.swift:49-51 | The scan stops at the first non-whitespace character at or after its start, or at the end; everything it passes is whitespace. |
| Text.SkipTrailing | meSync/Views/HabitFormView.swift:49-51 | The scan stops just after the last non-whitespace character above its lower bound; everything it drops is whitespace. |
| Text.TrimIdempotent | meSync/Views/MedicationFormView.swift:213 | Trimming a trimmed name changes nothing. |
| Text.NameOrderTotalPreorder | meSync/Views/HabitsView.swift:265 | Ordering by name is a total preorder. |
| ItemCardActions.TaskCompleteToggled | meSync/Views/ItemsListView.swift:761-770 | Completion flips and forces the skip off, and `completedAt` is set iff now completed. |
| ItemCardActions.TaskSkipToggled | meSync/Views/ItemsListView.swift:697-706 | Skip flips and forces completion off, and `skippedAt` is set iff now skipped. |
| ItemCardActions.TaskTogglesConsistent | meSync/Views/ItemsListView.swift:697-770 | Either button leaves any task in a consistent state, and pressing one twice returns a task to pending with no stamps. |
| ItemCardActions.HabitCompleteToggled | meSync/Views/ItemsListView.swift:771-782 | The habit instance's completion flips and clears its skip. |
| ItemCardActions.HabitSkipToggled | meSync/Views/ItemsListView.swift:707-726 | The habit instance's skip flips and clears its completion. |
| ItemCardActions.DoseCompleteToggled | meSync/Views/ItemsListView.swift:783-799 | The dose instance's completion flips and clears its skip. |
| ItemCardActions.DoseSkipToggled | meSync/Views/ItemsListView.swift:727-755 | The dose instance's skip flips and clears its completion. |
| ItemCardActions.HabitCompleteAgrees | meSync/Views/ItemsListView.swift:771-782 | After the complete button, the flipped instance is what the list would build from the updated store. |
| ItemCardActions.HabitSkipAgrees | meSync/Views/ItemsListView.swift:707-726 | After the skip button, the store agrees with the flipped instance. The stored record is removed when a skip is undone. |
| ItemCardActions.DoseCompleteAgrees | meSync/Views/ItemsListView.swift:783-799 | As for habits, for a dose. |
| ItemCardActions.DoseSkipAgrees | meSync/Views/ItemsListView.swift:727-755 | As for habits, for a dose. |
| ItemCardActions.ItemCard.constructor | meSync/Views/ItemsListView.swift:405-409 | A card holds its item and the shared store. |
| ItemCardActions.ItemCard.ToggleCompleteAction | meSync/Views/ItemsListView.swift:759-801 | A task is saved flipped. For a habit or a dose, the day's record is toggled in its slot. Only that one list changes; habits and medications are untouched. The card's item flips, the store stays valid and still shows the item, and the refresh trigger advances by 1. |
| ItemCardActions.ItemCard.ToggleSkipAction | meSync/Views/ItemsListView.swift:695-757 | A task is saved with its skip flipped. For a habit or a dose, a skip writes a skipped record into the day's slot, and undoing a skip removes the day's record if there is one. Only that one list changes. The card's item flips, the store stays valid and still shows the item, and the refresh trigger advances by 1. |
| QuickAdd.QuickAddState.IsFormVisible | meSync/Styles/QuickAddState.swift:21-28 | A form is visible exactly in the states other than hidden and the accordion. |
| QuickAdd.QuickAddState.IsEditing | meSync/Styles/QuickAddState.swift:39-50 | Editing happens only while a form is visible. |
| QuickAdd.QuickAddState.FormTitle | meSync/Styles/QuickAddState.swift:53-64 | The title is empty iff no form is visible, and it reads "Editing …" exactly when a record is being edited. |
| QuickAdd.QuickAddState.CanTransitionTo | meSync/Styles/QuickAddState.swift:69-86 | No allowed move stays in place. Every move starts or ends at the accordion or ends at hidden, and from hidden only the accordion can be reached. |
| QuickAdd.QuickAddState.Cancel | meSync/Styles/QuickAddState.swift:89-98 | A form falls back to the accordion; the accordion and hidden go to hidden. |
| QuickAdd.QuickAddState.Hide | meSync/Styles/QuickAddState.swift:101-103 | Hiding always yields hidden. |
| QuickAdd.EditingNeedsForm | meSync/Styles/QuickAddState.swift:21-64 | Editing implies a form is visible. The title is empty exactly for hidden and accordion. Form and accordion are never both visible. |
| QuickAdd.CancelTwiceHides | meSync/Styles/QuickAddState.swift:89-103 | Two cancels from any state reach hidden, and hiding is idempotent. |
| QuickAdd.TransitionsIrreflexive | meSync/Styles/QuickAddState.swift:69-86 | No state may move to itself, hidden never opens a form directly, and every move goes through the accordion or to hidden. |
| QuickAdd.CancelIsTransition | meSync/Styles/QuickAddState.swift:69-98 | Every cancel that changes the state is an allowed move, and cancel leaves only hidden unchanged. |
| QuickAdd.QuickAddBinding.constructor | meSync/Styles/QuickAddState.swift:11-16 | The binding holds its initial state. |
| QuickAdd.QuickAddBinding.Cancel | meSync/Styles/QuickAddState.swift:89-98 | The mutating cancel replaces the state by its cancel. |
| QuickAdd.QuickAddBinding.Hide | meSync/Styles/QuickAddState.swift:101-103 | The mutating hide sets the state to hidden. |
| Home.QuickAddToggled | meSync/Views/HomeView.swift:236-243 | Hidden goes to the accordion, and every other state goes to hidden. |
| Home.ToggleIsTransition | meSync/Views/HomeView.swift:236-243 | Every toggle is an allowed move, two toggles from hidden return to hidden, and from any other state two toggles reach the accordion. |
| Home.HomeView.constructor | meSync/Views/HomeView.swift:10-15 | Both form counters start at 0. |
| Home.HomeView.ToggleQuickAdd | meSync/Views/HomeView.swift:236-243 | The panel state is replaced by its toggle. |
| Home.HomeView.ShowTaskForm | meSync/Views/HomeView.swift:245-252 | The task counter goes up by exactly 1, the habit counter is kept, and a new task form opens. |
| Home.HomeView.ShowHabitForm | meSync/Views/HomeView.swift:254-261 | The habit counter goes up by exactly 1, the task counter is kept, and a new habit form opens. |
| Home.HomeView.ShowMedicationForm | meSync/Views/HomeView.swift:263-267 | A new medication form opens, and no counter changes. |
| TasksScreen.PendingTasks | meSync/Views/TasksView.swift:230-232 | Pending tasks are exactly those neither completed nor skipped. |
| TasksScreen.CompletedTasks | meSync/Views/TasksView.swift:234-236 | Completed tasks are exactly the completed ones. |
| TasksScreen.CountersAddUp | meSync/Views/TasksView.swift:87-111 | "Pending" plus "Completed" is at most "Total", with equality iff no task is skipped without being completed. |
| TasksScreen.SkippedOnlyMissing | meSync/Views/TasksView.swift:87-111 | A task that is skipped but not completed is counted on neither card. |
| TasksScreen.SortOrder | meSync/Views/TasksView.swift:450-459 | The rank is in 0..3 and is 0 exactly for urgent. |
| TasksScreen.SortOrderInjective | meSync/Views/TasksView.swift:450-459 | Distinct priorities have distinct ranks, in the order urgent < high < medium < low. |
| TasksScreen.FilterKeeps | meSync/Views/TasksView.swift:242-253 | "All" keeps every task. "Today" keeps exactly the tasks due on today's day, "Upcoming" exactly those due after now, and "Overdue" exactly the open tasks due before now. |
| TasksScreen.UpcomingOverdueSplit | meSync/Views/TasksView.swift:248-253 | An open task due at any moment other than `now` is in exactly one of "Upcoming" and "Overdue". |
| TasksScreen.OrderForTotalPreorder | meSync/Views/TasksView.swift:264-276 | Each sort choice orders tasks by a total preorder. |
| TasksScreen.FilteredTasks | meSync/Views/TasksView.swift:238-277 | The list is a sorted permutation of the tasks that pass the status toggle, the chip and the search. A task is in it iff it passes all three. |
| HabitsScreen.FilteredHabits | meSync/Views/HabitsView.swift:249-266 | The list holds exactly the habits of the chosen frequency that match the search, as a permutation of that filter, sorted by name. |
| HabitsScreen.TodayHabitsCount | meSync/Views/HabitsView.swift:268-275 | The count is at most the number of habits, and is 0 iff no habit is due today by the screen's rule. |
| HabitsScreen.GetTotalCount | meSync/Views/HabitsView.swift:539-543 | The grid's count is at most the number of habits, and is 0 iff none is due that day. |
| HabitsScreen.TodayCountIsGridCount | meSync/Views/HabitsView.swift:268-275 | The header's count and the grid's count for today are equal. |
| HabitsScreen.ListDueAtMostTodayCount | meSync/Views/HabitsView.swift:268-275 | The habits the home list shows today are never more than the header's count. |
| HabitsScreen.LaterFirstTotalPreorder | meSync/Views/HabitsView.swift:279-281 | Latest-first is a total preorder. |
| HabitsScreen.RecentCompletions | meSync/Views/HabitsView.swift:278-283 | Only completed records are kept, latest first. |
| HabitsScreen.LongestStreak | meSync/Views/HabitsView.swift:277-285 | The streak is the number of completed records, capped at 30. |
| HabitsScreen.GetCompletionCount | meSync/Views/HabitsView.swift:532-537 | The count is 0 iff no record of that day is completed. |
| HabitsScreen.CompletionCountAtMostCompleted | meSync/Views/HabitsView.swift:532-537 | A day's count never exceeds the number of completed records. |
| HabitsScreen.CalendarDays | meSync/Views/HabitsView.swift:509-530 | The grid is the weekday offset of blanks, then every day of the month in order, then fewer than 7 blanks, for a length that is a multiple of 7. |
| MedicationsScreen.TodayMedicationInstances | meSync/Views/MedicationsView.swift:225-250 | Today's doses are the one-day expansion, and there are exactly `Σ timesPerDay` of them. |
| ItemsList.AppendDosesOn | meSync/Views/MedicationsView.swift:233-246 | The inner dose loop, shared with the list's loop at ItemsListView.swift:271-283, appends exactly doses 1..timesPerDay of one medication on one date, each with that dose's stored record. |
| MedicationsScreen.OneDayDoses | meSync/Views/MedicationsView.swift:225-250 | The one-day expansion of a medication is its doses for that day. |
| MedicationsScreen.TakenTodayCount | meSync/Views/MedicationsView.swift:256-258 | "Taken" never exceeds the day's dose count. |
| MedicationsScreen.TakenDoseHasRecord | meSync/Views/MedicationsView.swift:256-258 | A dose shown as taken has a completed record of its medication on its day. |
| MedicationsScreen.NothingTakenWithoutRecords | meSync/Views/MedicationsView.swift:256-258 | With no completed record today, "Taken" is 0. |
| MedicationsScreen.MedicationDaysInstanceDate | meSync/Views/MedicationsView.swift:225-250 | Every expanded dose is dated on one of the given days. |
| MedicationsScreen.InRange | meSync/Views/MedicationsView.swift:264-295 | "All" takes every hour. Morning, afternoon and evening lie within 05:00-21:00, and night is exactly the rest of the day. |
| MedicationsScreen.HasReminderIn | meSync/Views/MedicationsView.swift:264-295 | "All" keeps every medication. Any other chip keeps a medication iff some reminder's hour lies in the chip's range, so one with no reminder is kept by no other chip. |
| MedicationsScreen.RangesPartitionDay | meSync/Views/MedicationsView.swift:264-295 | Morning, afternoon, evening and night split hours 0..23: each hour is in exactly one. |
| MedicationsScreen.ReminderFindsAChip | meSync/Views/MedicationsView.swift:264-295 | A medication with a reminder is kept by some time-of-day chip. |
| MedicationsScreen.FilteredMedications | meSync/Views/MedicationsView.swift:260-307 | The list holds exactly the medications with a reminder in the chosen range that match the search, as a permutation of that filter, sorted by name. |
| MedicationsScreen.GetNextDoseTime | meSync/Views/MedicationsView.swift:584-608 | Returns nothing iff there are no reminders. Otherwise it returns the first reminder, in list order, that is later today, or "tomorrow" with the first reminder when none is. For reminders in clock order, the one returned is the earliest still ahead. |
| MedicationsScreen.ClockOrderMonotone | meSync/Views/MedicationsView.swift:584-608 | In clock order, later reminders fall later on any given day. |
| ProgressScreen.FinishedHabitInstances | meSync/Views/ProgressView.swift:166-174 | One instance per finished record whose habit still exists. Each is finished, built from a listed habit, and backed by a matching record. |
| ProgressScreen.FinishedDoseInstances | meSync/Views/ProgressView.swift:175-184 | One instance per finished dose record whose medication still exists, backed by a matching record. |
| ProgressScreen.RecentFirst | meSync/Views/ProgressView.swift:191-195 | Items with an action time come before items without one, and among timed items the later action comes first. |
| ProgressScreen.RecentFirstTotalPreorder | meSync/Views/ProgressView.swift:191-195 | Most-recent-first with missing times last is a total preorder. |
| ProgressScreen.PoolOnlyFinished | meSync/Views/ProgressView.swift:161-186 | Every entry of the history is completed or skipped. |
| ProgressScreen.PoolSize | meSync/Views/ProgressView.swift:161-186 | The history holds one entry per finished task and per listed habit and dose record. |
| ProgressScreen.AllCompletedItems | meSync/Views/ProgressView.swift:161-196 | The history is a permutation of the finished pool, most recent action first. |
| ProgressScreen.FilteredItems | meSync/Views/ProgressView.swift:198-222 | The result is exactly the history filtered by the chip and then by the search, so multiplicities and order are kept. "All" with an empty search returns the whole history. An item is kept iff it is of the chosen kind and matches the search. |
| ProgressScreen.KindKeeps | meSync/Views/ProgressView.swift:202-211 | "All" keeps every kind. Each other chip keeps exactly its own kind: tasks, habit instances or doses. |
| Sorting.FilterKeepsOrder | meSync/Views/ProgressView.swift:202-211 | Filtering a list sorted by an order gives a list sorted by the same order. |
| ProgressScreen.Shown | meSync/Views/ProgressView.swift:42 | The shown items are a prefix of length `min(n, count)`. |
| ProgressScreen.LoadMoreWhenHidden | meSync/Views/ProgressView.swift:50 | "Load More" is drawn iff some items are not shown. |
| ProgressScreen.LoadMoreExtends | meSync/Views/ProgressView.swift:126-129 | Loading more keeps the shown prefix and shows up to 30 more. |
| ProgressScreen.ProgressView.constructor | meSync/Views/ProgressView.swift:17 | The screen starts showing 30 items. |
| ProgressScreen.ProgressView.LoadMore | meSync/Views/ProgressView.swift:126-129 | Pressing "Load More" adds exactly 30, keeping a whole number of pages. |
| ProgressScreen.ProgressView.ShownItems | meSync/Views/ProgressView.swift:42 | The list draws the first `itemsShown` items, or all of them. |
| DaySets.SortedElements | meSync/Views/HabitFormView.swift:472-475 | `Array(set).sorted()` holds exactly the set's elements, strictly increasing. |
| DaySets.SortedElementsOfIncreasing | meSync/Views/HabitFormView.swift:66 | Sorting the set of a strictly increasing list gives back the list. |
| DaySets.LeastExists | meSync/Views/HabitFormView.swift:472 | A non-empty set of days has a least element. |
| DaySets.Toggled | meSync/Views/HabitFormView.swift:300-304 | Tapping a day flips its membership and leaves every other day alone. |
| DaySets.ToggleTwice | meSync/Views/HabitFormView.swift:389-393 | Tapping a day twice restores the set. |
| HabitFormScreen.BuildHabit | meSync/Views/HabitFormView.swift:461-482 | The saved habit keeps the edited habit's id and creation time, or gets the fresh id and `now`. It is stamped `now`. Name, description, frequency, reminder time, the three intervals and the day of month are the form's values, and its day lists are the sorted contents of the form's sets. |
| HabitFormScreen.EditRoundTrip | meSync/Views/HabitFormView.swift:54-73 | Opening a habit with sorted day lists and saving it unchanged gives back the habit, restamped. |
| HabitFormScreen.HabitFormView.constructor | meSync/Views/HabitFormView.swift:54-73 | A habit form state with a habit loads all of its fields. Otherwise the declared defaults are used. |
| HabitFormScreen.HabitFormView.AutoSelectWeekday | meSync/Views/HabitFormView.swift:116-122 | Weekly with no weekday selected adds today's Monday-based weekday, so the set is no longer empty. Nothing is removed. |
| HabitFormScreen.HabitFormView.SelectFrequency | meSync/Views/HabitFormView.swift:192-203 | A frequency chip selects that frequency and auto-selects a weekday for weekly. |
| HabitFormScreen.HabitFormView.ToggleWeekday | meSync/Views/HabitFormView.swift:300-304 | A weekday chip toggles that day only. |
| HabitFormScreen.HabitFormView.ToggleCustomDay | meSync/Views/HabitFormView.swift:389-393 | A day-of-month chip toggles that day only. |
| HabitFormScreen.HabitFormView.SaveHabit | meSync/Views/HabitFormView.swift:461-490 | A blank name changes nothing. Otherwise the draft is upserted by id (a new habit is appended) and the panel is hidden. |
| HabitFormScreen.HabitFormView.DeleteHabit | meSync/Views/HabitFormView.swift:492-501 | Acts only when editing. The habit and its records are removed, and the panel is hidden. |
| TaskFormScreen.BuildTask | meSync/Views/TaskFormView.swift:242-252 | An edit keeps the id and the completion and skip fields. A new task gets the fresh id and starts pending. Both stamps are `now`. |
| TaskFormScreen.EditResetsCreatedAt | meSync/Views/TaskFormView.swift:242-252 | Saving an edited task unchanged moves its creation time to `now`, and it is the only field besides `updatedAt` that moves. |
| TaskFormScreen.TaskFormView.constructor | meSync/Views/TaskFormView.swift:41-54 | A task form state with a task loads its fields. Otherwise the declared defaults are used. |
| TaskFormScreen.TaskFormView.SaveTask | meSync/Views/TaskFormView.swift:239-260 | A blank name changes nothing. Otherwise the draft is upserted by id (a new task is appended) and the panel is hidden. |
| TaskFormScreen.TaskFormView.DeleteTask | meSync/Views/TaskFormView.swift:262-271 | Acts only when editing. The task is removed and the panel is hidden. |
| MedicationFormScreen.BuildMedication | meSync/Views/MedicationFormView.swift:213-234 | The saved medication has the trimmed name and the single reminder `[reminderTime]`. It keeps the edited id and creation time, or gets the fresh id and `now`, and is stamped `now`. |
| MedicationFormScreen.SavedNameTrimmed | meSync/Views/MedicationFormView.swift:209-218 | The saved name is already trimmed, and it is empty iff the form could not be saved. |
| MedicationFormScreen.MedicationFormView.constructor | meSync/Views/MedicationFormView.swift:15-23 | The declared defaults: blank text, once a day, reminder now, not editing. |
| MedicationFormScreen.MedicationFormView.LoadFormData | meSync/Views/MedicationFormView.swift:185-198 | A medication form state with a medication loads its fields, and its first reminder only if it has one. Any other state leaves the form as it was. |
| MedicationFormScreen.MedicationFormView.CancelAction | meSync/Views/MedicationFormView.swift:200-206 | The panel state is replaced by its cancel. |
| MedicationFormScreen.MedicationFormView.SaveAction | meSync/Views/MedicationFormView.swift:208-242 | A blank name changes nothing. Otherwise the draft is upserted by id (a new medication is appended) and the panel is hidden. |
| MedicationFormScreen.MedicationFormView.DeleteAction | meSync/Views/MedicationFormView.swift:244-252 | Acts only when editing. The medication is removed and the panel is hidden. |

## Left out

- **File and database I/O.**
  - `DataManager`'s `saveData`, `loadData`, `printStorageLocation` and `clearAllData` are not modelled. The manager starts from failed loads, which leave every list empty.
  - `PersistenceManager.swift` and `CoreDataManager.swift` are not part of this model. They hold JSON and Core Data plumbing the screens do not use.
- **Instance identifiers.** `UUID(namespace:name:)` hashes with a per-process string hash and mixes in a random value, so it is not a function and is not modelled. Instances carry their deterministic key (habit and day, or medication, day and dose) instead.
- **Fresh identifiers.** `UUID()` is a `freshId` parameter, and callers must pass one not in use. This stands in for UUID uniqueness.
- **Calendar internals.**
  - Time zones, daylight saving and `DateFormatter` output are not modelled: a day is always 1440 minutes.
  - The day of the month and the months elapsed are uninterpreted fields of `Calendar`, so short-month behaviour is whatever they yield.
  - `CalendarDays` takes the month's first day and its length as inputs rather than computing them.
- **Locale-aware search.** `localizedCaseInsensitiveContains` is the `matches` parameter. Case folding and locale rules are not modelled.
- **Floating point and presentation.** Completion rates, percentages, progress bars, colours, icons, animations and `body` layouts are not modelled. Neither are `AppTheme.swift`, `ViewExtensions.swift`, `MinimalContentView.swift` and `meSyncApp.swift`.
- **The task edit's creation time.** `TaskFormScreen.EditResetsCreatedAt` states the code as written: an edit rebuilds the task through its initialiser, which stamps `createdAt` anew.
- **Observation plumbing.** `@MainActor`, `@Published` and `ObservableObject` carry no logic here. SwiftUI's in-place mutation of the `HabitInstance` and `MedicationInstance` objects is modelled as `ItemCard` replacing its item with the updated value.
- **The medication record store.** `medicationInstances`, `getMedicationInstance`, `toggleMedicationCompletion` and `skipMedication` are called by the views but not defined in `DataManager.swift`. They are modelled by analogy with the habit records, keyed additionally by dose number.
- **Medication fields.** `MedicationModel` follows the fields the views use (`medicationDescription`, `instructions`, `timesPerDay`, `reminderTimes`), not the older shape in `Models.swift`.
- **The medication form's dose count.** The form shows a fixed "1 time daily" label and no control for `timesPerDay`. The field keeps its loaded or default value, as in the model.
- **Preconditions.** The interval that a frequency divides by must be non-zero, and `timesPerDay` at least 1. The source traps otherwise (`%` by zero, the range `1...timesPerDay`).
- Store.DataManager.DeleteMedication: the medication's dose records are not removed, following the code. A medication's doses are listed from the medication itself, so they disappear with it.
- Text.StrLe: orders strings by comparing characters, i.e. code points, lexicographically. Swift's `String <` compares under Unicode canonical equivalence, so strings that differ only in composed and decomposed accents may be ordered differently by name.
- ItemsList.NewMedicationInstance: requires a dose number of at least 1. For any smaller number the source indexes `reminderTimes[doseNumber - 1]` out of range, because `doseNumber - 1 < count` always holds then (ItemsListView.swift:138-139), and traps.
- ProgressScreen.FinishedDoseInstances: requires every stored dose record to have a dose number of at least 1, for the same reason. A record with dose 0 would trap the history screen.
- Sorting.SortBy: the model sorts by insertion and proves only "sorted and a permutation". Swift's `sort` is not stable, and the order it gives equal keys is not captured.
- HabitsScreen.RecentCompletions: only "completed records, latest first" is stated, not that it holds every completed record.
- HabitsScreen.TodayHabitsCount: a count of the screen's weaker rule. Its relation to the item list's rule is stated separately, in `ListDueAtMostTodayCount`.

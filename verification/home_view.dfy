/** The home screen's quick-add controls and its form counters. */
module Home {
  import opened Wrappers
  import opened QuickAdd

  /** The state `toggleQuickAdd` moves to: hidden opens the accordion, anything else closes. */
  function QuickAddToggled(s: QuickAddState): (r: QuickAddState)
    ensures s.Hidden? <==> r.Accordion?
    ensures !s.Hidden? <==> r.Hidden?
  {
    match s
    case Hidden => Accordion
    case _ => Hidden
  }

  /** Every toggle is an allowed transition, and two toggles from hidden come back to hidden. */
  lemma ToggleIsTransition(s: QuickAddState)
    ensures s.CanTransitionTo(QuickAddToggled(s))
    ensures QuickAddToggled(QuickAddToggled(Hidden)) == Hidden
    ensures !s.Hidden? ==> QuickAddToggled(QuickAddToggled(s)) == Accordion
  {
  }

  class HomeView {
    const quickAddState: QuickAddBinding
    var taskFormCounter: int
    var habitFormCounter: int

    constructor (binding: QuickAddBinding)
      ensures quickAddState == binding && taskFormCounter == 0 && habitFormCounter == 0
    {
      quickAddState := binding;
      taskFormCounter := 0;
      habitFormCounter := 0;
    }

    /** `toggleQuickAdd`. */
    method ToggleQuickAdd()
      modifies quickAddState
      ensures quickAddState.state == QuickAddToggled(old(quickAddState.state))
    {
      match quickAddState.state {
        case Hidden => quickAddState.state := Accordion;
        case _ => quickAddState.state := Hidden;
      }
    }

    /** `showTaskForm`: a fresh creation form, and a new form identity. */
    method ShowTaskForm()
      modifies this, quickAddState
      ensures taskFormCounter == old(taskFormCounter) + 1 && habitFormCounter == old(habitFormCounter)
      ensures quickAddState.state == TaskForm(None) && !quickAddState.state.IsEditing()
    {
      taskFormCounter := taskFormCounter + 1;
      quickAddState.state := TaskForm(None);
    }

    /** `showHabitForm`: a fresh creation form, and a new form identity. */
    method ShowHabitForm()
      modifies this, quickAddState
      ensures habitFormCounter == old(habitFormCounter) + 1 && taskFormCounter == old(taskFormCounter)
      ensures quickAddState.state == HabitForm(None) && !quickAddState.state.IsEditing()
    {
      habitFormCounter := habitFormCounter + 1;
      quickAddState.state := HabitForm(None);
    }

    /** `showMedicationForm`: a fresh creation form; no counter changes. */
    method ShowMedicationForm()
      modifies quickAddState
      ensures quickAddState.state == MedicationForm(None) && !quickAddState.state.IsEditing()
    {
      quickAddState.state := MedicationForm(None);
    }
  }
}

/**
 * The quick-add panel's state: hidden, the accordion of "add" buttons, or one
 * of the three forms, each either creating a record or editing a given one.
 */
module QuickAdd {
  import opened Wrappers
  import opened Models

  datatype QuickAddState =
    | Hidden
    | Accordion
    | TaskForm(editingTask: Option<TaskModel>)
    | HabitForm(editingHabit: Option<HabitModel>)
    | MedicationForm(editingMedication: Option<MedicationModel>)
  {
    /** One of the three forms is open. */
    function IsFormVisible(): (visible: bool)
      ensures visible <==> !(Hidden? || Accordion?)
    {
      TaskForm? || HabitForm? || MedicationForm?
    }

    predicate IsAccordionVisible() {
      Accordion?
    }

    /** A form is open on an existing record. */
    function IsEditing(): (editing: bool)
      ensures editing ==> IsFormVisible()
    {
      match this
      case TaskForm(t) => t.Some?
      case HabitForm(h) => h.Some?
      case MedicationForm(m) => m.Some?
      case _ => false
    }

    /** The form's header: "Editing …" or "Creating …", and empty when no form is open. */
    function FormTitle(): (title: string)
      ensures title == "" <==> !IsFormVisible()
      ensures IsEditing() <==> title != "" && title[0] == 'E'
    {
      match this
      case TaskForm(t) => if t.Some? then "Editing Task" else "Creating Task"
      case HabitForm(h) => if h.Some? then "Editing Habit" else "Creating Habit"
      case MedicationForm(m) => if m.Some? then "Editing Medication" else "Creating Medication"
      case _ => ""
    }

    /**
     * The allowed moves: hidden and the accordion open each other, the
     * accordion opens any form, and a form closes to the accordion or to hidden.
     */
    function CanTransitionTo(next: QuickAddState): (allowed: bool)
      ensures allowed ==> this != next
      ensures allowed ==> IsAccordionVisible() || next.IsAccordionVisible() || next.Hidden?
      ensures Hidden? && allowed ==> next.Accordion?
    {
      match (this, next)
      case (Hidden, Accordion) => true
      case (Accordion, Hidden) => true
      case (Accordion, TaskForm(_)) => true
      case (Accordion, HabitForm(_)) => true
      case (Accordion, MedicationForm(_)) => true
      case (TaskForm(_), Accordion) => true
      case (HabitForm(_), Accordion) => true
      case (MedicationForm(_), Accordion) => true
      case (TaskForm(_), Hidden) => true
      case (HabitForm(_), Hidden) => true
      case (MedicationForm(_), Hidden) => true
      case _ => false
    }

    /** `cancel()`: a form falls back to the accordion, the accordion to hidden. */
    function Cancel(): (r: QuickAddState)
      ensures IsFormVisible() ==> r == Accordion
      ensures !IsFormVisible() ==> r == Hidden
    {
      match this
      case TaskForm(_) => Accordion
      case HabitForm(_) => Accordion
      case MedicationForm(_) => Accordion
      case Accordion => Hidden
      case Hidden => Hidden
    }

    /** `hide()`. */
    function Hide(): (r: QuickAddState)
      ensures r == Hidden
    {
      Hidden
    }
  }

  /** Editing only happens inside a form, and a title is shown exactly when a form is. */
  lemma EditingNeedsForm(s: QuickAddState)
    ensures s.IsEditing() ==> s.IsFormVisible()
    ensures s.FormTitle() == "" <==> s.Hidden? || s.Accordion?
    ensures s.IsFormVisible() <==> !(s.Hidden? || s.Accordion?)
    ensures !(s.IsFormVisible() && s.IsAccordionVisible())
  {
  }

  /** Two cancels reach hidden from anywhere; hiding is idempotent. */
  lemma CancelTwiceHides(s: QuickAddState)
    ensures s.Cancel().Cancel() == Hidden
    ensures s.Hide().Hide() == s.Hide()
  {
  }

  /** No state moves to itself, and no form opens straight from hidden. */
  lemma TransitionsIrreflexive(s: QuickAddState, t: QuickAddState)
    ensures !s.CanTransitionTo(s)
    ensures s.Hidden? && t.IsFormVisible() ==> !s.CanTransitionTo(t)
    ensures s.CanTransitionTo(t) ==> s.IsAccordionVisible() || t.IsAccordionVisible() || t.Hidden?
  {
  }

  /** Every cancel that changes the state is an allowed transition. */
  lemma CancelIsTransition(s: QuickAddState)
    ensures s.Cancel() != s ==> s.CanTransitionTo(s.Cancel())
    ensures s.Cancel() == s <==> s.Hidden?
  {
  }

  /** The `@Binding` the home screen shares with the forms. */
  class QuickAddBinding {
    var state: QuickAddState

    constructor (initial: QuickAddState)
      ensures state == initial
    {
      state := initial;
    }

    /** `quickAddState.cancel()`. */
    method Cancel()
      modifies this
      ensures state == old(state).Cancel()
    {
      state := state.Cancel();
    }

    /** `quickAddState.hide()`. */
    method Hide()
      modifies this
      ensures state == Hidden
    {
      state := state.Hide();
    }
  }
}

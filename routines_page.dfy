/** The routine editor of `routines.tsx`: the form's validation schema, the
    exercise list it edits, the values a stored routine fills it with, and the
    dialog state that decides between creating and updating a routine. */
module RoutinesPage {
  import opened Common
  import opened Text
  import opened Schema

  /** `RoutineFormData`. */
  datatype RoutineForm = RoutineForm(
    name: string,
    description: Option<string>,
    duration: int,
    exercises: seq<string>)

  /** The duration a new form starts with, and the one an edited routine
      without a (non-zero) duration gets. */
  const DefaultDuration: int := 30

  /** The `defaultValues` given to `useForm`: the form starts with them, and a
      bare `form.reset()` restores them until a `form.reset(values)` makes
      `values` the defaults instead. */
  const BlankForm: RoutineForm := RoutineForm("", Some(""), DefaultDuration, [])

  /** `routineFormSchema`: a name of at least one character, a duration of
      at least one minute and at least one exercise; the description is free. */
  predicate ValidForm(f: RoutineForm)
    ensures ValidForm(f) ==> f.name != "" && f.exercises != [] && f != BlankForm
  {
    |f.name| >= 1 && f.duration >= 1 && |f.exercises| >= 1
  }

  /** The description is optional: it never decides whether a form is valid. */
  lemma DescriptionFree(f: RoutineForm, description: Option<string>)
    ensures ValidForm(f) <==> ValidForm(f.(description := description))
  {
  }

  /** The blank form cannot be submitted: it has neither a name nor an
      exercise, although its duration is acceptable. */
  lemma BlankFormInvalid()
    ensures !ValidForm(BlankForm)
    ensures BlankForm.duration >= 1
  {
  }

  /** `[...exercises, input.trim()]` when the trimmed input is not empty, the
      list as it was otherwise. */
  function WithExercise(exercises: seq<string>, input: string): (r: seq<string>)
    ensures Trim(input) == [] <==> r == exercises
    ensures Trim(input) != [] ==> |r| == |exercises| + 1 && r[..|exercises|] == exercises && r[|exercises|] == Trim(input)
  {
    if Trim(input) != [] then exercises + [Trim(input)] else exercises
  }

  /** An added exercise is never blank and never starts or ends with white
      space, so adding it again through the input would add the same text. */
  lemma AddedExerciseIsTrimmed(exercises: seq<string>, input: string)
    requires Trim(input) != []
    ensures var r := WithExercise(exercises, input);
      |r| == |exercises| + 1 && r[|exercises|] != [] && Trim(r[|exercises|]) == r[|exercises|]
  {
    TrimIdempotent(input);
  }

  /** `list.filter((_, i) => i !== index)`: every element except the one at
      `index`, in order. */
  function WithoutIndex<T>(s: seq<T>, index: int): (r: seq<T>)
    ensures 0 <= index < |s| ==> r == s[..index] + s[index + 1..]
    ensures !(0 <= index < |s|) ==> r == s
    decreases |s|
  {
    if s == [] then []
    else (if index == 0 then [] else [s[0]]) + WithoutIndex(s[1..], index - 1)
  }

  /** Removing the exercise just added gives back the list before it. */
  lemma RemoveUndoesAdd(exercises: seq<string>, input: string)
    requires Trim(input) != []
    ensures WithoutIndex(WithExercise(exercises, input), |exercises|) == exercises
  {
    var r := WithExercise(exercises, input);
    assert r[..|exercises|] == exercises;
  }

  /** The form `startEdit` fills in from a stored routine: its name, its
      description or "" when there is none or it is empty, its duration or
      30 when it is missing or zero, and its exercises. */
  function EditForm(r: WorkoutRoutine): (f: RoutineForm)
    ensures f.name == r.name && f.exercises == r.exercises
    ensures f.description.Some? && f.description.value == r.description.GetOr("")
    ensures f.duration != 0
    ensures r.duration.Some? && r.duration.value != 0 ==> f.duration == r.duration.value
  {
    RoutineForm(
      r.name,
      Some(if r.description.Some? && r.description.value != "" then r.description.value else ""),
      if r.duration.Some? && r.duration.value != 0 then r.duration.value else DefaultDuration,
      r.exercises)
  }

  /** A stored routine that has a name and an exercise, and no negative
      duration, can be saved again unchanged from the edit form. */
  lemma EditFormValid(r: WorkoutRoutine)
    requires |r.name| >= 1 && |r.exercises| >= 1
    requires r.duration.None? || r.duration.value >= 0
    ensures ValidForm(EditForm(r))
  {
  }

  /** What a valid submission sends. */
  datatype Request =
    | CreateRoutine(data: RoutineForm)
    | UpdateRoutine(id: int, data: RoutineForm)

  /** The state of the `Routines` page that its handlers change. */
  class Page {
    var isAddingRoutine: bool
    var editingRoutine: Option<WorkoutRoutine>
    var exerciseInput: string
    var form: RoutineForm
    /** The values a bare `form.reset()` restores. */
    var defaults: RoutineForm
    /** The create and update requests sent so far, in order. */
    var sent: seq<Request>

    constructor ()
      ensures !isAddingRoutine && editingRoutine == None && exerciseInput == ""
      ensures form == BlankForm && defaults == BlankForm && sent == []
    {
      isAddingRoutine := false;
      editingRoutine := None;
      exerciseInput := "";
      form := BlankForm;
      defaults := BlankForm;
      sent := [];
    }

    /** The "Add New" button. */
    method OpenAdd()
      modifies this
      ensures isAddingRoutine
      ensures editingRoutine == old(editingRoutine) && exerciseInput == old(exerciseInput)
      ensures form == old(form) && sent == old(sent)
      ensures defaults == old(defaults)
    {
      isAddingRoutine := true;
    }

    /** Typing in the exercise input. */
    method SetExerciseInput(value: string)
      modifies this
      ensures exerciseInput == value
      ensures isAddingRoutine == old(isAddingRoutine) && editingRoutine == old(editingRoutine)
      ensures form == old(form) && sent == old(sent)
      ensures defaults == old(defaults)
    {
      exerciseInput := value;
    }

    /** Typing in the duration input: `parseInt(value) || 0`. */
    method SetDurationInput(value: string)
      modifies this
      ensures form == old(form).(duration := ParseIntOrZero(value))
      ensures isAddingRoutine == old(isAddingRoutine) && editingRoutine == old(editingRoutine)
      ensures exerciseInput == old(exerciseInput) && sent == old(sent)
      ensures defaults == old(defaults)
    {
      form := form.(duration := ParseIntOrZero(value));
    }

    /** `addExercise`: a non-blank input is trimmed onto the end of the list
        and cleared; a blank one changes nothing. */
    method AddExercise()
      modifies this
      ensures form == old(form).(exercises := WithExercise(old(form.exercises), old(exerciseInput)))
      ensures exerciseInput == if Trim(old(exerciseInput)) != [] then "" else old(exerciseInput)
      ensures isAddingRoutine == old(isAddingRoutine) && editingRoutine == old(editingRoutine)
      ensures sent == old(sent)
      ensures defaults == old(defaults)
    {
      var trimmed := Trim(exerciseInput);
      if trimmed != [] {
        form := form.(exercises := form.exercises + [trimmed]);
        exerciseInput := "";
      }
    }

    /** `removeExercise`: the exercise at `index` leaves the list. */
    method RemoveExercise(index: int)
      modifies this
      ensures form == old(form).(exercises := WithoutIndex(old(form.exercises), index))
      ensures isAddingRoutine == old(isAddingRoutine) && editingRoutine == old(editingRoutine)
      ensures exerciseInput == old(exerciseInput) && sent == old(sent)
      ensures defaults == old(defaults)
    {
      form := form.(exercises := WithoutIndex(form.exercises, index));
    }

    /** `startEdit`: the routine becomes the one being edited, the form is
        filled from it, and the dialog opens. `form.reset(values)` also makes
        the routine's values the form's defaults. */
    method StartEdit(routine: WorkoutRoutine)
      modifies this
      ensures editingRoutine == Some(routine) && form == EditForm(routine) && isAddingRoutine
      ensures defaults == EditForm(routine)
      ensures exerciseInput == old(exerciseInput) && sent == old(sent)
    {
      editingRoutine := Some(routine);
      form := EditForm(routine);
      defaults := EditForm(routine);
      isAddingRoutine := true;
    }

    /** The dialog's `onOpenChange`: Escape, a click on the overlay or the
        close button only sets the open flag; the routine being edited and
        the form stay as they were. */
    method OnOpenChange(open: bool)
      modifies this
      ensures isAddingRoutine == open
      ensures editingRoutine == old(editingRoutine) && exerciseInput == old(exerciseInput)
      ensures form == old(form) && sent == old(sent)
      ensures defaults == old(defaults)
    {
      isAddingRoutine := open;
    }

    /** `cancelEdit`: nothing is being edited, the dialog closes and the form
        goes back to its defaults, which are the last edited routine's values
        once any routine has been edited. */
    method CancelEdit()
      modifies this
      ensures editingRoutine == None && !isAddingRoutine && form == old(defaults)
      ensures defaults == old(defaults) && exerciseInput == old(exerciseInput) && sent == old(sent)
    {
      editingRoutine := None;
      isAddingRoutine := false;
      form := defaults;
    }

    /** The cancel the page evidently intends: the form is blank again, and
        so are the defaults a later bare reset restores, as
        `form.reset(blankValues)` would give. */
    method CancelEditToBlank()
      modifies this
      ensures editingRoutine == None && !isAddingRoutine && form == BlankForm && defaults == BlankForm
      ensures exerciseInput == old(exerciseInput) && sent == old(sent)
    {
      editingRoutine := None;
      isAddingRoutine := false;
      form := BlankForm;
      defaults := BlankForm;
    }

    /** `form.handleSubmit(onSubmit)`: an invalid form sends nothing; a valid
        one updates the routine being edited, or creates a new routine when
        none is. */
    method Submit()
      modifies this
      ensures !ValidForm(old(form)) ==> sent == old(sent)
      ensures ValidForm(old(form)) && old(editingRoutine).Some? ==>
        sent == old(sent) + [UpdateRoutine(old(editingRoutine).value.id, old(form))]
      ensures ValidForm(old(form)) && old(editingRoutine).None? ==>
        sent == old(sent) + [CreateRoutine(old(form))]
      ensures isAddingRoutine == old(isAddingRoutine) && editingRoutine == old(editingRoutine)
      ensures exerciseInput == old(exerciseInput) && form == old(form)
      ensures defaults == old(defaults)
    {
      if !ValidForm(form) {
        return;
      }
      if editingRoutine.Some? {
        sent := sent + [UpdateRoutine(editingRoutine.value.id, form)];
      } else {
        sent := sent + [CreateRoutine(form)];
      }
    }

    /** The create mutation's `onSuccess`: the dialog closes and the form
        goes back to its defaults. */
    method OnCreateSuccess()
      modifies this
      ensures !isAddingRoutine && form == old(defaults)
      ensures editingRoutine == old(editingRoutine) && exerciseInput == old(exerciseInput) && sent == old(sent)
      ensures defaults == old(defaults)
    {
      isAddingRoutine := false;
      form := defaults;
    }

    /** The update mutation's `onSuccess`: nothing is being edited any more
        and the form goes back to its defaults, the routine's values as
        `startEdit` loaded them; the dialog's open flag is left as it is. */
    method OnUpdateSuccess()
      modifies this
      ensures editingRoutine == None && form == old(defaults)
      ensures isAddingRoutine == old(isAddingRoutine) && exerciseInput == old(exerciseInput) && sent == old(sent)
      ensures defaults == old(defaults)
    {
      editingRoutine := None;
      form := defaults;
    }
  }

  /** Dismissing the edit dialog instead of cancelling it leaves the routine
      selected: "Add New" then reopens the dialog on the old routine, and
      submitting it updates that routine rather than creating a new one. */
  method DismissThenAddUpdates(routine: WorkoutRoutine) returns (sent: seq<Request>)
    requires |routine.name| >= 1 && |routine.exercises| >= 1
    requires routine.duration.None? || routine.duration.value >= 0
    ensures sent == [UpdateRoutine(routine.id, EditForm(routine))]
  {
    var page := new Page();
    page.StartEdit(routine);
    page.OnOpenChange(false);
    page.OpenAdd();
    EditFormValid(routine);
    page.Submit();
    sent := page.sent;
  }

  /** As written, cancelling an edit does not clear the form for the next
      routine: after editing a routine and cancelling, "Add New" opens the
      dialog on that routine's values, and submitting creates a copy of it. */
  method CancelThenAddDuplicates(routine: WorkoutRoutine) returns (sent: seq<Request>)
    requires |routine.name| >= 1 && |routine.exercises| >= 1
    requires routine.duration.None? || routine.duration.value >= 0
    ensures sent == [CreateRoutine(EditForm(routine))]
  {
    var page := new Page();
    page.StartEdit(routine);
    page.CancelEdit();
    page.OpenAdd();
    EditFormValid(routine);
    page.Submit();
    sent := page.sent;
  }

  /** With the intended cancel, the same steps open a blank form, and
      submitting it sends nothing. */
  method CancelToBlankThenAddSendsNothing(routine: WorkoutRoutine) returns (sent: seq<Request>)
    ensures sent == []
  {
    var page := new Page();
    page.StartEdit(routine);
    page.CancelEditToBlank();
    page.OpenAdd();
    BlankFormInvalid();
    page.Submit();
    sent := page.sent;
  }
}

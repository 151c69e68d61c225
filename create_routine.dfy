/** The coach's routine builder: a routine form, an exercise sub-form whose
    validated entries are appended to the routine, per-index removal, and a
    validated submit to the routine service. */
module CreateRoutine {
  import opened Common
  import JsParseInt
  import App

  /** The routine being built (`RoutineDTO`). */
  datatype RoutineDraft = RoutineDraft(
    name: string,
    objective: string,
    description: string,
    exercises: seq<Exercise>,
    duration: string,
    frequency: string)

  /** The text inputs of the routine form, by their `name` attribute. */
  datatype RoutineField = Name | Objective | Description | Duration | Frequency

  /** The inputs of the exercise form, by their `name` attribute. */
  datatype ExerciseField = ExName | ExDescription | Sets | Repetitions | Instructions

  const EmptyDraft := RoutineDraft("", "", "", [], "", "")
  const EmptyExercise := Exercise("", "", 0, 0, "")

  const InvalidExerciseMessage := "Por favor completa todos los campos del ejercicio correctamente."
  const MissingFieldsMessage := "Por favor completa todos los campos obligatorios de la rutina."
  const NoExercisesMessage := "Debes agregar al menos un ejercicio a la rutina."
  const CreateFailedMessage := "Ocurrió un error al crear la rutina. Por favor intenta de nuevo."
  /** Where the page navigates two seconds after a successful create. */
  const AfterCreatePath := "/rutinas"

  /** An exercise may enter the list only with a name, a description and a
      positive number of sets and of repetitions. */
  predicate ValidExercise(e: Exercise): (ok: bool)
    ensures ok ==> e != EmptyExercise
  {
    e.name != "" && e.description != "" && e.sets > 0 && e.repetitions > 0
  }

  /** The clean-list invariant: every stored exercise is valid. */
  predicate AllValid(xs: seq<Exercise>)
  {
    forall i | 0 <= i < |xs| :: ValidExercise(xs[i])
  }

  function RoutineFieldValue(d: RoutineDraft, f: RoutineField): (v: string)
  {
    match f
    case Name => d.name
    case Objective => d.objective
    case Description => d.description
    case Duration => d.duration
    case Frequency => d.frequency
  }

  /** `handleRoutineChange`: the named text field takes the typed value; the
      other fields and the exercise list are untouched. */
  function SetRoutineField(d: RoutineDraft, f: RoutineField, value: string): (r: RoutineDraft)
    ensures RoutineFieldValue(r, f) == value
    ensures forall g | g != f :: RoutineFieldValue(r, g) == RoutineFieldValue(d, g)
    ensures r.exercises == d.exercises
  {
    match f
    case Name => d.(name := value)
    case Objective => d.(objective := value)
    case Description => d.(description := value)
    case Duration => d.(duration := value)
    case Frequency => d.(frequency := value)
  }

  /** `handleExerciseChange`: the two count fields store `parseInt(value) || 0`,
      the text fields store the value verbatim; nothing else changes. */
  function SetExerciseField(e: Exercise, f: ExerciseField, value: string): (r: Exercise)
    ensures r.name == (if f == ExName then value else e.name)
    ensures r.description == (if f == ExDescription then value else e.description)
    ensures r.sets == (if f == Sets then JsParseInt.IntOrZero(value) else e.sets)
    ensures r.repetitions == (if f == Repetitions then JsParseInt.IntOrZero(value) else e.repetitions)
    ensures r.instructions == (if f == Instructions then value else e.instructions)
  {
    match f
    case Sets => e.(sets := JsParseInt.IntOrZero(value))
    case Repetitions => e.(repetitions := JsParseInt.IntOrZero(value))
    case ExName => e.(name := value)
    case ExDescription => e.(description := value)
    case Instructions => e.(instructions := value)
  }

  /** Typing the decimal text of a count stores that count. */
  lemma TypedCountIsStored(e: Exercise, n: nat)
    ensures SetExerciseField(e, Sets, JsParseInt.DecimalString(n)).sets == n
    ensures SetExerciseField(e, Repetitions, JsParseInt.DecimalString(n)).repetitions == n
  {
    JsParseInt.DecimalRoundTrip(n);
  }

  /** Filling the exercise form with a name, a description and the decimal
      text of two positive counts makes the exercise addable. */
  lemma TypedExerciseIsValid(e: Exercise, name: string, description: string, sets: nat, repetitions: nat)
    requires name != "" && description != "" && sets > 0 && repetitions > 0
    ensures ValidExercise(
              SetExerciseField(SetExerciseField(SetExerciseField(SetExerciseField(e,
                ExName, name), ExDescription, description),
                Sets, JsParseInt.DecimalString(sets)), Repetitions, JsParseInt.DecimalString(repetitions)))
  {
    JsParseInt.DecimalRoundTrip(sets);
    JsParseInt.DecimalRoundTrip(repetitions);
  }

  /** A cleared count input stores 0, so the exercise cannot be added. */
  lemma ClearedCountBlocksAdd(e: Exercise)
    ensures !ValidExercise(SetExerciseField(e, Sets, ""))
    ensures !ValidExercise(SetExerciseField(e, Repetitions, ""))
  {
    JsParseInt.NonNumericExamples();
  }

  /** `exercises.filter((_, i) => i !== index)`: drops the element at
      `index`, if there is one, keeping the others in order. */
  function RemoveAt(xs: seq<Exercise>, index: int): (r: seq<Exercise>)
    ensures |r| == if 0 <= index < |xs| then |xs| - 1 else |xs|
    ensures forall i | 0 <= i < |r| :: r[i] in xs
  {
    if xs == [] then []
    else (if index == 0 then [] else [xs[0]]) + RemoveAt(xs[1..], index - 1)
  }

  /** Removing an index in range deletes exactly that element. */
  lemma {:induction false} RemoveAtInRange(xs: seq<Exercise>, index: int)
    requires 0 <= index < |xs|
    ensures RemoveAt(xs, index) == xs[..index] + xs[index + 1..]
  {
    if index > 0 {
      RemoveAtInRange(xs[1..], index - 1);
      assert xs[1..][..index - 1] == xs[1..index];
      assert xs[1..][index..] == xs[index + 1..];
      assert xs[..index] == [xs[0]] + xs[1..index];
    } else {
      RemoveAtOutOfRange(xs[1..], -1);
    }
  }

  /** Removing an index out of range changes nothing. */
  lemma {:induction false} RemoveAtOutOfRange(xs: seq<Exercise>, index: int)
    requires !(0 <= index < |xs|)
    ensures RemoveAt(xs, index) == xs
  {
    if xs != [] {
      assert index != 0;
      RemoveAtOutOfRange(xs[1..], index - 1);
      assert RemoveAt(xs, index) == [xs[0]] + RemoveAt(xs[1..], index - 1);
      assert [xs[0]] + xs[1..] == xs;
    }
  }

  /** Removal keeps the clean-list invariant. */
  lemma RemoveAtKeepsValid(xs: seq<Exercise>, index: int)
    requires AllValid(xs)
    ensures AllValid(RemoveAt(xs, index))
  {
  }

  /** Submit validation: the three mandatory routine fields are checked
      before the exercise list, and a call is made only when neither check
      fails. */
  function SubmitError(d: RoutineDraft): (err: Option<string>)
    ensures err.None? <==> d.name != "" && d.objective != "" && d.description != "" && |d.exercises| > 0
    ensures (d.name == "" || d.objective == "" || d.description == "") ==> err == Some(MissingFieldsMessage)
    ensures (d.name != "" && d.objective != "" && d.description != "" && d.exercises == [])
              ==> err == Some(NoExercisesMessage)
  {
    if d.name == "" || d.objective == "" || d.description == "" then Some(MissingFieldsMessage)
    else if |d.exercises| == 0 then Some(NoExercisesMessage)
    else None
  }

  /** The redirect after a successful create names no declared route, so the
      router's catch-all sends it to the login page whatever the session. */
  lemma AfterCreateRedirectEndsAtLogin(store: Storage)
    ensures AfterCreatePath !in App.Routes
    ensures App.Resolve(AfterCreatePath, store) == App.Navigate("/login")
  {
  }

  datatype BuilderSnapshot = BuilderSnapshot(
    loading: bool,
    error: Option<string>,
    success: bool,
    routineData: RoutineDraft,
    newExercise: Exercise,
    pendingNavigation: Option<string>)

  /** The `CreateRoutine` component's state. `pendingNavigation` is the
      redirect scheduled after a successful create. */
  class RoutineBuilder {
    var loading: bool
    var error: Option<string>
    var success: bool
    var routineData: RoutineDraft
    var newExercise: Exercise
    var pendingNavigation: Option<string>

    function Snapshot(): (s: BuilderSnapshot)
      reads this
    {
      BuilderSnapshot(loading, error, success, routineData, newExercise, pendingNavigation)
    }

    /** Every exercise in the routine has passed validation. */
    predicate Valid()
      reads this
    {
      AllValid(routineData.exercises)
    }

    constructor ()
      ensures Valid()
      ensures Snapshot() == BuilderSnapshot(false, None, false, EmptyDraft, EmptyExercise, None)
    {
      loading := false;
      error := None;
      success := false;
      routineData := EmptyDraft;
      newExercise := EmptyExercise;
      pendingNavigation := None;
    }

    method HandleRoutineChange(f: RoutineField, value: string)
      requires Valid()
      modifies this
      ensures Valid()
      ensures Snapshot() == old(Snapshot()).(routineData := SetRoutineField(old(routineData), f, value))
    {
      routineData := SetRoutineField(routineData, f, value);
    }

    method HandleExerciseChange(f: ExerciseField, value: string)
      requires Valid()
      modifies this
      ensures Valid()
      ensures Snapshot() == old(Snapshot()).(newExercise := SetExerciseField(old(newExercise), f, value))
    {
      newExercise := SetExerciseField(newExercise, f, value);
    }

    /** `handleAddExercise`: an invalid exercise sets the error and changes
      nothing else; a valid one is appended (a copy, at the end), the exercise
      form is reset and the error cleared. */
    method HandleAddExercise()
      requires Valid()
      modifies this
      ensures Valid()
      ensures !ValidExercise(old(newExercise)) ==>
                Snapshot() == old(Snapshot()).(error := Some(InvalidExerciseMessage))
      ensures ValidExercise(old(newExercise)) ==>
                Snapshot() == old(Snapshot()).(
                  routineData := old(routineData).(exercises := old(routineData.exercises) + [old(newExercise)]),
                  newExercise := EmptyExercise,
                  error := None)
    {
      if !ValidExercise(newExercise) {
        error := Some(InvalidExerciseMessage);
        return;
      }
      routineData := routineData.(exercises := routineData.exercises + [newExercise]);
      newExercise := EmptyExercise;
      error := None;
    }

    /** `handleRemoveExercise`: filters the list by index. */
    method HandleRemoveExercise(index: int)
      requires Valid()
      modifies this
      ensures Valid()
      ensures Snapshot() == old(Snapshot()).(
                routineData := old(routineData).(exercises := RemoveAt(old(routineData.exercises), index)))
    {
      RemoveAtKeepsValid(routineData.exercises, index);
      routineData := routineData.(exercises := RemoveAt(routineData.exercises, index));
    }

    /** `handleSubmit` with the outcome of `createRoutine`: a validation
      failure sets its message and sends nothing; otherwise the draft is sent,
      a success marks the page done and schedules the redirect, and a failure
      sets the fixed error with the form data kept. Loading is off afterwards. */
    method HandleSubmit(response: Outcome<Routine>) returns (sent: Option<RoutineDraft>)
      requires Valid()
      modifies this
      ensures Valid()
      ensures sent.None? <==> SubmitError(old(routineData)).Some?
      ensures sent.Some? ==> sent.value == old(routineData)
      ensures SubmitError(old(routineData)).Some? ==>
                Snapshot() == old(Snapshot()).(error := SubmitError(old(routineData)))
      ensures SubmitError(old(routineData)).None? && response.Success? ==>
                Snapshot() == old(Snapshot()).(
                  loading := false, error := None, success := true, pendingNavigation := Some(AfterCreatePath))
      ensures SubmitError(old(routineData)).None? && response.Failure? ==>
                Snapshot() == old(Snapshot()).(loading := false, error := Some(CreateFailedMessage))
    {
      if routineData.name == "" || routineData.objective == "" || routineData.description == "" {
        error := Some(MissingFieldsMessage);
        return None;
      }
      if |routineData.exercises| == 0 {
        error := Some(NoExercisesMessage);
        return None;
      }
      loading := true;
      error := None;
      sent := Some(routineData);
      match response {
        case Success(_) =>
          success := true;
          loading := false;
          pendingNavigation := Some(AfterCreatePath);
        case Failure(_) =>
          error := Some(CreateFailedMessage);
          loading := false;
      }
    }
  }
}

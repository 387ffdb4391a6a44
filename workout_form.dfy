/**
 * What the create and edit screens do with the workout form: the values they
 * start from, the values they load from a stored workout, the exercise they
 * append, and the workout they build on submit. Fresh exercise ids and the
 * current date come from the clock and are parameters.
 */
module WorkoutForm {
  import opened Wrappers
  import opened Workouts
  import opened WorkoutSchema

  // ---------------------------------------------------------------------------
  // Normalising optional fields
  // ---------------------------------------------------------------------------

  /** `s || undefined` on an optional string: the empty string counts as absent. */
  function OrUndefined(s: Option<string>): (r: Option<string>)
    ensures r.Some? <==> s.Some? && s.value != ""
    ensures r.Some? ==> r == s
  {
    if s.Some? && s.value != "" then s else None
  }

  /** `s || ''`: an absent string becomes the empty string. */
  function OrEmpty(s: Option<string>): (r: Option<string>)
    ensures r.Some?
    ensures s.Some? && s.value != "" ==> r == s
    ensures OrUndefined(r) == OrUndefined(s)
  {
    if s.Some? && s.value != "" then s else Some("")
  }

  /** `n ? Number(n) : undefined` on an optional number: zero counts as absent. */
  function TruthyNumber(n: Option<int>): (r: Option<int>)
    ensures r.Some? <==> n.Some? && n.value != 0
    ensures r.Some? ==> r == n
  {
    if n.Some? && n.value != 0 then n else None
  }

  /** Normalising a number keeps its lower bound when the bound is at least 0. */
  lemma TruthyNumberKeepsBound(n: Option<int>, min: int)
    requires min >= 0
    ensures AtLeastIfPresent(n, min) ==> AtLeastIfPresent(TruthyNumber(n), min)
    ensures TruthyNumber(TruthyNumber(n)) == TruthyNumber(n)
  {
  }

  // ---------------------------------------------------------------------------
  // Exercises
  // ---------------------------------------------------------------------------

  /** `{...exercise, id: exercise.id || freshId}`. */
  function AssignId(e: ExerciseFormValues, freshId: string): (r: Exercise)
    ensures e.id.Some? && e.id.value != "" ==> r.id == e.id.value
    ensures e.id.None? || e.id.value == "" ==> r.id == freshId
    ensures ExerciseToForm(r).(id := e.id) == e
    ensures ValidExerciseForm(e) <==> ValidExercise(r)
  {
    var id := if e.id.Some? && e.id.value != "" then e.id.value else freshId;
    Exercise(id, e.name, e.sets, e.reps, e.weight, e.restTime, e.notes)
  }

  /** The exercise as the form holds it. */
  function ExerciseToForm(e: Exercise): (f: ExerciseFormValues)
    ensures f.id == Some(e.id)
    ensures ValidExerciseForm(f) <==> ValidExercise(e)
  {
    ExerciseFormValues(Some(e.id), e.name, e.sets, e.reps, e.weight, e.restTime, e.notes)
  }

  /** `exercisesWithIds`: every exercise of the form, with an id assigned where it had none. */
  function ExercisesWithIds(exercises: seq<ExerciseFormValues>, freshIds: seq<string>): (r: seq<Exercise>)
    requires |freshIds| == |exercises|
    ensures |r| == |exercises|
  {
    seq(|exercises|, i requires 0 <= i < |exercises| => AssignId(exercises[i], freshIds[i]))
  }

  /**
   * Assigning ids keeps every non-empty id and everything but the id, and
   * leaves every exercise with a non-empty id when the fresh ids are non-empty;
   * an exercise that passed the form schema passes the entity schema.
   */
  lemma ExercisesWithIdsKeepContent(exercises: seq<ExerciseFormValues>, freshIds: seq<string>, i: int)
    requires |freshIds| == |exercises| && 0 <= i < |exercises|
    ensures var e, r := exercises[i], ExercisesWithIds(exercises, freshIds)[i];
      (e.id.Some? && e.id.value != "" ==> r.id == e.id.value) &&
      ((e.id.None? || e.id.value == "") ==> r.id == freshIds[i]) &&
      (freshIds[i] != "" ==> r.id != "") &&
      ExerciseToForm(r).(id := e.id) == e &&
      (ValidExerciseForm(e) <==> ValidExercise(r))
  {
  }

  /** Assigning ids to the exercises of a stored workout gives them back unchanged. */
  lemma {:induction false} ExerciseIdsRoundTrip(exercises: seq<Exercise>, freshIds: seq<string>)
    requires |freshIds| == |exercises|
    requires forall i :: 0 <= i < |exercises| ==> exercises[i].id != ""
    ensures ExercisesWithIds(seq(|exercises|, i requires 0 <= i < |exercises| => ExerciseToForm(exercises[i])), freshIds) == exercises
  {
  }

  /** `onAddExercise`: the add-exercise form's values are appended with a fresh id. */
  function AddExercise(exercises: seq<ExerciseFormValues>, data: AddExerciseFormValues, freshId: string): (r: seq<ExerciseFormValues>)
    ensures |r| == |exercises| + 1 && r[..|exercises|] == exercises
    ensures r[|exercises|] == WithId(data, Some(freshId))
    ensures r[|exercises|].id == Some(freshId)
  {
    exercises + [WithId(data, Some(freshId))]
  }

  /** An exercise accepted by the add-exercise form is valid in the workout form too. */
  lemma AddExerciseKeepsValidity(exercises: seq<ExerciseFormValues>, data: AddExerciseFormValues, freshId: string)
    requires ValidAddExercise(data)
    ensures forall i :: 0 <= i < |exercises| ==>
      (ValidExerciseForm(AddExercise(exercises, data, freshId)[i]) <==> ValidExerciseForm(exercises[i]))
    ensures ValidExerciseForm(AddExercise(exercises, data, freshId)[|exercises|])
  {
    AddExerciseIgnoresId(data, Some(freshId));
  }

  // ---------------------------------------------------------------------------
  // Form values
  // ---------------------------------------------------------------------------

  /** The create screen's initial values: today's date, strength at the gym, no exercises. */
  function CreateFormDefaults(today: string): (f: WorkoutFormValues)
    ensures f.date == today && f.kind == STRENGTH && f.location == GYM
    ensures !f.completed && f.exercises == [] && f.completedDate.None?
    ensures ValidDate(today) ==> WorkoutErrors(f) == {Name, Exercises}
    ensures !ValidDate(today) ==> WorkoutErrors(f) == {Name, Date, Exercises}
  {
    WorkoutFormValues("", today, Some(""), STRENGTH, GYM, None, None, Some(""), [], false, None)
  }

  /** The edit screen's initial values, before the stored workout is loaded. */
  function EditFormDefaults(): (f: WorkoutFormValues)
    ensures f.kind == STRENGTH && f.location == GYM && !f.completed && f.exercises == []
    ensures WorkoutErrors(f) == {Name, Date, Exercises}
  {
    assert !ValidDate("");
    WorkoutFormValues("", "", Some(""), STRENGTH, GYM, None, None, Some(""), [], false, Some(""))
  }

  /** The values the edit screen puts in the form for a stored workout. */
  function FormFromWorkout(w: Workout): (f: WorkoutFormValues)
    ensures f.name == w.name && f.date == w.date && f.kind == w.kind && f.location == w.location
    ensures f.completed == w.completed
    ensures f.time.Some? && f.notes.Some? && f.completedDate.Some?
    ensures OrUndefined(f.time) == OrUndefined(w.time) && OrUndefined(f.notes) == OrUndefined(w.notes)
    ensures OrUndefined(f.completedDate) == OrUndefined(w.completedDate)
    ensures f.duration.None? <==> w.duration.None? || w.duration.value == 0
    ensures f.duration.Some? ==> f.duration == w.duration
    ensures f.calories.None? <==> w.calories.None? || w.calories.value == 0
    ensures f.calories.Some? ==> f.calories == w.calories
    ensures |f.exercises| == |w.exercises|
    ensures forall i :: 0 <= i < |w.exercises| ==> f.exercises[i] == ExerciseToForm(w.exercises[i])
  {
    WorkoutFormValues(
      w.name,
      w.date,
      OrEmpty(w.time),
      w.kind,
      w.location,
      TruthyNumber(w.duration),
      TruthyNumber(w.calories),
      OrEmpty(w.notes),
      seq(|w.exercises|, i requires 0 <= i < |w.exercises| => ExerciseToForm(w.exercises[i])),
      w.completed,
      OrEmpty(w.completedDate))
  }

  /** `handleToggleCompleted`. */
  function ToggleCompleted(f: WorkoutFormValues): (r: WorkoutFormValues)
    ensures r.completed != f.completed
    ensures r.(completed := f.completed) == f
  {
    f.(completed := !f.completed)
  }

  /** Toggling twice restores the form; toggling never changes which fields are rejected. */
  lemma ToggleCompletedInvolution(f: WorkoutFormValues)
    ensures ToggleCompleted(ToggleCompleted(f)) == f
    ensures WorkoutErrors(ToggleCompleted(f)) == WorkoutErrors(f)
  {
  }

  // ---------------------------------------------------------------------------
  // Submitting
  // ---------------------------------------------------------------------------

  /**
   * The edit screen's `onSubmit`: the route's id, the form's values with empty
   * optional fields dropped, and a completion date only on a completed
   * workout, the stored one if it had one and today's date otherwise.
   */
  function EditSubmit(workoutId: string, data: WorkoutFormValues, loaded: Option<Workout>, today: string, freshIds: seq<string>): (w: Workout)
    requires |freshIds| == |data.exercises|
    ensures w.id == Some(workoutId)
    ensures w.completed == data.completed
    ensures w.completedDate.Some? <==> data.completed
    ensures data.completed && loaded.Some? && OrUndefined(loaded.value.completedDate).Some? ==>
      w.completedDate == loaded.value.completedDate
    ensures data.completed && (loaded.None? || OrUndefined(loaded.value.completedDate).None?) ==>
      w.completedDate == Some(today)
    ensures w.name == data.name && w.date == data.date && w.kind == data.kind && w.location == data.location
    ensures w.time == OrUndefined(data.time) && w.notes == OrUndefined(data.notes)
    ensures w.duration == TruthyNumber(data.duration) && w.calories == TruthyNumber(data.calories)
    ensures w.exercises == ExercisesWithIds(data.exercises, freshIds)
  {
    var storedDate := if loaded.Some? then OrUndefined(loaded.value.completedDate) else None;
    Workout(
      Some(workoutId),
      data.name,
      data.date,
      OrUndefined(data.time),
      ExercisesWithIds(data.exercises, freshIds),
      OrUndefined(data.notes),
      data.completed,
      if data.completed then (if storedDate.Some? then storedDate else Some(today)) else None,
      TruthyNumber(data.duration),
      TruthyNumber(data.calories),
      data.kind,
      data.location)
  }

  /**
   * The create screen's `onSubmit`: no id, never completed, empty optional
   * fields dropped; the form's completion date is copied through unchanged.
   */
  function CreateSubmit(data: WorkoutFormValues, freshIds: seq<string>): (w: Workout)
    requires |freshIds| == |data.exercises|
    ensures w.id.None? && !w.completed
    ensures w.completedDate == data.completedDate
    ensures w.name == data.name && w.date == data.date && w.kind == data.kind && w.location == data.location
    ensures w.time == OrUndefined(data.time) && w.notes == OrUndefined(data.notes)
    ensures w.duration == TruthyNumber(data.duration) && w.calories == TruthyNumber(data.calories)
    ensures w.exercises == ExercisesWithIds(data.exercises, freshIds)
  {
    Workout(
      None,
      data.name,
      data.date,
      OrUndefined(data.time),
      ExercisesWithIds(data.exercises, freshIds),
      OrUndefined(data.notes),
      false,
      data.completedDate,
      TruthyNumber(data.duration),
      TruthyNumber(data.calories),
      data.kind,
      data.location)
  }

  /** The workout built from an accepted form satisfies the entity's constraints. */
  lemma ValidFormFieldsCarryOver(data: WorkoutFormValues, freshIds: seq<string>, w: Workout)
    requires |freshIds| == |data.exercises| && ValidWorkoutForm(data)
    requires w.name == data.name && w.date == data.date && w.time == OrUndefined(data.time)
    requires w.duration == TruthyNumber(data.duration) && w.calories == TruthyNumber(data.calories)
    requires w.exercises == ExercisesWithIds(data.exercises, freshIds)
    ensures w.name != "" && ValidDate(w.date) && (w.time.None? || ValidTime(w.time.value))
    ensures AtLeastIfPresent(w.duration, 1) && AtLeastIfPresent(w.calories, 0)
    ensures |w.exercises| >= 1 && forall i :: 0 <= i < |w.exercises| ==> ValidExercise(w.exercises[i])
  {
    ValidWorkoutFormIff(data);
    forall i | 0 <= i < |w.exercises| ensures ValidExercise(w.exercises[i]) {
      ExercisesWithIdsKeepContent(data.exercises, freshIds, i);
    }
  }

  /** Saving an accepted edit form yields a workout fit to store. */
  lemma EditSubmitPersistable(workoutId: string, data: WorkoutFormValues, loaded: Option<Workout>, today: string, freshIds: seq<string>)
    requires |freshIds| == |data.exercises| && ValidWorkoutForm(data)
    ensures Persistable(EditSubmit(workoutId, data, loaded, today, freshIds))
  {
    ValidFormFieldsCarryOver(data, freshIds, EditSubmit(workoutId, data, loaded, today, freshIds));
  }

  /**
   * Saving an accepted create form yields a workout fit to store exactly when
   * the form carries no completion date, as the create screen's initial
   * values do.
   */
  lemma CreateSubmitPersistable(data: WorkoutFormValues, freshIds: seq<string>)
    requires |freshIds| == |data.exercises| && ValidWorkoutForm(data)
    ensures Persistable(CreateSubmit(data, freshIds)) <==> data.completedDate.None?
  {
    ValidFormFieldsCarryOver(data, freshIds, CreateSubmit(data, freshIds));
  }

  /**
   * A stored workout in normal form: no empty strings or zeros standing for
   * absent values, non-empty exercise ids, and a non-empty completion date
   * exactly on a completed workout.
   */
  predicate Normalised(w: Workout) {
    OrUndefined(w.time) == w.time && OrUndefined(w.notes) == w.notes &&
    TruthyNumber(w.duration) == w.duration && TruthyNumber(w.calories) == w.calories &&
    (forall i :: 0 <= i < |w.exercises| ==> w.exercises[i].id != "") &&
    (w.completed <==> OrUndefined(w.completedDate).Some?) &&
    (!w.completed ==> w.completedDate.None?)
  }

  /**
   * Opening a stored workout in the edit screen and saving it unchanged stores
   * the same workout, whatever the date and the fresh ids.
   */
  lemma EditRoundTrip(w: Workout, today: string, freshIds: seq<string>)
    requires w.id.Some? && Normalised(w) && |freshIds| == |w.exercises|
    ensures EditSubmit(w.id.value, FormFromWorkout(w), Some(w), today, freshIds) == w
  {
    ExerciseIdsRoundTrip(w.exercises, freshIds);
  }

  /** Saving an edit never discards a stored completion date of a workout that stays completed. */
  lemma EditKeepsCompletionDate(workoutId: string, data: WorkoutFormValues, w: Workout, today: string, freshIds: seq<string>)
    requires |freshIds| == |data.exercises| && data.completed && w.completedDate.Some? && w.completedDate.value != ""
    ensures EditSubmit(workoutId, data, Some(w), today, freshIds).completedDate == w.completedDate
  {
  }
}

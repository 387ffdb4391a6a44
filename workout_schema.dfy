/**
 * Validation of the workout and exercise forms. Field values arrive already
 * typed: a numeric field is an `int`, or `None` when it was left empty or
 * undefined. Dates and times are checked for shape only, like the two regular
 * expressions of the schema: the extended calendar date `YYYY-MM-DD` of
 * ISO 8601:2004 section 4.1.2.2 and the reduced-accuracy local time `hh:mm` of
 * section 4.2.2.3, with month and day values left unchecked.
 */
module WorkoutSchema {
  import opened Wrappers
  import opened Workouts
  import opened Strings

  /** The values of one exercise in a form; a new exercise may not have an id yet. */
  datatype ExerciseFormValues = ExerciseFormValues(
    id: Option<string>,
    name: string,
    sets: int,
    reps: int,
    weight: Option<int>,
    restTime: Option<int>,
    notes: Option<string>)

  /** The values of the add-exercise form: an exercise without an id. */
  datatype AddExerciseFormValues = AddExerciseFormValues(
    name: string,
    sets: int,
    reps: int,
    weight: Option<int>,
    restTime: Option<int>,
    notes: Option<string>)

  /**
   * The values of the workout form after parsing. `time` and `notes` may be
   * `Some("")` (the literal empty string the schema admits) or absent;
   * `completed` has already received its default.
   */
  datatype WorkoutFormValues = WorkoutFormValues(
    name: string,
    date: string,
    time: Option<string>,
    kind: WorkoutType,
    location: WorkoutLocation,
    duration: Option<int>,
    calories: Option<int>,
    notes: Option<string>,
    exercises: seq<ExerciseFormValues>,
    completed: bool,
    completedDate: Option<string>)

  // ---------------------------------------------------------------------------
  // Date and time shapes
  // ---------------------------------------------------------------------------

  /** `/^\d{4}-\d{2}-\d{2}$/`. */
  predicate ValidDate(s: string): (b: bool)
    ensures b <==> (|s| == 10 && s[4] == '-' && s[7] == '-' &&
      forall i :: 0 <= i < 10 && i != 4 && i != 7 ==> IsDigit(s[i]))
  {
    |s| == 10 && AllDigits(s[..4]) && s[4] == '-' && AllDigits(s[5..7]) && s[7] == '-' && AllDigits(s[8..])
  }

  /** `/^([01]\d|2[0-3]):([0-5]\d)$/`. */
  predicate ValidTime(s: string): (b: bool)
    ensures b <==> (|s| == 5 && s[2] == ':' && IsDigit(s[0]) && IsDigit(s[1]) && IsDigit(s[3]) && IsDigit(s[4]) &&
      10 * DigitValue(s[0]) + DigitValue(s[1]) < 24 && 10 * DigitValue(s[3]) + DigitValue(s[4]) < 60)
  {
    |s| == 5 &&
    (('0' <= s[0] <= '1' && IsDigit(s[1])) || (s[0] == '2' && '0' <= s[1] <= '3')) &&
    s[2] == ':' &&
    '0' <= s[3] <= '5' && IsDigit(s[4])
  }

  /** A date written with zero-padded year, month and day. */
  function FormatDate(year: nat, month: nat, day: nat): string {
    Pad(year, 4) + "-" + Pad(month, 2) + "-" + Pad(day, 2)
  }

  /** A time of day written with zero-padded hour and minute. */
  function FormatTime(hour: nat, minute: nat): string {
    Pad(hour, 2) + ":" + Pad(minute, 2)
  }

  /** The year, month and day a date of the right shape spells. */
  function ParseDate(s: string): (ymd: (nat, nat, nat))
    requires ValidDate(s)
    ensures ymd.0 < 10000 && ymd.1 < 100 && ymd.2 < 100
  {
    DecimalValuePad(s[..4]);
    DecimalValuePad(s[5..7]);
    DecimalValuePad(s[8..]);
    (DecimalValue(s[..4]), DecimalValue(s[5..7]), DecimalValue(s[8..]))
  }

  /** Every zero-padded date has the shape the pattern accepts, and parses back. */
  lemma FormatDateIsValid(y: nat, m: nat, d: nat)
    requires y < 10000 && m < 100 && d < 100
    ensures ValidDate(FormatDate(y, m, d))
    ensures ParseDate(FormatDate(y, m, d)) == (y, m, d)
  {
    var s := FormatDate(y, m, d);
    PadShape(y, 4);
    PadShape(m, 2);
    PadShape(d, 2);
    assert s[..4] == Pad(y, 4) && s[5..7] == Pad(m, 2) && s[8..] == Pad(d, 2);
    PadValue(y, 4);
    PadValue(m, 2);
    PadValue(d, 2);
  }

  /** Every string the pattern accepts is the zero-padded writing of what it parses to. */
  lemma ValidDateIsFormatted(s: string)
    requires ValidDate(s)
    ensures FormatDate(ParseDate(s).0, ParseDate(s).1, ParseDate(s).2) == s
  {
    DecimalValuePad(s[..4]);
    DecimalValuePad(s[5..7]);
    DecimalValuePad(s[8..]);
    assert s == s[..4] + "-" + s[5..7] + "-" + s[8..];
  }

  /**
   * The date pattern accepts exactly the zero-padded writings of a four-digit
   * year and two-digit month and day, whatever their values.
   */
  lemma DateShape(s: string)
    ensures ValidDate(s) <==>
      exists y: nat, m: nat, d: nat :: y < 10000 && m < 100 && d < 100 && s == FormatDate(y, m, d)
  {
    if ValidDate(s) {
      ValidDateIsFormatted(s);
    }
    if exists y: nat, m: nat, d: nat :: y < 10000 && m < 100 && d < 100 && s == FormatDate(y, m, d) {
      var y: nat, m: nat, d: nat :| y < 10000 && m < 100 && d < 100 && s == FormatDate(y, m, d);
      FormatDateIsValid(y, m, d);
    }
  }

  /** Month and day values are not range-checked. */
  lemma MonthAndDayUnchecked()
    ensures ValidDate("2023-99-99") && ValidDate("2023-02-30") && ValidDate("0000-00-00")
    ensures !ValidDate("2023-1-5") && !ValidDate("2023-01-05T00:00")
  {
  }

  lemma TwoDigits(n: nat)
    requires n < 100
    ensures Pad(n, 2) == [DigitChar(n / 10), DigitChar(n % 10)]
  {
  }

  /** Every zero-padded hour 00-23 and minute 00-59 is accepted. */
  lemma FormatTimeIsValid(h: nat, m: nat)
    requires h < 24 && m < 60
    ensures ValidTime(FormatTime(h, m))
  {
    TwoDigits(h);
    TwoDigits(m);
    var s := FormatTime(h, m);
    assert s == [DigitChar(h / 10), DigitChar(h % 10), ':', DigitChar(m / 10), DigitChar(m % 10)];
    assert h / 10 == 2 ==> h % 10 <= 3;
  }

  /** The hour and minute an accepted time spells. */
  function ParseTime(s: string): (hm: (nat, nat))
    requires ValidTime(s)
    ensures hm.0 < 24 && hm.1 < 60
  {
    (10 * DigitValue(s[0]) + DigitValue(s[1]), 10 * DigitValue(s[3]) + DigitValue(s[4]))
  }

  /** Every accepted time is the zero-padded writing of what it parses to. */
  lemma ValidTimeIsFormatted(s: string)
    requires ValidTime(s)
    ensures FormatTime(ParseTime(s).0, ParseTime(s).1) == s
  {
    var (h, m) := ParseTime(s);
    TwoDigits(h);
    TwoDigits(m);
    assert h / 10 == DigitValue(s[0]) && h % 10 == DigitValue(s[1]);
    assert m / 10 == DigitValue(s[3]) && m % 10 == DigitValue(s[4]);
  }

  /** The time pattern accepts exactly the zero-padded hours 00-23 and minutes 00-59. */
  lemma TimeShape(s: string)
    ensures ValidTime(s) <==> exists h: nat, m: nat :: h < 24 && m < 60 && s == FormatTime(h, m)
  {
    if ValidTime(s) {
      ValidTimeIsFormatted(s);
    }
    if exists h: nat, m: nat :: h < 24 && m < 60 && s == FormatTime(h, m) {
      var h: nat, m: nat :| h < 24 && m < 60 && s == FormatTime(h, m);
      FormatTimeIsValid(h, m);
    }
  }

  // ---------------------------------------------------------------------------
  // Exercises
  // ---------------------------------------------------------------------------

  /** An optional number, when present, is at least `min`. */
  predicate AtLeastIfPresent(n: Option<int>, min: int) {
    n.None? || n.value >= min
  }

  /** The constraints `exerciseSchema` puts on everything but the id. */
  predicate ValidExerciseFields(name: string, sets: int, reps: int, weight: Option<int>, restTime: Option<int>) {
    name != "" && sets >= 1 && reps >= 1 && AtLeastIfPresent(weight, 0) && AtLeastIfPresent(restTime, 0)
  }

  /** `exerciseSchema`: the id is any string. */
  predicate ValidExercise(e: Exercise): (b: bool)
    ensures b <==> (e.name != "" && e.sets >= 1 && e.reps >= 1 &&
      (e.weight.Some? ==> e.weight.value >= 0) && (e.restTime.Some? ==> e.restTime.value >= 0))
  {
    ValidExerciseFields(e.name, e.sets, e.reps, e.weight, e.restTime)
  }

  /** `exerciseFormSchema`: `exerciseSchema` with the id made optional. */
  predicate ValidExerciseForm(e: ExerciseFormValues): (b: bool)
    ensures forall id :: b <==> ValidExercise(Exercise(id, e.name, e.sets, e.reps, e.weight, e.restTime, e.notes))
  {
    ValidExerciseFields(e.name, e.sets, e.reps, e.weight, e.restTime)
  }

  function WithId(a: AddExerciseFormValues, id: Option<string>): ExerciseFormValues {
    ExerciseFormValues(id, a.name, a.sets, a.reps, a.weight, a.restTime, a.notes)
  }

  /** `addExerciseSchema`: `exerciseFormSchema` with the id omitted. */
  predicate ValidAddExercise(a: AddExerciseFormValues): (b: bool)
    ensures forall id :: b <==> ValidExerciseForm(WithId(a, id))
  {
    ValidExerciseForm(WithId(a, None))
  }

  /**
   * The add-exercise schema accepts exactly what the exercise form schema
   * accepts once an id, any id or none, is attached.
   */
  lemma AddExerciseIgnoresId(a: AddExerciseFormValues, id: Option<string>)
    ensures ValidAddExercise(a) <==> ValidExerciseForm(WithId(a, id))
    ensures ValidAddExercise(a) <==>
      (a.name != "" && a.sets >= 1 && a.reps >= 1 && AtLeastIfPresent(a.weight, 0) && AtLeastIfPresent(a.restTime, 0))
  {
  }

  /** A stored exercise passes the form schema exactly when it passes the entity schema. */
  lemma FormSchemaExtendsExerciseSchema(e: Exercise)
    ensures ValidExercise(e) <==>
      ValidExerciseForm(ExerciseFormValues(Some(e.id), e.name, e.sets, e.reps, e.weight, e.restTime, e.notes))
  {
  }

  // ---------------------------------------------------------------------------
  // Workouts
  // ---------------------------------------------------------------------------

  /** The form fields a validation error can point at. */
  datatype FormField = Name | Date | Time | Duration | Calories | Exercises | ExerciseAt(index: nat)

  /** `completed: z.boolean().default(false)`. */
  function CompletedOrDefault(completed: Option<bool>): (b: bool)
    ensures b <==> completed == Some(true)
  {
    completed.GetOr(false)
  }

  /** An absent completion flag reads as not completed; a present one is kept. */
  lemma CompletedDefaultsToFalse(b: bool)
    ensures !CompletedOrDefault(None)
    ensures CompletedOrDefault(Some(b)) == b
  {
  }

  predicate TimeAccepted(time: Option<string>) {
    time.None? || time.value == "" || ValidTime(time.value)
  }

  /** The fields `workoutSchema` rejects. */
  function WorkoutErrors(f: WorkoutFormValues): (errors: set<FormField>)
    ensures Name in errors <==> f.name == ""
    ensures Date in errors <==> !ValidDate(f.date)
    ensures Time in errors <==> !TimeAccepted(f.time)
    ensures Duration in errors <==> f.duration.Some? && f.duration.value < 1
    ensures Calories in errors <==> f.calories.Some? && f.calories.value < 0
    ensures Exercises in errors <==> f.exercises == []
    ensures forall i: nat :: ExerciseAt(i) in errors <==> i < |f.exercises| && !ValidExerciseForm(f.exercises[i])
  {
    (if f.name == "" then {Name} else {}) +
    (if !ValidDate(f.date) then {Date} else {}) +
    (if !TimeAccepted(f.time) then {Time} else {}) +
    (if !AtLeastIfPresent(f.duration, 1) then {Duration} else {}) +
    (if !AtLeastIfPresent(f.calories, 0) then {Calories} else {}) +
    (if |f.exercises| < 1 then {Exercises} else {}) +
    (set i: nat | i < |f.exercises| && !ValidExerciseForm(f.exercises[i]) :: ExerciseAt(i))
  }

  predicate ValidWorkoutForm(f: WorkoutFormValues) {
    WorkoutErrors(f) == {}
  }

  /** An error names an exercise exactly when that exercise fails its schema. */
  lemma ExerciseErrorsPointAtFailures(f: WorkoutFormValues, i: nat)
    ensures ExerciseAt(i) in WorkoutErrors(f) <==> i < |f.exercises| && !ValidExerciseForm(f.exercises[i])
  {
  }

  /**
   * The form is accepted exactly when the name is non-empty, the date and time
   * have their shapes, duration is empty or at least 1, calories empty or at
   * least 0, and there is at least one exercise and every exercise is valid.
   */
  lemma {:induction false} ValidWorkoutFormIff(f: WorkoutFormValues)
    ensures ValidWorkoutForm(f) <==>
      f.name != "" && ValidDate(f.date) && TimeAccepted(f.time) &&
      AtLeastIfPresent(f.duration, 1) && AtLeastIfPresent(f.calories, 0) &&
      |f.exercises| >= 1 && forall i :: 0 <= i < |f.exercises| ==> ValidExerciseForm(f.exercises[i])
  {
    if forall i :: 0 <= i < |f.exercises| ==> ValidExerciseForm(f.exercises[i]) {
      assert (set i: nat | i < |f.exercises| && !ValidExerciseForm(f.exercises[i]) :: ExerciseAt(i)) == {};
    } else {
      var i :| 0 <= i < |f.exercises| && !ValidExerciseForm(f.exercises[i]);
      ExerciseErrorsPointAtFailures(f, i);
    }
  }

  /**
   * What a stored workout is expected to satisfy: the schema's constraints on
   * its fields, and a completion date only on a completed workout.
   */
  predicate Persistable(w: Workout) {
    w.name != "" && ValidDate(w.date) && (w.time.None? || ValidTime(w.time.value)) &&
    AtLeastIfPresent(w.duration, 1) && AtLeastIfPresent(w.calories, 0) &&
    |w.exercises| >= 1 && (forall i :: 0 <= i < |w.exercises| ==> ValidExercise(w.exercises[i])) &&
    (w.completedDate.Some? ==> w.completed)
  }
}

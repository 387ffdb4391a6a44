/** The domain entities: a workout, its exercises and the daily summary record. */
module Workouts {
  import opened Wrappers

  datatype WorkoutType = STRENGTH | CARDIO | FLEXIBILITY | HIIT | CUSTOM

  datatype WorkoutLocation = HOME | GYM | OUTDOOR | OTHER

  /** One exercise of a workout; `restTime` is in seconds. */
  datatype Exercise = Exercise(
    id: string,
    name: string,
    sets: int,
    reps: int,
    weight: Option<int>,
    restTime: Option<int>,
    notes: Option<string>)

  /**
   * A workout. The entity declares `id` as a string, but a workout that has not
   * been stored yet carries no id (the create screen sets it to `undefined`),
   * so the model makes it optional. `kind` is the source's `type` field;
   * `duration` is in minutes.
   */
  datatype Workout = Workout(
    id: Option<string>,
    name: string,
    date: string,
    time: Option<string>,
    exercises: seq<Exercise>,
    notes: Option<string>,
    completed: bool,
    completedDate: Option<string>,
    duration: Option<int>,
    calories: Option<int>,
    kind: WorkoutType,
    location: WorkoutLocation)

  /** Totals for one calendar day of the weekly summary. */
  datatype DailySummary = DailySummary(
    date: string,
    workouts: nat,
    completed: nat,
    duration: int,
    calories: int)
}

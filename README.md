# Workout tracker core, modelled in Dafny

This project models the logic of a workout-tracking mobile app. The app keeps
workouts, made of exercises, on a remote server and shows them in several screens.
The model covers the following parts:

- **The `workout` store slice** (`workout_slice.dfy`). This is the client-side UI state: the
  selected workout, the selected date, the ids marked completed and a status filter. It is a
  class whose five reducers update its fields in place. The completed-id list behaves as a set:
  the class invariant says it has no duplicates, and every reducer preserves that invariant.
- **The cache-tag policy of the workout endpoints** (`workout_api.dfy`).
  - Each query provides tags and each mutation invalidates tags.
  - The response cache itself belongs to the data-fetching library. It is modelled as an
    abstract map from query to its last outcome, and a successful mutation drops every entry
    whose tags meet the mutation's tags.
  - The module also models the request (method, URL, body) each endpoint sends.
- **Form validation** (`workout_schema.dfy`). These are the exercise, exercise-form,
  add-exercise and workout schemas, including the date shape `YYYY-MM-DD` and the time shape
  `hh:mm`:
  - The date is the extended calendar-date format of ISO 8601:2004 section 4.1.2.2.
  - The time is the reduced-accuracy local time of section 4.2.2.3.
  - Only the shape is checked. Month and day values are not range-checked.
- **List and record logic embedded in the screens**:
  - the status/type filter of the workout list (`workouts_screen.dfy`);
  - the weekly range filter and the per-day aggregation of the summary (`summary_screen.dfy`);
  - how the edit and create screens build the `Workout` they save, and their form values
    (`workout_form.dfy`);
  - the priority-ordered weather advice of the Today screen (`today_screen.dfy`).

Four modules hold shared material:

- `workouts.dfy`: the entities.
- `wrappers.dfy`: `Option`.
- `sequences.dfy`: `filter` and `reduce` over lists, with their lemmas.
- `strings.dfy`: string `<=` compared by code point, zero-padded digits, `includes` and ASCII
  `toLowerCase`.

Several values come from the clock or from generators in the app. The model takes them as
parameters instead:

- the current date;
- the seven date strings of the summarised week;
- fresh exercise ids;
- the weather reading.

Form fields arrive already typed. A numeric field is an `int`, or `None` when it was left empty.
The source's `type` field is called `kind`, since `type` is a Dafny keyword.

`Workout.id` is optional. The entity declares it as a string, but the create screen deliberately
builds a workout with `id: undefined` to mark it as new.

## Model

| member | source | states |
|---|---|---|
| WorkoutSlice.WorkoutState.constructor | src/data/store/slices/workoutSlice.ts:13-18 | the initial state has no selected workout, the given date, no completed ids and filter `'all'`; it satisfies the no-duplicates invariant |
| WorkoutSlice.WorkoutState.SelectWorkout | src/data/store/slices/workoutSlice.ts:26-28 | replaces the selected workout and leaves every other field unchanged; preserves the invariant |
| WorkoutSlice.WorkoutState.SetSelectedDate | src/data/store/slices/workoutSlice.ts:31-33 | replaces the selected date only; preserves the invariant |
| WorkoutSlice.WorkoutState.MarkWorkoutCompleted | src/data/store/slices/workoutSlice.ts:36-40 | the id is present afterwards; the list is the old list with the id appended only if it was absent; other fields are unchanged; the list stays duplicate-free |
| WorkoutSlice.WorkoutState.MarkWorkoutNotCompleted | src/data/store/slices/workoutSlice.ts:43-47 | the id is absent afterwards; the list is the old one filtered; other fields are unchanged; the list stays duplicate-free |
| WorkoutSlice.WorkoutState.SetFilterType | src/data/store/slices/workoutSlice.ts:50-55 | replaces the filter only; preserves the invariant |
| WorkoutSlice.WithCompleted | src/data/store/slices/workoutSlice.ts:36-40 | the id is in the result; the result holds exactly the old ids and the id; it grows by one exactly when the id was absent, and keeps the old list as its prefix |
| WorkoutSlice.Without | src/data/store/slices/workoutSlice.ts:43-47 | the id is not in the result; the result holds exactly the old ids other than the id |
| WorkoutSlice.MarkNewAppends | src/__tests__/data/store/workoutSlice.test.ts:72-78 | marking an absent id grows the list by exactly one, keeps the old list as a prefix and puts the id last |
| WorkoutSlice.MarkIdempotent | src/__tests__/data/store/workoutSlice.test.ts:81-92 | marking a present id changes nothing; marking twice is marking once; a newly marked id occurs exactly once |
| WorkoutSlice.MarkKeepsNoDuplicates | src/data/store/slices/workoutSlice.ts:37-39 | the guarded push keeps a duplicate-free list duplicate-free |
| WorkoutSlice.UnmarkRemoves | src/__tests__/data/store/workoutSlice.test.ts:96-108 | removal drops every copy of the id, keeps every other id as often as before, and keeps the order |
| WorkoutSlice.UnmarkAbsent | src/__tests__/data/store/workoutSlice.test.ts:110-115 | removing an absent id leaves the list unchanged and is not an error |
| WorkoutSlice.UnmarkKeepsNoDuplicates | src/data/store/slices/workoutSlice.ts:44-46 | filtering keeps a duplicate-free list duplicate-free |
| WorkoutSlice.MarkThenUnmark | src/data/store/slices/workoutSlice.ts:36-47 | marking then unmarking leaves the id absent and equals unmarking alone; for a new id it restores the original list |
| WorkoutSlice.MultipleActions | src/__tests__/data/store/workoutSlice.test.ts:145-156 | the sequence select, set date, mark `"1"`, filter completed yields exactly that state, and the state satisfies the invariant |
| WorkoutApi.ProvidesTags | src/data/api/workoutApi.ts:10-91 | every query provides at least one tag; a list query's last tag is `LIST`, preceded by one tag per fetched id in order, or `LIST` alone when the fetch failed; a single-workout query provides its id's tag only; a per-date query provides `DATE` only |
| WorkoutApi.InvalidatesTags | src/data/api/workoutApi.ts:32-85 | every mutation invalidates `LIST`, `DATE` and `RANGE`; any other tag it invalidates is that of the workout it is about, which comes first |
| WorkoutApi.QueryRequest | src/data/api/workoutApi.ts:8-90 | every query is a `GET` without a body; the list query asks for `workouts`, the single-workout query for `workouts/<id>` and the per-date query for `workouts?date=<date>` |
| WorkoutApi.MutationRequest | src/data/api/workoutApi.ts:26-79 | add posts the workout to `workouts`; update puts, delete deletes and complete patches `workouts/<id>` for its own id; only delete sends no body |
| WorkoutApi.ListQueryTags | src/data/api/workoutApi.ts:10-16 | a fetched list is tagged with one tag per returned id in order, then `LIST`; a failed fetch is tagged `LIST` only |
| WorkoutApi.DateQueriesShareTag | src/data/api/workoutApi.ts:91 | every per-date query carries the single tag `DATE`, whatever its date |
| WorkoutApi.MutationTagSets | src/data/api/workoutApi.ts:32-85 | add invalidates `{LIST, DATE, RANGE}`; update, delete and complete on `x` all invalidate `{x, LIST, DATE, RANGE}` |
| WorkoutApi.InvalidateOnlyDrops | src/data/api/workoutApi.ts:32-85 | invalidation removes entries and never alters the ones it keeps; applying it twice is applying it once |
| WorkoutApi.InvalidateCommutes | src/data/api/workoutApi.ts:32-85 | two mutations drop the same entries in either order |
| WorkoutApi.MutationDropsListQueries | src/data/api/workoutApi.ts:32-36 | after any mutation no list query and no per-date query remains cached |
| WorkoutApi.ByIdSurvival | src/data/api/workoutApi.ts:22 | a cached single-workout entry for `y` survives a mutation if and only if `y` is not a sentinel and the mutation is not about `y` |
| WorkoutApi.RangeProvidedOnlyBy | src/data/api/workoutApi.ts:10-22 | `RANGE` is provided only by the single-workout query for the id `RANGE` or by a list containing that id |
| WorkoutApi.RangeTagDropsNothing | src/data/api/workoutApi.ts:35 | unless a workout is named `RANGE`, invalidating `RANGE` drops nothing beyond the other tags |
| WorkoutApi.RefetchSurvivesUnrelatedMutation | src/data/api/workoutApi.ts:32-85 | a single-workout entry refetched after a mutation survives a later mutation that is not about it |
| WorkoutApi.UrlOfId | src/data/api/workoutApi.ts:21 | reading the id back out of the URL `workouts/<id>` gives exactly `<id>` |
| WorkoutApi.MutationAddressesTarget | src/data/api/workoutApi.ts:26-79 | each mutation's URL addresses the workout it is about, none for an add, and that workout's tag is among those it invalidates |
| WorkoutApi.QueryAddressesTarget | src/data/api/workoutApi.ts:8-90 | only the single-workout query's URL addresses a workout |
| WorkoutApi.QueryCarriesDate | src/data/api/workoutApi.ts:8-90 | reading the date back out of a query's URL gives the per-date query's own date, and nothing for the list and single-workout queries |
| WorkoutApi.CompleteRequestShape | src/data/api/workoutApi.ts:75-79 | completing sends `PATCH workouts/<id>` with body `{completed: true, completedDate}` |
| WorkoutApi.UpdateBodyStripsId | src/data/api/workoutApi.ts:42-46 | the update body is the given workout with `id` removed and nothing else changed |
| WorkoutSchema.ValidDate | src/domain/validation/workoutSchema.ts:35 | a date is accepted if and only if it has ten characters, `-` at positions 4 and 7 and a digit everywhere else |
| WorkoutSchema.ValidTime | src/domain/validation/workoutSchema.ts:36 | a time is accepted if and only if it has five characters, `:` at position 2, digits elsewhere, an hour below 24 and a minute below 60 |
| WorkoutSchema.ValidExercise | src/domain/validation/workoutSchema.ts:5-27 | an exercise is accepted if and only if its name is non-empty, sets and reps are at least 1, and weight and rest time are absent or at least 0 |
| WorkoutSchema.ValidExerciseForm | src/domain/validation/workoutSchema.ts:30-32 | an exercise form is accepted if and only if the same exercise with any id is accepted by the exercise schema |
| WorkoutSchema.ValidAddExercise | src/domain/validation/workoutSchema.ts:72 | an add-exercise form is accepted if and only if it is accepted as an exercise form with any id or none |
| WorkoutSchema.WorkoutErrors | src/domain/validation/workoutSchema.ts:39-69 | each field is rejected exactly when its own constraint fails: empty name, malformed date, malformed non-empty time, duration below 1, calories below 0, no exercises, and each exercise that fails its schema |
| WorkoutSchema.CompletedOrDefault | src/domain/validation/workoutSchema.ts:67 | `completed` reads as true if and only if it is present and true |
| WorkoutSchema.ParseDate | src/domain/validation/workoutSchema.ts:35 | a date of the accepted shape spells a year below 10000 and a month and day below 100 |
| WorkoutSchema.FormatDateIsValid | src/domain/validation/workoutSchema.ts:35 | every zero-padded date is accepted and parses back to its numbers |
| WorkoutSchema.ValidDateIsFormatted | src/domain/validation/workoutSchema.ts:35 | every accepted date is the zero-padded writing of what it parses to |
| WorkoutSchema.DateShape | src/domain/validation/workoutSchema.ts:35 | a date is accepted if and only if it is four digits, `-`, two digits, `-`, two digits |
| WorkoutSchema.MonthAndDayUnchecked | src/domain/validation/workoutSchema.ts:35 | `2023-99-99` and `2023-02-30` are accepted; unpadded or timestamped dates are not |
| WorkoutSchema.FormatTimeIsValid | src/domain/validation/workoutSchema.ts:36 | every zero-padded hour 00-23 and minute 00-59 is accepted |
| WorkoutSchema.ParseTime | src/domain/validation/workoutSchema.ts:36 | an accepted time spells an hour below 24 and a minute below 60 |
| WorkoutSchema.ValidTimeIsFormatted | src/domain/validation/workoutSchema.ts:36 | every accepted time is the zero-padded writing of what it parses to |
| WorkoutSchema.TimeShape | src/domain/validation/workoutSchema.ts:36 | a time is accepted if and only if it is `hh:mm` with hour 00-23 and minute 00-59 |
| WorkoutSchema.AddExerciseIgnoresId | src/domain/validation/workoutSchema.ts:72 | the add-exercise schema accepts exactly what the exercise form schema accepts with any id or none attached: non-empty name, sets and reps at least 1, weight and rest time absent or at least 0 |
| WorkoutSchema.FormSchemaExtendsExerciseSchema | src/domain/validation/workoutSchema.ts:5-32 | a stored exercise passes the form schema if and only if it passes the entity schema |
| WorkoutSchema.CompletedDefaultsToFalse | src/domain/validation/workoutSchema.ts:67 | an absent `completed` reads as false; a present one is kept |
| WorkoutSchema.ExerciseErrorsPointAtFailures | src/domain/validation/workoutSchema.ts:64-66 | an error names exercise `i` if and only if that exercise fails its schema |
| WorkoutSchema.ValidWorkoutFormIff | src/domain/validation/workoutSchema.ts:39-69 | a workout form is accepted if and only if the following hold: the name is non-empty; the date and time have their shapes; duration is empty or at least 1; calories are empty or at least 0; there is at least one exercise and every exercise is valid |
| WorkoutsScreen.Shown | src/presentation/screens/workouts/WorkoutsScreen.tsx:52-61 | a workout is shown if and only if it is completed under `'completed'`, not completed under `'pending'`, and of the chosen type when a type is chosen |
| WorkoutsScreen.FilteredWorkouts | src/presentation/screens/workouts/WorkoutsScreen.tsx:52-61 | the result is an order-preserving subsequence of the list, and every workout in it is shown |
| WorkoutsScreen.FilterSelectsMatching | src/presentation/screens/workouts/WorkoutsScreen.tsx:52-61 | the shown list is an order-preserving subsequence; a workout is shown if and only if it is in the list and matches the status and type filters |
| WorkoutsScreen.NoFilterShowsAll | src/presentation/screens/workouts/WorkoutsScreen.tsx:52-61 | filter `'all'` with type `'ALL'` shows the list unchanged |
| WorkoutsScreen.StatusFilterSound | src/presentation/screens/workouts/WorkoutsScreen.tsx:54-58 | `'completed'` shows only completed workouts, `'pending'` only uncompleted ones, and a chosen type only that type |
| WorkoutsScreen.StatusPartition | src/presentation/screens/workouts/WorkoutsScreen.tsx:54-55 | under one type filter, the completed and pending results split the `'all'` result, as counts and as multisets |
| WorkoutsScreen.FiltersCompose | src/presentation/screens/workouts/WorkoutsScreen.tsx:52-61 | filtering by type and then by status equals the combined filter |
| SummaryScreen.WorkoutsInRange | src/presentation/screens/summary/SummaryScreen.tsx:54-63 | the result is an order-preserving subsequence of the list, and every workout in it is dated between start and end under string comparison |
| SummaryScreen.RangeFilterSelects | src/presentation/screens/summary/SummaryScreen.tsx:54-63 | the range filter keeps exactly the workouts with `start <= date <= end` under string comparison, in order; an empty list gives an empty result |
| SummaryScreen.InvertedRangeIsEmpty | src/presentation/screens/summary/SummaryScreen.tsx:57-62 | a range whose start sorts after its end selects nothing |
| SummaryScreen.DateOrderIsChronological | src/presentation/screens/summary/SummaryScreen.tsx:60 | on zero-padded dates, string comparison is calendar order |
| SummaryScreen.DailySummaries | src/presentation/screens/summary/SummaryScreen.tsx:80-117 | there are exactly seven summaries, one per day string, in day order |
| SummaryScreen.SummarizeDay | src/presentation/screens/summary/SummaryScreen.tsx:95-116 | the summary carries its day; its workout count is the number of workouts in range dated that day, and its completed count the number of those that are completed; its duration and calories are the sums over the range in which a workout of another day, or a missing amount, contributes 0; completed is at most workouts, which is at most the range's size |
| SummaryScreen.DaySummaryBounds | src/presentation/screens/summary/SummaryScreen.tsx:95-116 | a day's completed count is at most its workout count; its duration and calorie sums are not negative when no workout in range carries a negative amount |
| SummaryScreen.DayCountsAddUp | src/presentation/screens/summary/SummaryScreen.tsx:95-97 | over distinct days, the per-day counts add up to the number of workouts dated on one of those days |
| SummaryScreen.WeekCountsAddUp | src/presentation/screens/summary/SummaryScreen.tsx:90-117 | with seven distinct day strings, the summaries' counts add up to the number of workouts dated within the week |
| SummaryScreen.WeekCompletedAddUp | src/presentation/screens/summary/SummaryScreen.tsx:90-117 | with seven distinct day strings, the summaries' completed counts add up to the number of completed workouts dated within the week |
| SummaryScreen.DaySumsAddUp | src/presentation/screens/summary/SummaryScreen.tsx:108-115 | over distinct days, the per-day duration (or calorie) sums add up to the sum over the workouts dated on one of those days |
| SummaryScreen.WeekTotalsAddUp | src/presentation/screens/summary/SummaryScreen.tsx:90-117 | with seven distinct day strings, the summaries' durations and calories add up to the week's totals: nothing counted twice, nothing lost |
| WorkoutForm.OrUndefined | src/presentation/screens/workout/EditWorkoutScreen.tsx:181 | an empty or absent string becomes absent; any other value is kept |
| WorkoutForm.OrEmpty | src/presentation/screens/workout/EditWorkoutScreen.tsx:133 | an absent string becomes the empty string, any other is kept; both read the same once normalised again |
| WorkoutForm.TruthyNumber | src/presentation/screens/workout/EditWorkoutScreen.tsx:182-183 | an empty or zero number becomes absent; any other is kept |
| WorkoutForm.TruthyNumberKeepsBound | src/presentation/screens/workout/CreateWorkoutScreen.tsx:129-130 | dropping zeros keeps a lower bound of at least 0 and is idempotent |
| WorkoutForm.AssignId | src/presentation/screens/workout/EditWorkoutScreen.tsx:169-174 | a non-empty id is kept and a missing or empty one becomes the fresh id; every other field is unchanged; the exercise is accepted by the entity schema if and only if its form was accepted by the form schema |
| WorkoutForm.ExerciseToForm | src/presentation/screens/workout/EditWorkoutScreen.tsx:143 | a stored exercise loads into the form with its id present, and is accepted by the form schema if and only if it is accepted by the entity schema |
| WorkoutForm.ExercisesWithIds | src/presentation/screens/workout/EditWorkoutScreen.tsx:169-174 | exercises keep their count; the contents, index by index, are stated by `ExercisesWithIdsKeepContent` |
| WorkoutForm.ExercisesWithIdsKeepContent | src/presentation/screens/workout/CreateWorkoutScreen.tsx:115-120 | a non-empty id is kept, a missing or empty one gets the fresh id, every other field is unchanged, and validity carries from the form schema to the entity schema |
| WorkoutForm.ExerciseIdsRoundTrip | src/presentation/screens/workout/EditWorkoutScreen.tsx:143 | assigning ids to the loaded exercises of a stored workout gives them back unchanged |
| WorkoutForm.AddExercise | src/presentation/screens/workout/EditWorkoutScreen.tsx:157-163 | appends exactly one exercise after the unchanged list; it carries the add-exercise form's values and the fresh id |
| WorkoutForm.AddExerciseKeepsValidity | src/presentation/screens/workout/CreateWorkoutScreen.tsx:103-109 | an exercise accepted by the add-exercise form is valid in the workout form, and the existing exercises keep their validity |
| WorkoutForm.CreateFormDefaults | src/presentation/screens/workout/CreateWorkoutScreen.tsx:63-75 | the create form starts dated today, STRENGTH, GYM, not completed, no exercises and no completion date; submitted as is, it is rejected exactly on name and exercises, and on the date too when today is malformed |
| WorkoutForm.EditFormDefaults | src/presentation/screens/workout/EditWorkoutScreen.tsx:82-94 | the edit form starts as STRENGTH, GYM, not completed, no exercises; submitted as is, it is rejected exactly on name, date and exercises |
| WorkoutForm.FormFromWorkout | src/presentation/screens/workout/EditWorkoutScreen.tsx:130-146 | the loaded form carries the workout's name, date, type, location and completion; time, notes and completion date are present and read back as the workout's once empty strings become absent; duration and calories are left empty exactly when the workout's is missing or zero, and are otherwise the workout's; each exercise loads in order |
| WorkoutForm.ToggleCompleted | src/presentation/screens/workout/EditWorkoutScreen.tsx:199-201 | negates `completed` and changes no other field |
| WorkoutForm.ToggleCompletedInvolution | src/presentation/screens/workout/EditWorkoutScreen.tsx:199-201 | toggling twice restores the form, and toggling never changes which fields are rejected |
| WorkoutForm.EditSubmit | src/presentation/screens/workout/EditWorkoutScreen.tsx:166-188 | the id is the route's; empty text and falsy numbers become absent; exercises get ids; `completedDate` is present if and only if completed, and is then the loaded workout's non-empty date or else today |
| WorkoutForm.CreateSubmit | src/presentation/screens/workout/CreateWorkoutScreen.tsx:122-133 | no id, never completed; empty text and falsy numbers become absent; exercises get ids; the form's completion date copied through |
| WorkoutForm.ValidFormFieldsCarryOver | src/presentation/screens/workout/EditWorkoutScreen.tsx:176-184 | a workout built from an accepted form meets every field constraint of the schema |
| WorkoutForm.EditSubmitPersistable | src/presentation/screens/workout/EditWorkoutScreen.tsx:176-188 | saving an accepted edit form yields a workout fit to store |
| WorkoutForm.CreateSubmitPersistable | src/presentation/screens/workout/CreateWorkoutScreen.tsx:122-133 | saving an accepted create form yields a workout fit to store if and only if the form carries no completion date |
| WorkoutForm.EditRoundTrip | src/presentation/screens/workout/EditWorkoutScreen.tsx:130-146 | opening a normalised stored workout in the edit screen and saving it unchanged stores the same workout |
| WorkoutForm.EditKeepsCompletionDate | src/presentation/screens/workout/EditWorkoutScreen.tsx:185-187 | saving a still-completed workout never replaces its stored completion date |
| TodayScreen.Advise | src/presentation/screens/today/TodayScreen.tsx:144-181 | each advice is given if and only if its own test matches on the lower-cased condition and every earlier test fails: precipitation, then below 5, then above 30, then cloud, then clear, else the default; cloud is tested before sun |
| TodayScreen.Recommendation | src/presentation/screens/today/TodayScreen.tsx:145 | there is no message exactly when there is no weather reading |
| TodayScreen.FirstMatchWins | src/presentation/screens/today/TodayScreen.tsx:150-178 | in a priority list of tests the first one that matches decides |
| TodayScreen.NoMatchIsDefault | src/presentation/screens/today/TodayScreen.tsx:180 | when no test matches, the default advice is given, so the advice is total |
| TodayScreen.AdviseIsFirstMatch | src/presentation/screens/today/TodayScreen.tsx:144-181 | the chain of tests equals the first match over the rules precipitation, cold, hot, cloud, clear |
| TodayScreen.PrecipitationWins | src/presentation/screens/today/TodayScreen.tsx:150-156 | rain, storm or snow gives the indoor advice whatever the temperature |
| TodayScreen.CaseInsensitive | src/presentation/screens/today/TodayScreen.tsx:148 | conditions that agree after lower-casing get the same message |
| TodayScreen.HeavyRainExample | src/presentation/screens/today/TodayScreen.tsx:148-156 | "Heavy Rain" at 20 degrees gives the indoor advice |

## Left out

- The data-fetching library's machinery is left out: fetching, memoisation, deduplication of
  requests in flight, and polling. The cache is an abstract map and only the tag tables are modelled.
- The weather client is not part of this model. The weather reading is a parameter.
- Persistence of the store and the key-value storage wrapper are left out, because they are
  foreign storage plus JSON encoding.
- The service, use-case and repository classes only delegate to a repository implementation
  that is not part of this model.
- The `useWorkoutService` hook is left out, because it is asynchronous React state. It swallows
  errors and returns empty results.
- Date arithmetic is not modelled, and neither is the time-zone-dependent ISO writing of "today".
  This covers the start and end of the week, week stepping and the seven day strings; those and
  "today" are parameters.
- Id generation from the clock and a random number is not modelled; fresh ids are parameters.
- String-to-number coercion in the schema is not modelled; fields arrive typed. Under that
  coercion a blank calories field becomes 0. The model keeps it absent, and both normalise to
  absent when the workout is built.
- `WorkoutApi.UpdateBodyStripsId`: the update mutation accepts a partial workout. The model
  passes a whole workout whose fields are the changes.
- `WorkoutsScreen.FilterSelectsMatching`: an undefined workout list yields an undefined result
  in the app. The model takes the list as given.
- SummaryScreen.WeekCountsAddUp, `WeekCompletedAddUp` and `WeekTotalsAddUp`: the seven day
  strings are a parameter, and the lemmas assume them distinct. The app derives them by stepping
  a local date and writing it in UTC. That does not guarantee distinct days across a
  daylight-saving change in a zone behind UTC, where one day can repeat and the last be skipped.
- Strings.LexLe compares Unicode code points, while JavaScript compares UTF-16 code units.
  The two orders differ only between a character above U+FFFF and one in U+E000-U+FFFF: such a
  character sorts after them here and before them in the app. Dates are ASCII, so the range
  filter is unaffected.
- WorkoutApi.UrlOfId: ids are written into URLs without encoding, so an id holding `/`, `?` or
  `#` reaches a different server path. The lemma's "addresses" means the model's own parser
  `UrlWorkoutId`, which reads back everything after `workouts/`.
- `Strings.Lower` lower-cases ASCII letters only. JavaScript's `toLowerCase` also maps
  non-ASCII letters.
- Temperatures are exact reals. The floating-point comparison and NaN are not modelled.
- Numbers are unbounded integers. Non-integer and NaN durations and calories, which the schema
  rejects, are not modelled.
- The create screen copies the form's completion date into the new workout through the object
  spread, while forcing `completed` to false. Its form never sets a completion date, so
  `WorkoutForm.CreateSubmitPersistable` proves the result fit to store exactly in that case.
- Rendering, styles, navigation, logging and the alerts shown on failure are left out, because
  they are presentation.

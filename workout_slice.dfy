/**
 * The client-side UI state of the workouts feature (the `workout` store
 * slice): the selected workout, the selected date, the ids the user marked as
 * completed, and the status filter. Each reducer updates the state in place.
 */
module WorkoutSlice {
  import opened Wrappers
  import opened Workouts
  import opened Sequences

  /** The status filter `'all' | 'completed' | 'pending'`. */
  datatype StatusFilter = All | Completed | Pending

  /** The completed list after `markWorkoutCompleted(x)`: `x` is pushed unless already there. */
  function WithCompleted(ids: seq<string>, x: string): (r: seq<string>)
    ensures x in r
    ensures forall y :: y in r <==> y in ids || y == x
    ensures |r| == if x in ids then |ids| else |ids| + 1
    ensures r[..|ids|] == ids
  {
    if x in ids then ids else ids + [x]
  }

  /** The completed list after `markWorkoutNotCompleted(x)`: `ids.filter(id => id !== x)`. */
  function Without(ids: seq<string>, x: string): (r: seq<string>)
    ensures x !in r
    ensures forall y :: y in r <==> y in ids && y != x
  {
    FilterMembers(ids, id => id != x);
    Filter(ids, id => id != x)
  }

  /** Marking a new id appends it at the end: the list grows by exactly one. */
  lemma MarkNewAppends(ids: seq<string>, x: string)
    requires x !in ids
    ensures |WithCompleted(ids, x)| == |ids| + 1
    ensures WithCompleted(ids, x)[..|ids|] == ids && WithCompleted(ids, x)[|ids|] == x
  {
  }

  /**
   * Marking is idempotent: an id already present is not added again, and
   * however often an id is marked it occurs at most once more than before,
   * and exactly once when it was absent.
   */
  lemma MarkIdempotent(ids: seq<string>, x: string)
    ensures x in WithCompleted(ids, x)
    ensures x in ids ==> WithCompleted(ids, x) == ids
    ensures WithCompleted(WithCompleted(ids, x), x) == WithCompleted(ids, x)
    ensures x !in ids ==> multiset(WithCompleted(ids, x))[x] == 1
  {
  }

  /** Marking keeps the list free of duplicates. */
  lemma {:induction false} MarkKeepsNoDuplicates(ids: seq<string>, x: string)
    requires NoDuplicates(ids)
    ensures NoDuplicates(WithCompleted(ids, x))
  {
    if x !in ids {
      var r := ids + [x];
      forall i, j | 0 <= i < j < |r| ensures r[i] != r[j] {
        if j == |ids| {
          assert r[i] == ids[i];
        }
      }
    }
  }

  /**
   * Unmarking removes every copy of `x`, keeps every other id as often as it
   * occurred, and keeps the survivors in their original order.
   */
  lemma UnmarkRemoves(ids: seq<string>, x: string)
    ensures x !in Without(ids, x)
    ensures forall y :: y != x ==> multiset(Without(ids, x))[y] == multiset(ids)[y]
    ensures Subsequence(Without(ids, x), ids)
  {
    FilterIsSubsequence(ids, id => id != x);
    FilterMembership(ids, id => id != x, x);
    forall y | y != x ensures multiset(Without(ids, x))[y] == multiset(ids)[y] {
      FilterCount(ids, id => id != x, y);
    }
  }

  /** Unmarking an id that is not in the list leaves it unchanged; it is not an error. */
  lemma UnmarkAbsent(ids: seq<string>, x: string)
    requires x !in ids
    ensures Without(ids, x) == ids
  {
    FilterKeepsAll(ids, id => id != x);
  }

  /** Unmarking keeps the list free of duplicates. */
  lemma UnmarkKeepsNoDuplicates(ids: seq<string>, x: string)
    requires NoDuplicates(ids)
    ensures NoDuplicates(Without(ids, x))
  {
    FilterKeepsNoDuplicates(ids, id => id != x);
  }

  /**
   * Marking then unmarking the same id leaves it absent, with the same list as
   * unmarking alone; when the id was absent to begin with, the pair is a round
   * trip back to the original list.
   */
  lemma MarkThenUnmark(ids: seq<string>, x: string)
    ensures x !in Without(WithCompleted(ids, x), x)
    ensures Without(WithCompleted(ids, x), x) == Without(ids, x)
    ensures x !in ids ==> Without(WithCompleted(ids, x), x) == ids
  {
    UnmarkRemoves(WithCompleted(ids, x), x);
    if x !in ids {
      FilterConcat(ids, [x], id => id != x);
      UnmarkAbsent(ids, x);
    }
  }

  /** The `workout` slice state; `Valid` is the set semantics of `completedWorkouts`. */
  class WorkoutState {
    var selectedWorkout: Option<Workout>
    var selectedDate: string
    var completedWorkouts: seq<string>
    var filterType: StatusFilter

    ghost predicate Valid()
      reads this
    {
      NoDuplicates(completedWorkouts)
    }

    /** `initialState`; `today` is the clock's date string, passed in. */
    constructor (today: string)
      ensures selectedWorkout == None && selectedDate == today
      ensures completedWorkouts == [] && filterType == All
      ensures Valid()
    {
      selectedWorkout := None;
      selectedDate := today;
      completedWorkouts := [];
      filterType := All;
    }

    method SelectWorkout(workout: Option<Workout>)
      modifies this
      ensures selectedWorkout == workout
      ensures selectedDate == old(selectedDate) && completedWorkouts == old(completedWorkouts)
      ensures filterType == old(filterType)
      ensures old(Valid()) ==> Valid()
    {
      selectedWorkout := workout;
    }

    /** No format check happens here; the date is stored as given. */
    method SetSelectedDate(date: string)
      modifies this
      ensures selectedDate == date
      ensures selectedWorkout == old(selectedWorkout) && completedWorkouts == old(completedWorkouts)
      ensures filterType == old(filterType)
      ensures old(Valid()) ==> Valid()
    {
      selectedDate := date;
    }

    method MarkWorkoutCompleted(id: string)
      modifies this
      ensures completedWorkouts == WithCompleted(old(completedWorkouts), id)
      ensures id in completedWorkouts
      ensures selectedWorkout == old(selectedWorkout) && selectedDate == old(selectedDate)
      ensures filterType == old(filterType)
      ensures old(Valid()) ==> Valid()
    {
      if Valid() {
        MarkKeepsNoDuplicates(completedWorkouts, id);
      }
      if id !in completedWorkouts {
        completedWorkouts := completedWorkouts + [id];
      }
    }

    method MarkWorkoutNotCompleted(id: string)
      modifies this
      ensures completedWorkouts == Without(old(completedWorkouts), id)
      ensures id !in completedWorkouts
      ensures selectedWorkout == old(selectedWorkout) && selectedDate == old(selectedDate)
      ensures filterType == old(filterType)
      ensures old(Valid()) ==> Valid()
    {
      UnmarkRemoves(completedWorkouts, id);
      if Valid() {
        UnmarkKeepsNoDuplicates(completedWorkouts, id);
      }
      completedWorkouts := Without(completedWorkouts, id);
    }

    method SetFilterType(filter: StatusFilter)
      modifies this
      ensures filterType == filter
      ensures selectedWorkout == old(selectedWorkout) && selectedDate == old(selectedDate)
      ensures completedWorkouts == old(completedWorkouts)
      ensures old(Valid()) ==> Valid()
    {
      filterType := filter;
    }
  }

  /**
   * The reducer sequence of the slice's "multiple actions" test: select,
   * set the date, mark `"1"`, filter by completed.
   */
  method MultipleActions(today: string, workout: Workout) returns (state: WorkoutState)
    ensures state.selectedWorkout == Some(workout) && state.selectedDate == "2023-12-25"
    ensures state.completedWorkouts == ["1"] && state.filterType == Completed
    ensures state.Valid()
  {
    state := new WorkoutState(today);
    state.SelectWorkout(Some(workout));
    state.SetSelectedDate("2023-12-25");
    state.MarkWorkoutCompleted("1");
    state.SetFilterType(Completed);
  }
}

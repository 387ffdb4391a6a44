/**
 * The workout list's filter: by completion status (the store's filter) and by
 * workout type (the screen's own selection, or every type).
 */
module WorkoutsScreen {
  import opened Workouts
  import opened Sequences
  import opened WorkoutSlice

  /** `WorkoutType | 'ALL'`. */
  datatype TypeFilter = AllTypes | OnlyType(kind: WorkoutType)

  /** The `filter` callback, early returns and all. */
  predicate Shown(w: Workout, status: StatusFilter, t: TypeFilter): (b: bool)
    ensures b <==> ((status == Completed ==> w.completed) && (status == Pending ==> !w.completed) &&
      (t.OnlyType? ==> w.kind == t.kind))
  {
    if status == Completed && !w.completed then false
    else if status == Pending && w.completed then false
    else if t != AllTypes && w.kind != t.kind then false
    else true
  }

  function FilteredWorkouts(workouts: seq<Workout>, status: StatusFilter, t: TypeFilter): (r: seq<Workout>)
    ensures Subsequence(r, workouts)
    ensures forall w :: w in r ==> Shown(w, status, t)
  {
    FilterIsSubsequence(workouts, w => Shown(w, status, t));
    FilterMembers(workouts, w => Shown(w, status, t));
    Filter(workouts, w => Shown(w, status, t))
  }

  /**
   * The shown workouts are an order-preserving subsequence of the list; a
   * workout of the list is shown exactly when its status and type match.
   */
  lemma FilterSelectsMatching(workouts: seq<Workout>, status: StatusFilter, t: TypeFilter, w: Workout)
    ensures Subsequence(FilteredWorkouts(workouts, status, t), workouts)
    ensures w in FilteredWorkouts(workouts, status, t) <==>
      w in workouts &&
      (status == Completed ==> w.completed) && (status == Pending ==> !w.completed) &&
      (t.OnlyType? ==> w.kind == t.kind)
  {
    FilterIsSubsequence(workouts, w => Shown(w, status, t));
    FilterMembership(workouts, w => Shown(w, status, t), w);
  }

  /** Filter `'all'` with type `'ALL'` shows the whole list unchanged. */
  lemma NoFilterShowsAll(workouts: seq<Workout>)
    ensures FilteredWorkouts(workouts, All, AllTypes) == workouts
  {
    FilterKeepsAll(workouts, w => Shown(w, All, AllTypes));
  }

  /** Every workout shown under `'completed'` is completed, under `'pending'` is not. */
  lemma StatusFilterSound(workouts: seq<Workout>, t: TypeFilter)
    ensures forall w :: w in FilteredWorkouts(workouts, Completed, t) ==> w.completed
    ensures forall w :: w in FilteredWorkouts(workouts, Pending, t) ==> !w.completed
    ensures t.OnlyType? ==> forall s, w :: w in FilteredWorkouts(workouts, s, t) ==> w.kind == t.kind
  {
    forall w ensures w in FilteredWorkouts(workouts, Completed, t) ==> w.completed {
      FilterMembership(workouts, w => Shown(w, Completed, t), w);
    }
    forall w ensures w in FilteredWorkouts(workouts, Pending, t) ==> !w.completed {
      FilterMembership(workouts, w => Shown(w, Pending, t), w);
    }
    forall s, w ensures t.OnlyType? && w in FilteredWorkouts(workouts, s, t) ==> w.kind == t.kind {
      FilterMembership(workouts, w => Shown(w, s, t), w);
    }
  }

  /**
   * Under the same type selection, the completed and the pending workouts
   * split the `'all'` result: together they are it, counted with multiplicity.
   */
  lemma StatusPartition(workouts: seq<Workout>, t: TypeFilter)
    ensures |FilteredWorkouts(workouts, Completed, t)| + |FilteredWorkouts(workouts, Pending, t)| ==
      |FilteredWorkouts(workouts, All, t)|
    ensures multiset(FilteredWorkouts(workouts, Completed, t)) + multiset(FilteredWorkouts(workouts, Pending, t)) ==
      multiset(FilteredWorkouts(workouts, All, t))
  {
    FilterSplit(workouts, w => Shown(w, All, t), w => Shown(w, Completed, t), w => Shown(w, Pending, t));
  }

  /** Filtering by type first and by status afterwards is the combined filter. */
  lemma FiltersCompose(workouts: seq<Workout>, status: StatusFilter, t: TypeFilter)
    ensures FilteredWorkouts(FilteredWorkouts(workouts, All, t), status, AllTypes) ==
      FilteredWorkouts(workouts, status, t)
  {
    FilterTwice(workouts, w => Shown(w, All, t), w => Shown(w, status, AllTypes), w => Shown(w, status, t));
  }
}

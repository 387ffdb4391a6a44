/**
 * The workout endpoints of the remote-resource cache: the tags each query
 * provides, the tags each mutation invalidates, and the request each endpoint
 * sends. The cache itself belongs to the data-fetching library; here it is an
 * abstract map from query to the outcome of its last fetch, and invalidation
 * drops every entry whose provided tags meet the mutation's tags.
 */
module WorkoutApi {
  import opened Wrappers
  import opened Workouts

  /**
   * A cache tag `{ type: 'Workouts', id }`. Workout ids and the sentinels
   * `LIST`, `DATE` and `RANGE` share the one `id` namespace.
   */
  datatype Tag = WorkoutsTag(id: string)

  const LIST: string := "LIST"
  const DATE: string := "DATE"
  const RANGE: string := "RANGE"

  predicate IsSentinel(id: string) {
    id == LIST || id == DATE || id == RANGE
  }

  datatype Query =
    | GetWorkouts
    | GetWorkoutById(id: string)
    | GetWorkoutsForDate(date: string)

  /**
   * The mutations. `UpdateWorkout` carries its argument `{ id, ...workout }`
   * split into the id and the remaining fields.
   */
  datatype Mutation =
    | AddWorkout(workout: Workout)
    | UpdateWorkout(id: string, changes: Workout)
    | DeleteWorkout(id: string)
    | CompleteWorkout(id: string, completedDate: string)

  /**
   * What a query's last fetch produced, as far as tagging looks at it: the ids
   * of the workouts returned, or a failed fetch.
   */
  datatype Outcome = Fetched(ids: seq<string>) | Failed

  /** `providesTags` of each query. */
  function ProvidesTags(q: Query, outcome: Outcome): (r: seq<Tag>)
    ensures |r| >= 1
    ensures q.GetWorkouts? ==> r[|r| - 1] == WorkoutsTag(LIST)
    ensures q.GetWorkouts? && outcome.Fetched? ==>
      |r| == |outcome.ids| + 1 && forall i :: 0 <= i < |outcome.ids| ==> r[i] == WorkoutsTag(outcome.ids[i])
    ensures q.GetWorkouts? && outcome.Failed? ==> |r| == 1
    ensures q.GetWorkoutById? ==> r == [WorkoutsTag(q.id)]
    ensures q.GetWorkoutsForDate? ==> r == [WorkoutsTag(DATE)]
  {
    match q
    case GetWorkouts =>
      (match outcome
       case Fetched(ids) => seq(|ids|, i requires 0 <= i < |ids| => WorkoutsTag(ids[i])) + [WorkoutsTag(LIST)]
       case Failed => [WorkoutsTag(LIST)])
    case GetWorkoutById(id) => [WorkoutsTag(id)]
    case GetWorkoutsForDate(_) => [WorkoutsTag(DATE)]
  }

  /** `invalidatesTags` of each mutation. */
  function InvalidatesTags(m: Mutation): (r: seq<Tag>)
    ensures WorkoutsTag(LIST) in r && WorkoutsTag(DATE) in r && WorkoutsTag(RANGE) in r
    ensures forall t :: t in r ==> IsSentinel(t.id) || Target(m) == Some(t.id)
    ensures Target(m).Some? ==> r[0] == WorkoutsTag(Target(m).value)
  {
    match m
    case AddWorkout(_) => [WorkoutsTag(LIST), WorkoutsTag(DATE), WorkoutsTag(RANGE)]
    case UpdateWorkout(id, _) => [WorkoutsTag(id), WorkoutsTag(LIST), WorkoutsTag(DATE), WorkoutsTag(RANGE)]
    case DeleteWorkout(id) => [WorkoutsTag(id), WorkoutsTag(LIST), WorkoutsTag(DATE), WorkoutsTag(RANGE)]
    case CompleteWorkout(id, _) => [WorkoutsTag(id), WorkoutsTag(LIST), WorkoutsTag(DATE), WorkoutsTag(RANGE)]
  }

  /** The workout a mutation is about, when it names one. */
  function Target(m: Mutation): Option<string> {
    if m.AddWorkout? then None else Some(m.id)
  }

  lemma ListQueryTags(ids: seq<string>)
    ensures |ProvidesTags(GetWorkouts, Fetched(ids))| == |ids| + 1
    ensures forall i :: 0 <= i < |ids| ==> ProvidesTags(GetWorkouts, Fetched(ids))[i] == WorkoutsTag(ids[i])
    ensures ProvidesTags(GetWorkouts, Fetched(ids))[|ids|] == WorkoutsTag(LIST)
    ensures ProvidesTags(GetWorkouts, Failed) == [WorkoutsTag(LIST)]
  {
  }

  /** Every date query carries the same tag, whatever its date. */
  lemma DateQueriesShareTag(d1: string, d2: string, o1: Outcome, o2: Outcome)
    ensures ProvidesTags(GetWorkoutsForDate(d1), o1) == ProvidesTags(GetWorkoutsForDate(d2), o2) == [WorkoutsTag(DATE)]
  {
  }

  /** The three mutations on an id invalidate the same four tags; adding invalidates the three sentinels only. */
  lemma MutationTagSets(x: string, w: Workout, d: string)
    ensures TagSet(InvalidatesTags(AddWorkout(w))) == {WorkoutsTag(LIST), WorkoutsTag(DATE), WorkoutsTag(RANGE)}
    ensures TagSet(InvalidatesTags(UpdateWorkout(x, w))) == {WorkoutsTag(x), WorkoutsTag(LIST), WorkoutsTag(DATE), WorkoutsTag(RANGE)}
    ensures TagSet(InvalidatesTags(DeleteWorkout(x))) == TagSet(InvalidatesTags(UpdateWorkout(x, w)))
    ensures TagSet(InvalidatesTags(CompleteWorkout(x, d))) == TagSet(InvalidatesTags(UpdateWorkout(x, w)))
  {
  }

  // ---------------------------------------------------------------------------
  // The abstract cache
  // ---------------------------------------------------------------------------

  type Cache = map<Query, Outcome>

  function TagSet(tags: seq<Tag>): set<Tag> {
    set t | t in tags
  }

  /** The tags the cached entry for `q` carries. */
  function EntryTags(cache: Cache, q: Query): set<Tag>
    requires q in cache
  {
    TagSet(ProvidesTags(q, cache[q]))
  }

  /** A fetch stores (or replaces) the entry for its query. */
  function Store(cache: Cache, q: Query, outcome: Outcome): Cache {
    cache[q := outcome]
  }

  /** Drop every entry that carries one of `tags`. */
  function DropTagged(cache: Cache, tags: set<Tag>): Cache {
    map q | q in cache && EntryTags(cache, q) !! tags :: cache[q]
  }

  /** A successful mutation drops every entry carrying one of its tags. */
  function Invalidate(cache: Cache, m: Mutation): Cache {
    DropTagged(cache, TagSet(InvalidatesTags(m)))
  }

  /** Invalidation only removes entries, and is idempotent. */
  lemma InvalidateOnlyDrops(cache: Cache, m: Mutation)
    ensures Invalidate(cache, m).Keys <= cache.Keys
    ensures forall q :: q in Invalidate(cache, m) ==> Invalidate(cache, m)[q] == cache[q]
    ensures Invalidate(Invalidate(cache, m), m) == Invalidate(cache, m)
  {
    var once := Invalidate(cache, m);
    assert forall q :: q in once ==> EntryTags(once, q) == EntryTags(cache, q);
  }

  /** Two successful mutations drop the same entries in either order. */
  lemma InvalidateCommutes(cache: Cache, m1: Mutation, m2: Mutation)
    ensures Invalidate(Invalidate(cache, m1), m2) == Invalidate(Invalidate(cache, m2), m1)
  {
    var a := Invalidate(Invalidate(cache, m1), m2);
    var b := Invalidate(Invalidate(cache, m2), m1);
    assert forall q :: q in a <==> q in b;
  }

  /** After any mutation, no workout-list or per-date query remains cached. */
  lemma MutationDropsListQueries(cache: Cache, m: Mutation)
    ensures GetWorkouts !in Invalidate(cache, m)
    ensures forall d :: GetWorkoutsForDate(d) !in Invalidate(cache, m)
  {
    assert WorkoutsTag(LIST) in TagSet(InvalidatesTags(m));
    assert WorkoutsTag(DATE) in TagSet(InvalidatesTags(m));
    if GetWorkouts in cache {
      assert WorkoutsTag(LIST) in EntryTags(cache, GetWorkouts);
    }
    forall d | GetWorkoutsForDate(d) in cache
      ensures GetWorkoutsForDate(d) !in Invalidate(cache, m)
    {
      assert WorkoutsTag(DATE) in EntryTags(cache, GetWorkoutsForDate(d));
    }
  }

  /**
   * A cached single-workout query for `y` survives a mutation exactly when `y`
   * is not a sentinel and the mutation is not about `y`; in particular it
   * survives every add.
   */
  lemma ByIdSurvival(cache: Cache, m: Mutation, y: string)
    requires GetWorkoutById(y) in cache
    ensures GetWorkoutById(y) in Invalidate(cache, m) <==> !IsSentinel(y) && Target(m) != Some(y)
  {
    assert EntryTags(cache, GetWorkoutById(y)) == {WorkoutsTag(y)};
    assert WorkoutsTag(y) in TagSet(InvalidatesTags(m)) <==> IsSentinel(y) || Target(m) == Some(y);
  }

  /**
   * Only a single-workout query for the id `RANGE`, or a workout list that
   * contains that id, provides the `RANGE` tag.
   */
  lemma RangeProvidedOnlyBy(q: Query, outcome: Outcome)
    ensures WorkoutsTag(RANGE) in TagSet(ProvidesTags(q, outcome)) <==>
      q == GetWorkoutById(RANGE) || (q == GetWorkouts && outcome.Fetched? && RANGE in outcome.ids)
  {
    if q == GetWorkouts && outcome.Fetched? {
      var ids := outcome.ids;
      var tags := ProvidesTags(q, outcome);
      if RANGE in ids {
        var i :| 0 <= i < |ids| && ids[i] == RANGE;
        assert tags[i] == WorkoutsTag(RANGE);
      }
      if WorkoutsTag(RANGE) in tags {
        var i :| 0 <= i < |tags| && tags[i] == WorkoutsTag(RANGE);
        if i < |ids| {
          assert ids[i] == RANGE;
        }
      }
    }
  }

  /**
   * Unless a workout is literally named `RANGE`, invalidating `RANGE` on top
   * of other tags drops nothing more than those tags alone.
   */
  lemma RangeTagDropsNothing(cache: Cache, tags: set<Tag>)
    requires GetWorkoutById(RANGE) !in cache
    requires GetWorkouts in cache && cache[GetWorkouts].Fetched? ==> RANGE !in cache[GetWorkouts].ids
    ensures DropTagged(cache, tags + {WorkoutsTag(RANGE)}) == DropTagged(cache, tags)
    ensures DropTagged(cache, {WorkoutsTag(RANGE)}) == cache
  {
    forall q | q in cache ensures WorkoutsTag(RANGE) !in EntryTags(cache, q) {
      RangeProvidedOnlyBy(q, cache[q]);
    }
  }

  /**
   * A query fetched after a mutation is cached again, and a later mutation
   * that is not about it keeps it.
   */
  lemma RefetchSurvivesUnrelatedMutation(cache: Cache, m1: Mutation, y: string, o: Outcome, m2: Mutation)
    requires !IsSentinel(y) && Target(m2) != Some(y)
    ensures GetWorkoutById(y) in Invalidate(Store(Invalidate(cache, m1), GetWorkoutById(y), o), m2)
  {
    ByIdSurvival(Store(Invalidate(cache, m1), GetWorkoutById(y), o), m2, y);
  }

  // ---------------------------------------------------------------------------
  // Requests
  // ---------------------------------------------------------------------------

  datatype HttpMethod = GET | POST | PUT | PATCH | DELETE

  datatype Body =
    | NoBody
    | WorkoutBody(workout: Workout)
    | CompletionBody(completed: bool, completedDate: string)

  datatype Request = Request(verb: HttpMethod, url: string, body: Body)

  const WORKOUTS: string := "workouts"

  /** The request a query sends (a string `query` is a GET of that URL). */
  function QueryRequest(q: Query): (r: Request)
    ensures r.verb == GET && r.body == NoBody
    ensures |r.url| >= |WORKOUTS| && r.url[..|WORKOUTS|] == WORKOUTS
    ensures q.GetWorkouts? ==> r.url == WORKOUTS
    ensures q.GetWorkoutById? ==> r.url == WORKOUTS + "/" + q.id
    ensures q.GetWorkoutsForDate? ==> r.url == WORKOUTS + "?date=" + q.date
  {
    match q
    case GetWorkouts => Request(GET, WORKOUTS, NoBody)
    case GetWorkoutById(id) => Request(GET, WORKOUTS + "/" + id, NoBody)
    case GetWorkoutsForDate(date) => Request(GET, WORKOUTS + "?date=" + date, NoBody)
  }

  /** The request a mutation sends. The update body is the workout without its id. */
  function MutationRequest(m: Mutation): (r: Request)
    ensures r.verb == (match m
      case AddWorkout(_) => POST case UpdateWorkout(_, _) => PUT
      case DeleteWorkout(_) => DELETE case CompleteWorkout(_, _) => PATCH)
    ensures r.body.NoBody? <==> m.DeleteWorkout?
    ensures m.AddWorkout? ==> r.url == WORKOUTS && r.body == WorkoutBody(m.workout)
    ensures Target(m).Some? ==> r.url == WORKOUTS + "/" + Target(m).value
  {
    match m
    case AddWorkout(w) => Request(POST, WORKOUTS, WorkoutBody(w))
    case UpdateWorkout(id, changes) => Request(PUT, WORKOUTS + "/" + id, WorkoutBody(changes.(id := None)))
    case DeleteWorkout(id) => Request(DELETE, WORKOUTS + "/" + id, NoBody)
    case CompleteWorkout(id, completedDate) => Request(PATCH, WORKOUTS + "/" + id, CompletionBody(true, completedDate))
  }

  /** The workout id a URL addresses: whatever follows `workouts/`. */
  function UrlWorkoutId(url: string): Option<string> {
    var prefix := WORKOUTS + "/";
    if |url| >= |prefix| && url[..|prefix|] == prefix then Some(url[|prefix|..]) else None
  }

  lemma UrlOfId(id: string)
    ensures UrlWorkoutId(WORKOUTS + "/" + id) == Some(id)
  {
    var url := WORKOUTS + "/" + id;
    assert url[..9] == WORKOUTS + "/" && url[9..] == id;
  }

  /**
   * A mutation's URL addresses exactly the workout it is about (none for an
   * add), and that is the id whose tag it invalidates.
   */
  lemma MutationAddressesTarget(m: Mutation)
    ensures UrlWorkoutId(MutationRequest(m).url) == Target(m)
    ensures Target(m).Some? ==> WorkoutsTag(Target(m).value) in TagSet(InvalidatesTags(m))
  {
    if Target(m).Some? {
      UrlOfId(m.id);
    }
  }

  /** Only the single-workout query addresses a workout; the list and date queries do not. */
  lemma QueryAddressesTarget(q: Query)
    ensures UrlWorkoutId(QueryRequest(q).url) == if q.GetWorkoutById? then Some(q.id) else None
  {
    if q.GetWorkoutById? {
      UrlOfId(q.id);
    } else if q.GetWorkoutsForDate? {
      assert QueryRequest(q).url[8] == '?';
    }
  }

  /** The date a URL asks for: whatever follows `workouts?date=`. */
  function UrlDate(url: string): Option<string> {
    var prefix := WORKOUTS + "?date=";
    if |url| >= |prefix| && url[..|prefix|] == prefix then Some(url[|prefix|..]) else None
  }

  /** Only the per-date query's URL asks for a date, and it is that query's date. */
  lemma QueryCarriesDate(q: Query)
    ensures UrlDate(QueryRequest(q).url) == if q.GetWorkoutsForDate? then Some(q.date) else None
  {
    var url := QueryRequest(q).url;
    if q.GetWorkoutsForDate? {
      assert url[..14] == WORKOUTS + "?date=" && url[14..] == q.date;
    } else if q.GetWorkoutById? {
      assert url[8] == '/';
    }
  }

  /** Completing sends `PATCH workouts/<id>` with `{ completed: true, completedDate }`. */
  lemma CompleteRequestShape(id: string, date: string)
    ensures MutationRequest(CompleteWorkout(id, date)).verb == PATCH
    ensures MutationRequest(CompleteWorkout(id, date)).body == CompletionBody(true, date)
    ensures UrlWorkoutId(MutationRequest(CompleteWorkout(id, date)).url) == Some(id)
  {
    UrlOfId(id);
  }

  /** The update body is the given workout with the id stripped and nothing else changed. */
  lemma UpdateBodyStripsId(id: string, w: Workout)
    ensures MutationRequest(UpdateWorkout(id, w)).body.WorkoutBody?
    ensures MutationRequest(UpdateWorkout(id, w)).body.workout.id == None
    ensures MutationRequest(UpdateWorkout(id, w)).body.workout == w.(id := None)
    ensures w.id == None ==> MutationRequest(UpdateWorkout(id, w)).body.workout == w
  {
  }
}

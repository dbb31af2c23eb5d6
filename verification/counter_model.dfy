/**
 The shared state of the runner counter processor: the last mat each track
 (runner) was seen crossing, and the two counts kept for every mat.
 The predicates here are the invariants the operations in the other modules
 are proved to keep.
 */
module CounterModel {

  /** The two counts kept per mat. `onCourse` is a plain `int`: the processor
      never clamps it, and after an auto-reset it can go below zero. */
  datatype Counters = Counters(matCrossed: int, onCourse: int)

  /** A freshly created counters entry. */
  const Zero: Counters := Counters(0, 0)

  /** `trackCache` maps a track id to the id of the last mat it crossed;
      `counterCache` maps a mat id to its counters. */
  datatype Store = Store(trackCache: map<string, string>, counterCache: map<string, Counters>)

  /** The state before anything has been observed, and after a clear. */
  const Empty: Store := Store(map[], map[])

  /** The counters of `mat`, or the zero entry the processor would create for it. */
  function CountersAt(s: Store, mat: string): Counters
  {
    if mat in s.counterCache then s.counterCache[mat] else Zero
  }

  /** True iff `trackId` was last seen at a mat other than `mat`: observing it
      at `mat` then moves a runner off its previous mat. */
  predicate Moves(s: Store, trackId: string, mat: string)
  {
    trackId in s.trackCache && s.trackCache[trackId] != mat
  }

  /** Every mat some track was last seen at has a counters entry. */
  predicate KeyCoverage(s: Store)
  {
    forall t :: t in s.trackCache ==> s.trackCache[t] in s.counterCache
  }

  /** Key coverage, and on every mat a non-negative crossed count that is at
      least the on-course count. Every operation keeps this, auto-reset included. */
  predicate WellFormed(s: Store)
  {
    && KeyCoverage(s)
    && forall m :: m in s.counterCache ==>
         0 <= s.counterCache[m].matCrossed && s.counterCache[m].onCourse <= s.counterCache[m].matCrossed
  }

  /** The tracks whose last mat is `mat`. */
  function Occupants(s: Store, mat: string): set<string>
  {
    set t | t in s.trackCache && s.trackCache[t] == mat
  }

  /** Well-formed, and on every mat the on-course count is at least the number
      of tracks currently there. This holds as long as no auto-reset has zeroed
      the counters since the last clear. */
  predicate OccupancyBounded(s: Store)
  {
    && WellFormed(s)
    && forall m :: m in s.counterCache ==> |Occupants(s, m)| <= s.counterCache[m].onCourse
  }

  /** Under key coverage a mat without counters has no tracks on it. */
  lemma NoOccupantsWithoutCounters(s: Store, mat: string)
    requires KeyCoverage(s)
    requires mat !in s.counterCache
    ensures Occupants(s, mat) == {}
  {
  }

  /** In an occupancy-bounded state no on-course count is negative. */
  lemma BoundedOnCourseNonNegative(s: Store, mat: string)
    requires OccupancyBounded(s)
    requires mat in s.counterCache
    ensures 0 <= s.counterCache[mat].onCourse
  {
  }
}

/**
 The daily clear-cache task (auto-reset and clear) and the clear-on-start
 step of service start, each as one atomic step.
 */
module ClearCache {
  import opened CounterModel
  import Process

  /** Auto-reset: every mat keeps its key and gets a fresh zero entry; the
      track cache is left as it is. */
  function Reset(s: Store): (r: Store)
    ensures r.trackCache == s.trackCache
    ensures r.counterCache.Keys == s.counterCache.Keys
    ensures forall m :: m in r.counterCache ==> r.counterCache[m] == Zero
  {
    Store(s.trackCache, map m | m in s.counterCache :: Zero)
  }

  /** Clear: both caches are emptied. */
  function Clear(s: Store): (r: Store)
    ensures r.trackCache == map[] && r.counterCache == map[]
  {
    Empty
  }

  /** One firing of the daily task: reset when `autoResetCounter` is set, then
      clear when `clearCache` is set. */
  function DailyTask(s: Store, autoResetCounter: bool, clearCache: bool): (r: Store)
    ensures clearCache ==> r == Empty
    ensures autoResetCounter && !clearCache ==> r == Reset(s)
    ensures !autoResetCounter && !clearCache ==> r == s
  {
    var afterReset := if autoResetCounter then Reset(s) else s;
    if clearCache then Clear(afterReset) else afterReset
  }

  /** The state change of service start: both caches are emptied when
      `clearCacheOnStart` is set, and nothing changes otherwise. */
  function ServiceStart(s: Store, clearCacheOnStart: bool): (r: Store)
    ensures clearCacheOnStart ==> r.trackCache == map[] && r.counterCache == map[]
    ensures !clearCacheOnStart ==> r == s
  {
    if clearCacheOnStart then Clear(s) else s
  }

  /** Resetting twice is resetting once. */
  lemma ResetIdempotent(s: Store)
    ensures Reset(Reset(s)) == Reset(s)
  {
  }

  /** Clearing after a reset is just clearing, so with both flags on the
      order of the two steps does not matter. */
  lemma ClearSubsumesReset(s: Store)
    ensures Clear(Reset(s)) == Clear(s)
    ensures Reset(Clear(s)) == Clear(s)
  {
  }

  /** Auto-reset keeps key coverage and the crossed/on-course bounds, so a later
      decrement on a zeroed mat still finds its entry. */
  lemma ResetPreservesWellFormed(s: Store)
    requires WellFormed(s)
    ensures WellFormed(Reset(s))
  {
  }

  /** The empty state is occupancy-bounded, so clear restores every invariant. */
  lemma ClearIsOccupancyBounded(s: Store)
    ensures OccupancyBounded(Clear(s))
  {
  }

  /** After a clear a track is unseen again: its next observation finds no
      previous mat, so the only mat is the observed one, at {1, 1}. */
  lemma ObserveAfterClear(s: Store, trackId: string, mat: string)
    ensures Process.Observe(Clear(s), trackId, mat) ==
              Process.Processed(Store(map[trackId := mat], map[mat := Counters(1, 1)]))
  {
  }

  /** After a reset, observing a mat starts its counts from zero again: the old
      counts do not come back. */
  lemma ObserveAfterResetStartsFromZero(s: Store, trackId: string, mat: string)
    ensures Process.Observe(Reset(s), trackId, mat).store.counterCache[mat] == Counters(1, 1)
  {
  }

  /** After an auto-reset without a clear, any runner still listed at a mat who
      moves to another mat drives the zeroed mat's on-course count to -1, which
      breaks the occupancy bound. */
  lemma ResetThenMoveGoesNegative(s: Store, trackId: string, mat: string)
    requires KeyCoverage(s)
    requires trackId in s.trackCache && s.trackCache[trackId] != mat
    ensures var r := Process.Observe(Reset(s), trackId, mat);
            && r.Processed?
            && r.store.counterCache[s.trackCache[trackId]] == Counters(0, -1)
            && !OccupancyBounded(r.store)
  {
    var r := Process.Observe(Reset(s), trackId, mat);
    assert r.store.counterCache[s.trackCache[trackId]].onCourse < 0;
  }

  /** The smallest instance: E1 at A is within the bound, and after a reset and
      a move to B, A sits at {0, -1} and the bound no longer holds. */
  lemma ResetThenMoveExample()
    ensures var s := Process.Observe(Empty, "E1", "A").store;
            var r := Process.Observe(Reset(s), "E1", "B");
            && OccupancyBounded(s)
            && r.Processed?
            && r.store.counterCache["A"] == Counters(0, -1)
            && !OccupancyBounded(r.store)
  {
    var s := Process.Observe(Empty, "E1", "A").store;
    assert s.counterCache["A"] == Counters(1, 1);
    assert Occupants(s, "A") == {"E1"};
    ResetThenMoveGoesNegative(s, "E1", "B");
  }
}

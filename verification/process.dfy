/**
 Observing one event: the body of the processor's `process`, taken as one
 atomic step under the counter lock.
 */
module Process {
  import opened CounterModel

  /** The result of observing an event. `NullPointer` is the case where the
      runner's previous mat has no counters entry, so the decrement dereferences
      a missing entry; `store` then holds the changes made before that point. */
  datatype Outcome = Processed(store: Store) | NullPointer(store: Store)

  /** Records that track `trackId` crossed `currentMat`: the track's last mat
      becomes `currentMat`, both counts of `currentMat` rise by one (creating
      it at zero first), and when the track moved off another mat that mat's
      on-course count drops by one. */
  function Observe(s: Store, trackId: string, currentMat: string): (r: Outcome)
    // the track's last mat is now `currentMat`; other tracks keep theirs
    ensures r.store.trackCache.Keys == s.trackCache.Keys + {trackId}
    ensures r.store.trackCache[trackId] == currentMat
    ensures forall t :: t in s.trackCache && t != trackId ==> r.store.trackCache[t] == s.trackCache[t]
    // the current mat exists afterwards and both its counts rose by exactly one
    ensures r.store.counterCache.Keys == s.counterCache.Keys + {currentMat}
    ensures r.store.counterCache[currentMat].matCrossed == CountersAt(s, currentMat).matCrossed + 1
    ensures r.store.counterCache[currentMat].onCourse == CountersAt(s, currentMat).onCourse + 1
    // the lookup of the previous mat fails exactly when that mat has no entry
    ensures r.NullPointer? <==> Moves(s, trackId, currentMat) && s.trackCache[trackId] !in s.counterCache
    // a runner leaving a mat takes one off its on-course count and nothing off its crossed count
    ensures r.Processed? && Moves(s, trackId, currentMat) ==>
              var p := s.trackCache[trackId];
              && r.store.counterCache[p].matCrossed == s.counterCache[p].matCrossed
              && r.store.counterCache[p].onCourse == s.counterCache[p].onCourse - 1
    // every other mat is untouched
    ensures forall m :: m in s.counterCache && m != currentMat && !(Moves(s, trackId, currentMat) && m == s.trackCache[trackId]) ==>
              r.store.counterCache[m] == s.counterCache[m]
  {
    var trackCache := s.trackCache[trackId := currentMat];
    var counters := CountersAt(s, currentMat);
    var counterCache := s.counterCache[currentMat := Counters(counters.matCrossed + 1, counters.onCourse + 1)];
    if Moves(s, trackId, currentMat) then
      var previousMat := s.trackCache[trackId];
      if previousMat in counterCache then
        var previous := counterCache[previousMat];
        Processed(Store(trackCache, counterCache[previousMat := previous.(onCourse := previous.onCourse - 1)]))
      else
        NullPointer(Store(trackCache, counterCache))
    else
      Processed(Store(trackCache, counterCache))
  }

  /** With every track's mat covered by a counters entry, the previous-mat
      lookup never fails, and the observation keeps the state well-formed. */
  lemma ObservePreservesWellFormed(s: Store, trackId: string, currentMat: string)
    requires WellFormed(s)
    ensures Observe(s, trackId, currentMat).Processed?
    ensures WellFormed(Observe(s, trackId, currentMat).store)
  {
  }

  /** How moving `trackId` to `currentMat` changes the runners on mat `m`. */
  lemma OccupantsAfterMove(s: Store, s': Store, trackId: string, currentMat: string, m: string)
    requires s'.trackCache == s.trackCache[trackId := currentMat]
    ensures m == currentMat ==> Occupants(s', m) == Occupants(s, m) + {trackId}
    ensures m != currentMat ==> Occupants(s', m) == Occupants(s, m) - {trackId}
  {
    if m == currentMat {
      assert Occupants(s', m) == Occupants(s, m) + {trackId};
    } else {
      assert Occupants(s', m) == Occupants(s, m) - {trackId};
    }
  }

  /** The per-mat step of the occupancy bound, stated over the effects of an
      observation rather than over `Observe` itself. */
  lemma OccupancyBoundAt(s: Store, s': Store, trackId: string, currentMat: string, m: string)
    requires KeyCoverage(s)
    requires m in s.counterCache ==> |Occupants(s, m)| <= s.counterCache[m].onCourse
    requires s'.trackCache == s.trackCache[trackId := currentMat]
    requires m in s'.counterCache
    requires m == currentMat ==> s'.counterCache[m].onCourse == CountersAt(s, m).onCourse + 1
    requires m != currentMat && Moves(s, trackId, currentMat) && m == s.trackCache[trackId] ==>
               m in s.counterCache && s'.counterCache[m].onCourse == s.counterCache[m].onCourse - 1
    requires m != currentMat && !(Moves(s, trackId, currentMat) && m == s.trackCache[trackId]) ==>
               m in s.counterCache && s'.counterCache[m] == s.counterCache[m]
    ensures |Occupants(s', m)| <= s'.counterCache[m].onCourse
  {
    OccupantsAfterMove(s, s', trackId, currentMat, m);
    if m == currentMat {
      if m !in s.counterCache {
        NoOccupantsWithoutCounters(s, m);
      }
    } else if Moves(s, trackId, currentMat) && m == s.trackCache[trackId] {
      assert trackId in Occupants(s, m);
    } else {
      assert trackId !in Occupants(s, m);
    }
  }

  /** Observing keeps the on-course count of every mat at least the number of
      runners on it. */
  lemma {:induction false} ObservePreservesOccupancyBound(s: Store, trackId: string, currentMat: string)
    requires OccupancyBounded(s)
    ensures OccupancyBounded(Observe(s, trackId, currentMat).store)
  {
    ObservePreservesWellFormed(s, trackId, currentMat);
    var s' := Observe(s, trackId, currentMat).store;
    forall m | m in s'.counterCache
      ensures |Occupants(s', m)| <= s'.counterCache[m].onCourse
    {
      OccupancyBoundAt(s, s', trackId, currentMat, m);
    }
  }

  /** A repeat observation at the same mat takes nothing off any mat: the
      on-course count of that mat keeps rising. */
  lemma RepeatObservationNoDecrement(s: Store, trackId: string, mat: string)
    requires trackId in s.trackCache && s.trackCache[trackId] == mat
    ensures Observe(s, trackId, mat).Processed?
    ensures forall m :: m in s.counterCache && m != mat ==>
              Observe(s, trackId, mat).store.counterCache[m] == s.counterCache[m]
    ensures Observe(s, trackId, mat).store.counterCache[mat].onCourse == CountersAt(s, mat).onCourse + 1
  {
  }
}

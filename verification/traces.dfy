/**
 Runs of the processor: sequences of observations, daily task firings and
 service starts applied one after another to the shared state, with the
 invariants that hold along every run and the scenarios the processor is
 meant to count correctly.
 */
module Traces {
  import opened CounterModel
  import Process
  import ClearCache

  /** Everything that changes the shared state. */
  datatype Event =
    | Observation(trackId: string, mat: string)
    | DailyTask(autoResetCounter: bool, clearCache: bool)
    | ServiceStart(clearCacheOnStart: bool)

  /** The state after one event. A failed observation keeps the changes it
      made before failing. */
  function Step(s: Store, e: Event): Store
  {
    match e
    case Observation(trackId, mat) => Process.Observe(s, trackId, mat).store
    case DailyTask(autoResetCounter, clearCache) => ClearCache.DailyTask(s, autoResetCounter, clearCache)
    case ServiceStart(clearCacheOnStart) => ClearCache.ServiceStart(s, clearCacheOnStart)
  }

  /** True iff `e` is an observation whose previous-mat lookup fails. */
  predicate StepFails(s: Store, e: Event)
  {
    e.Observation? && Process.Observe(s, e.trackId, e.mat).NullPointer?
  }

  /** The state after all of `events`, in order. */
  function Run(s: Store, events: seq<Event>): Store
    decreases |events|
  {
    if events == [] then s else Run(Step(s, events[0]), events[1..])
  }

  /** No event of the run fails. */
  predicate RunsClean(s: Store, events: seq<Event>)
    decreases |events|
  {
    events == [] || (!StepFails(s, events[0]) && RunsClean(Step(s, events[0]), events[1..]))
  }

  /** A firing that zeroes the counters without clearing the caches. */
  predicate Zeroes(e: Event)
  {
    e.DailyTask? && e.autoResetCounter && !e.clearCache
  }

  /** Every kind of event keeps the state well-formed, and none fails on a
      well-formed state. */
  lemma StepPreservesWellFormed(s: Store, e: Event)
    requires WellFormed(s)
    ensures !StepFails(s, e)
    ensures WellFormed(Step(s, e))
  {
    match e
    case Observation(trackId, mat) =>
      Process.ObservePreservesWellFormed(s, trackId, mat);
    case DailyTask(autoResetCounter, clearCache) =>
      ClearCache.ResetPreservesWellFormed(s);
    case ServiceStart(_) =>
  }

  /** Along every run from a well-formed state, the previous-mat lookup never
      fails and the state stays well-formed, auto-resets included. */
  lemma {:induction false} WellFormedRun(s: Store, events: seq<Event>)
    requires WellFormed(s)
    ensures RunsClean(s, events)
    ensures WellFormed(Run(s, events))
    decreases |events|
  {
    if events != [] {
      StepPreservesWellFormed(s, events[0]);
      WellFormedRun(Step(s, events[0]), events[1..]);
    }
  }

  /** Every event except a zeroing reset keeps the occupancy bound. */
  lemma StepPreservesOccupancyBound(s: Store, e: Event)
    requires OccupancyBounded(s)
    requires !Zeroes(e)
    ensures OccupancyBounded(Step(s, e))
  {
    match e
    case Observation(trackId, mat) =>
      Process.ObservePreservesOccupancyBound(s, trackId, mat);
    case DailyTask(autoResetCounter, clearCache) =>
      ClearCache.ClearIsOccupancyBounded(s);
    case ServiceStart(clearCacheOnStart) =>
      ClearCache.ClearIsOccupancyBounded(s);
  }

  /** With no zeroing reset in the run, every mat's on-course count stays at
      least the number of runners on it (and so never goes negative), and at
      most its crossed count. */
  lemma {:induction false} OccupancyBoundedRun(s: Store, events: seq<Event>)
    requires OccupancyBounded(s)
    requires forall i :: 0 <= i < |events| ==> !Zeroes(events[i])
    ensures OccupancyBounded(Run(s, events))
    decreases |events|
  {
    if events != [] {
      StepPreservesOccupancyBound(s, events[0]);
      OccupancyBoundedRun(Step(s, events[0]), events[1..]);
    }
  }

  /** From the empty state, with no zeroing reset: for every mat,
      runners on it <= on-course <= crossed, and on-course is never negative. */
  lemma BoundsFromEmpty(events: seq<Event>, mat: string)
    requires forall i :: 0 <= i < |events| ==> !Zeroes(events[i])
    requires mat in Run(Empty, events).counterCache
    ensures var c := Run(Empty, events).counterCache[mat];
            |Occupants(Run(Empty, events), mat)| <= c.onCourse <= c.matCrossed && 0 <= c.onCourse
  {
    OccupancyBoundedRun(Empty, events);
  }

  /** Every event in `events` is an observation of a track not yet in `s` at a
      mat not yet in `s`. */
  predicate FreshFor(s: Store, events: seq<Event>)
  {
    forall i :: 0 <= i < |events| ==>
      events[i].Observation? && events[i].trackId !in s.trackCache && events[i].mat !in s.counterCache
  }

  /** No two observations share a track or a mat. */
  predicate PairwiseDisjoint(events: seq<Event>)
  {
    forall i, j :: 0 <= i < j < |events| && events[i].Observation? && events[j].Observation? ==>
      events[i].trackId != events[j].trackId && events[i].mat != events[j].mat
  }

  /** The mats the observations in `events` name. */
  function ObservedMats(events: seq<Event>): set<string>
  {
    set i | 0 <= i < |events| && events[i].Observation? :: events[i].mat
  }

  /** A new runner arriving at a new mat adds that mat at {1, 1} and nothing else. */
  lemma FreshArrival(s: Store, trackId: string, mat: string)
    requires trackId !in s.trackCache && mat !in s.counterCache
    ensures Step(s, Observation(trackId, mat)).trackCache == s.trackCache[trackId := mat]
    ensures Step(s, Observation(trackId, mat)).counterCache == s.counterCache[mat := Counters(1, 1)]
  {
  }

  /** What the first arrival leaves for the rest of the run: the remaining
      arrivals are still fresh and still pairwise disjoint. */
  lemma RestStaysFresh(s: Store, events: seq<Event>)
    requires |events| > 0
    requires FreshFor(s, events)
    requires PairwiseDisjoint(events)
    ensures FreshFor(Step(s, events[0]), events[1..])
    ensures PairwiseDisjoint(events[1..])
  {
    var rest := events[1..];
    FreshArrival(s, events[0].trackId, events[0].mat);
    forall i | 0 <= i < |rest|
      ensures rest[i].Observation? && rest[i].trackId !in Step(s, events[0]).trackCache
      ensures rest[i].mat !in Step(s, events[0]).counterCache
    {
      assert rest[i] == events[i + 1];
    }
    forall i, j | 0 <= i < j < |rest| && rest[i].Observation? && rest[j].Observation?
      ensures rest[i].trackId != rest[j].trackId && rest[i].mat != rest[j].mat
    {
      assert rest[i] == events[i + 1] && rest[j] == events[j + 1];
    }
  }

  /** The mats of a run of observations are the first one's and the rest's. */
  lemma ObservedMatsCons(events: seq<Event>)
    requires |events| > 0 && events[0].Observation?
    ensures ObservedMats(events) == {events[0].mat} + ObservedMats(events[1..])
  {
    var rest := events[1..];
    forall m | m in ObservedMats(events)
      ensures m in {events[0].mat} + ObservedMats(rest)
    {
      var i :| 0 <= i < |events| && events[i].Observation? && events[i].mat == m;
      if i > 0 {
        assert rest[i - 1] == events[i];
      }
    }
    forall m | m in ObservedMats(rest)
      ensures m in ObservedMats(events)
    {
      var i :| 0 <= i < |rest| && rest[i].Observation? && rest[i].mat == m;
      assert events[i + 1] == rest[i];
    }
  }

  /** Runners arriving each at their own new mat: each of those mats ends at
      crossed 1, on-course 1, the mats already there are untouched, and no
      other mat appears. */
  lemma {:induction false} DisjointArrivalsFrom(s: Store, events: seq<Event>)
    requires FreshFor(s, events)
    requires PairwiseDisjoint(events)
    ensures Run(s, events).counterCache.Keys == s.counterCache.Keys + ObservedMats(events)
    ensures forall i :: 0 <= i < |events| ==> Run(s, events).counterCache[events[i].mat] == Counters(1, 1)
    ensures forall m :: m in s.counterCache ==> Run(s, events).counterCache[m] == s.counterCache[m]
    decreases |events|
  {
    if events != [] {
      var e, rest := events[0], events[1..];
      var s' := Step(s, e);
      FreshArrival(s, e.trackId, e.mat);
      RestStaysFresh(s, events);
      DisjointArrivalsFrom(s', rest);
      ObservedMatsCons(events);
      assert Run(s, events) == Run(s', rest);
      forall i | 0 < i < |events|
        ensures Run(s, events).counterCache[events[i].mat] == Counters(1, 1)
      {
        assert events[i] == rest[i - 1];
      }
    }
  }

  /** N runners observed once each, each at its own mat, starting empty: every
      one of those mats is at crossed 1, on-course 1, and there is no other mat. */
  lemma DisjointArrivals(events: seq<Event>)
    requires forall i :: 0 <= i < |events| ==> events[i].Observation?
    requires PairwiseDisjoint(events)
    ensures Run(Empty, events).counterCache.Keys == ObservedMats(events)
    ensures forall i :: 0 <= i < |events| ==> Run(Empty, events).counterCache[events[i].mat] == Counters(1, 1)
  {
    DisjointArrivalsFrom(Empty, events);
  }

  /** (E1, A), (E2, B), (E1, B): A ends at {1, 0}, B at {2, 2}. */
  lemma TwoRunnersScenario()
    ensures var s := Run(Empty, [Observation("E1", "A"), Observation("E2", "B"), Observation("E1", "B")]);
            && s.counterCache == map["A" := Counters(1, 0), "B" := Counters(2, 2)]
            && s.trackCache == map["E1" := "B", "E2" := "B"]
  {
    var s1 := Step(Empty, Observation("E1", "A"));
    assert s1 == Store(map["E1" := "A"], map["A" := Counters(1, 1)]);
    var s2 := Step(s1, Observation("E2", "B"));
    assert s2 == Store(map["E1" := "A", "E2" := "B"], map["A" := Counters(1, 1), "B" := Counters(1, 1)]);
    var s3 := Step(s2, Observation("E1", "B"));
    assert s3 == Store(map["E1" := "B", "E2" := "B"], map["A" := Counters(1, 0), "B" := Counters(2, 2)]);
    var events := [Observation("E1", "A"), Observation("E2", "B"), Observation("E1", "B")];
    assert events[1..][1..][1..] == [];
  }

  /** One runner observed at A three times: A ends at {3, 3}, since a repeat
      observation never decrements. */
  lemma RepeatScenario()
    ensures Run(Empty, [Observation("E1", "A"), Observation("E1", "A"), Observation("E1", "A")]).counterCache
              == map["A" := Counters(3, 3)]
  {
    var s1 := Step(Empty, Observation("E1", "A"));
    assert s1 == Store(map["E1" := "A"], map["A" := Counters(1, 1)]);
    var s2 := Step(s1, Observation("E1", "A"));
    assert s2 == Store(map["E1" := "A"], map["A" := Counters(2, 2)]);
    var s3 := Step(s2, Observation("E1", "A"));
    assert s3 == Store(map["E1" := "A"], map["A" := Counters(3, 3)]);
    var events := [Observation("E1", "A"), Observation("E1", "A"), Observation("E1", "A")];
    assert events[1..][1..][1..] == [];
  }

  /** One runner moving A, then B, then C: A and B end at {1, 0}, C at {1, 1}. */
  lemma TransitionScenario()
    ensures Run(Empty, [Observation("E", "A"), Observation("E", "B"), Observation("E", "C")]).counterCache
              == map["A" := Counters(1, 0), "B" := Counters(1, 0), "C" := Counters(1, 1)]
  {
    var s1 := Step(Empty, Observation("E", "A"));
    assert s1 == Store(map["E" := "A"], map["A" := Counters(1, 1)]);
    var s2 := Step(s1, Observation("E", "B"));
    assert s2 == Store(map["E" := "B"], map["A" := Counters(1, 0), "B" := Counters(1, 1)]);
    var s3 := Step(s2, Observation("E", "C"));
    assert s3 == Store(map["E" := "C"], map["A" := Counters(1, 0), "B" := Counters(1, 0), "C" := Counters(1, 1)]);
    var events := [Observation("E", "A"), Observation("E", "B"), Observation("E", "C")];
    assert events[1..][1..][1..] == [];
  }

  /** (E1, A), an auto-reset without clear, then (E1, B): A ends at {0, -1},
      an on-course count below zero. */
  lemma ResetScenario()
    ensures Run(Empty, [Observation("E1", "A"), DailyTask(true, false), Observation("E1", "B")]).counterCache
              == map["A" := Counters(0, -1), "B" := Counters(1, 1)]
  {
    var s1 := Step(Empty, Observation("E1", "A"));
    assert s1 == Store(map["E1" := "A"], map["A" := Counters(1, 1)]);
    var s2 := Step(s1, DailyTask(true, false));
    assert s2 == Store(map["E1" := "A"], map["A" := Counters(0, 0)]);
    var s3 := Step(s2, Observation("E1", "B"));
    assert s3 == Store(map["E1" := "B"], map["A" := Counters(0, -1), "B" := Counters(1, 1)]);
    var events := [Observation("E1", "A"), DailyTask(true, false), Observation("E1", "B")];
    assert events[1..][1..][1..] == [];
  }
}

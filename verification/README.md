# Marathon runner counter, modelled in Dafny

The runner counter is a GeoEvent processor. It receives an event each time a
runner (a track) crosses a timing mat. For every mat it keeps two counts: how
many crossings the mat has seen (`matCrossedCount`) and how many runners are on
the course after it (`onCourseCount`). A report generator periodically sends
one event per mat carrying both counts. A daily task can zero the counters
(auto-reset), empty both caches (clear), or both. Service start can also empty
both caches.

The model keeps the processor's two caches as immutable maps
(`CounterModel.Store`):

- `trackCache`: track id → id of the last mat it crossed;
- `counterCache`: mat id → `Counters(matCrossed, onCourse)`.

Each operation is one pure, atomic transition. That is what the
`synchronized (lock1)` block in `process` aims for, but the source's lock does
not cover every access; "## Left out" says what the model therefore does not
capture. The modules are:

- `CounterModel` (`counter_model.dfy`): the state, plus the invariants
  `KeyCoverage`, `WellFormed` and `OccupancyBounded`.
- `Process` (`process.dfy`): observing one event.
- `ClearCache` (`clear_cache.dfy`): auto-reset, clear, one firing of the daily
  task, and clear-on-start.
- `Reporting` (`reporting.dfy`): one report tick.
- `Validation` (`validation.dfy`): converting the report interval and
  validating it.
- `Traces` (`traces.dfy`): runs of events, the invariants along them, and
  concrete scenarios.

`onCourse` is an `int`, not a `nat`. The processor never clamps it. After an
auto-reset without a clear, a runner still listed at a zeroed mat who moves on
drives that mat's on-course count to -1 (`ClearCache.ResetThenMoveGoesNegative`,
`Traces.ResetScenario`).

`Process.Observe` is total. On a state where the runner's previous mat has no
counters entry, the source dereferences a missing entry when it decrements.
The model returns `NullPointer` for that case, carrying the changes the source
has already made by then. `Process.ObservePreservesWellFormed` and
`Traces.WellFormedRun` prove that this never happens along any serial run of
atomic steps from a well-formed state, auto-resets included. The concurrent
source can still reach it (see "## Left out").

Two points where the program's own names and declarations suggest more than
its code does; the model follows the code:

- On-course counts are an upper bound on the runners at a mat, not their
  number. The field is named `onCourseCount`, and the comment at
  `RunnerCounter.java:238` speaks of runners crossing mats. Yet
  `RunnerCounter.java:234` also increments on a repeat observation at the same
  mat, and a runner seen at A three times leaves A at {3, 3}. The model proves
  only the bound: runners on the mat ≤ on-course ≤ crossed
  (`Traces.OccupancyBoundedRun`).
- `clearCache` works without auto-reset. `RunnerCounterDefinition.java:53`
  declares the property as dependent on `autoResetCounter=true`. Yet
  `RunnerCounter.java:286` schedules the daily task when either flag is set,
  and `RunnerCounter.java:99` clears whenever `clearCache` is set
  (`ClearCache.DailyTask`).

Source paths below are relative to the repository root.

## Model

| member | source | states |
|---|---|---|
| Process.Observe | marathon-runner-counter-processor/src/main/java/com/esri/geoevent/processor/marathonrunnercounter/RunnerCounter.java:216-248 | the track's last mat becomes the observed mat and other tracks keep theirs; the observed mat exists afterwards with both counts exactly one higher (created at zero if absent); when the track moves off a mat with an entry, that mat's on-course drops by one and its crossed count stays; the lookup fails exactly when the previous mat has no entry; every other mat is unchanged |
| Process.ObservePreservesWellFormed | marathon-runner-counter-processor/src/main/java/com/esri/geoevent/processor/marathonrunnercounter/RunnerCounter.java:227-244 | under key coverage the previous-mat lookup never fails, and observing keeps key coverage and 0 ≤ crossed, on-course ≤ crossed |
| Process.ObservePreservesOccupancyBound | marathon-runner-counter-processor/src/main/java/com/esri/geoevent/processor/marathonrunnercounter/RunnerCounter.java:226-244 | observing keeps every mat's on-course count at least the number of tracks whose last mat it is |
| Process.RepeatObservationNoDecrement | marathon-runner-counter-processor/src/main/java/com/esri/geoevent/processor/marathonrunnercounter/RunnerCounter.java:239-244 | observing a track at the mat it is already on decrements nothing: other mats are unchanged and that mat's on-course rises by one |
| CounterModel.BoundedOnCourseNonNegative | marathon-runner-counter-processor/src/main/java/com/esri/geoevent/processor/marathonrunnercounter/RunnerCounter.java:242 | in a occupancy-bounded state no on-course count is negative |
| ClearCache.Reset | marathon-runner-counter-processor/src/main/java/com/esri/geoevent/processor/marathonrunnercounter/RunnerCounter.java:90-97 | auto-reset keeps exactly the same mat keys, every one at {0, 0}, and leaves the track cache unchanged |
| ClearCache.Clear | marathon-runner-counter-processor/src/main/java/com/esri/geoevent/processor/marathonrunnercounter/RunnerCounter.java:99-105 | clear empties both caches |
| ClearCache.DailyTask | marathon-runner-counter-processor/src/main/java/com/esri/geoevent/processor/marathonrunnercounter/RunnerCounter.java:88-107 | with `clearCache` set the end state is two empty maps, whatever `autoResetCounter` is; with only auto-reset it is the reset state; with neither it is unchanged |
| ClearCache.ServiceStart | marathon-runner-counter-processor/src/main/java/com/esri/geoevent/processor/marathonrunnercounter/RunnerCounter.java:275-285 | with `clearCacheOnStart` set both caches are empty afterwards; otherwise nothing changes |
| ClearCache.ResetIdempotent | marathon-runner-counter-processor/src/main/java/com/esri/geoevent/processor/marathonrunnercounter/RunnerCounter.java:92-96 | resetting twice gives the same state as resetting once |
| ClearCache.ClearSubsumesReset | marathon-runner-counter-processor/src/main/java/com/esri/geoevent/processor/marathonrunnercounter/RunnerCounter.java:90-105 | clear after reset, reset after clear and clear alone all give the same state |
| ClearCache.ResetPreservesWellFormed | marathon-runner-counter-processor/src/main/java/com/esri/geoevent/processor/marathonrunnercounter/RunnerCounter.java:92-96 | auto-reset keeps key coverage and the crossed/on-course bounds, so a later decrement on a zeroed mat still finds its entry |
| ClearCache.ClearIsOccupancyBounded | marathon-runner-counter-processor/src/main/java/com/esri/geoevent/processor/marathonrunnercounter/RunnerCounter.java:103-104 | the cleared state satisfies every invariant |
| ClearCache.ObserveAfterClear | marathon-runner-counter-processor/src/main/java/com/esri/geoevent/processor/marathonrunnercounter/RunnerCounter.java:99-105 | after a clear a track is unseen again: its next observation succeeds and leaves only that track, at that mat, and only that mat, at {1, 1} |
| ClearCache.ObserveAfterResetStartsFromZero | marathon-runner-counter-processor/src/main/java/com/esri/geoevent/processor/marathonrunnercounter/RunnerCounter.java:92-96 | after an auto-reset a mat's next observation leaves it at {1, 1}; old counts do not come back |
| ClearCache.ResetThenMoveGoesNegative | marathon-runner-counter-processor/src/main/java/com/esri/geoevent/processor/marathonrunnercounter/RunnerCounter.java:239-244 | for every state with key coverage, a runner still listed at a mat who, after an auto-reset without a clear, moves to another mat succeeds and leaves the zeroed mat at {0, -1}, outside the occupancy bound |
| ClearCache.ResetThenMoveExample | marathon-runner-counter-processor/src/main/java/com/esri/geoevent/processor/marathonrunnercounter/RunnerCounter.java:90-97 | E1 at A is within the occupancy bound; after an auto-reset and a move of E1 to B, A is at {0, -1} and the bound no longer holds |
| Reporting.ReportTick | marathon-runner-counter-processor/src/main/java/com/esri/geoevent/processor/marathonrunnercounter/RunnerCounter.java:131-170 | one tick sends exactly one record for every mat whose send does not fail, carrying that mat's id, crossed count and on-course count as they stand, and logs each failing mat exactly once; a failed send does not stop the records for the remaining mats |
| Traces.StepPreservesWellFormed | marathon-runner-counter-processor/src/main/java/com/esri/geoevent/processor/marathonrunnercounter/RunnerCounter.java:223-245 | observation, daily task and service start each keep the state well-formed, and none fails on a well-formed state |
| Traces.WellFormedRun | marathon-runner-counter-processor/src/main/java/com/esri/geoevent/processor/marathonrunnercounter/RunnerCounter.java:241 | along every run from a well-formed state, auto-resets included, no previous-mat lookup fails and the state stays well-formed |
| Traces.StepPreservesOccupancyBound | marathon-runner-counter-processor/src/main/java/com/esri/geoevent/processor/marathonrunnercounter/RunnerCounter.java:226-244 | every event except a zeroing auto-reset keeps the occupancy bound |
| Traces.OccupancyBoundedRun | marathon-runner-counter-processor/src/main/java/com/esri/geoevent/processor/marathonrunnercounter/RunnerCounter.java:234-242 | with no zeroing auto-reset in the run, runners on a mat ≤ its on-course count ≤ its crossed count stays true |
| Traces.BoundsFromEmpty | marathon-runner-counter-processor/src/main/java/com/esri/geoevent/processor/marathonrunnercounter/RunnerCounter.java:234-235 | from the empty state, with no zeroing auto-reset, every mat has runners on it ≤ on-course ≤ crossed and a non-negative on-course count |
| Traces.DisjointArrivalsFrom | marathon-runner-counter-processor/src/main/java/com/esri/geoevent/processor/marathonrunnercounter/RunnerCounter.java:226-236 | new runners arriving each at their own new mat: each of those mats ends at {1, 1}, existing mats are untouched, and no other mat appears |
| Traces.DisjointArrivals | marathon-runner-counter-processor/src/main/java/com/esri/geoevent/processor/marathonrunnercounter/RunnerCounter.java:227-235 | N runners observed once each at distinct mats, starting empty, leave exactly those N mats, each at {1, 1} |
| Traces.TwoRunnersScenario | marathon-runner-counter-processor/src/main/java/com/esri/geoevent/processor/marathonrunnercounter/RunnerCounter.java:216-248 | (E1, A), (E2, B), (E1, B) from empty leaves A at {1, 0} and B at {2, 2}, with both runners at B |
| Traces.RepeatScenario | marathon-runner-counter-processor/src/main/java/com/esri/geoevent/processor/marathonrunnercounter/RunnerCounter.java:239 | one runner observed at A three times leaves A at {3, 3} |
| Traces.TransitionScenario | marathon-runner-counter-processor/src/main/java/com/esri/geoevent/processor/marathonrunnercounter/RunnerCounter.java:238-244 | one runner moving A, B, C leaves A and B at {1, 0} and C at {1, 1} |
| Traces.ResetScenario | marathon-runner-counter-processor/src/main/java/com/esri/geoevent/processor/marathonrunnercounter/RunnerCounter.java:90-97 | (E1, A), an auto-reset without clear, then (E1, B) leaves A at {0, -1} and B at {1, 1} |
| Validation.Validate | marathon-runner-counter-processor/src/main/java/com/esri/geoevent/processor/marathonrunnercounter/RunnerCounter.java:261-268 | the processor's own check fails exactly when the report interval is zero or less, with the single invalid-interval message |
| Validation.ReportIntervalMillis | marathon-runner-counter-processor/src/main/java/com/esri/geoevent/processor/marathonrunnercounter/RunnerCounter.java:194 | the intended conversion gives exactly the milliseconds in the configured seconds, fits in a `long`, and is positive exactly when the seconds are |
| Validation.ValidIffPositiveSeconds | marathon-runner-counter-processor/src/main/java/com/esri/geoevent/processor/marathonrunnercounter/RunnerCounter.java:194 | with the intended conversion a configuration validates exactly when its seconds are positive |
| Validation.ReportIntervalWraps | marathon-runner-counter-processor/src/main/java/com/esri/geoevent/processor/marathonrunnercounter/RunnerCounter.java:194 | as written, 2147484 seconds turns into a negative interval and fails validation, and 4294968 seconds turns into 704 ms |
| Validation.AsWrittenAgreesWhenSmall | marathon-runner-counter-processor/src/main/java/com/esri/geoevent/processor/marathonrunnercounter/RunnerCounter.java:194 | as-written and intended conversions agree for every interval up to 2147483 seconds either way |

## Left out

- Threads and scheduling (`Thread.sleep`, the `isRunning` flag, `Timer.scheduleAtFixedRate`, starting and stopping the report thread and the timer). This is concurrency plumbing. Each operation is modelled as one atomic step. The source reads the previous mat before it takes the lock, and it runs the auto-reset loop without the lock. The model does not reproduce the races those allow.
- Unsynchronised interleavings. The `Traces` lemmas cover serial runs of atomic steps only. The source's lock does not cover the previous-mat read at `RunnerCounter.java:219`, the auto-reset loop at `RunnerCounter.java:90-97`, or the report loop at `RunnerCounter.java:131-144`. Two consequences the model does not capture: (1) E1 is at A; `process(E1, B)` reads "A", a clear then runs, and the lookup at `RunnerCounter.java:241` returns null, so `RunnerCounter.java:242` throws, which `Traces.WellFormedRun` rules out for serial runs; (2) two concurrent observations of one track can both read the same previous mat and decrement it twice.
- Reporting.ReportTick: a send failure is the only failure modelled, because the source catches only `MessagingException` (`RunnerCounter.java:139`). If a concurrent clear removes a mat between the key iteration and the lookup at `RunnerCounter.java:133`, the null counters throw out of `run()` and end the report thread for good. That is a race, so it is outside the atomic model.
- Validation.Validate: models only the processor's own interval check. The base-class check `super.validate()` at `RunnerCounter.java:259` can also fail, and it is not part of this model.
- Restarting the service starts one more report thread each time, even when one is already running. This is thread plumbing, so it is not modelled.
- Parsing the reset time and computing when the task first fires (`Calendar`, `Date`), because both depend on the wall clock and the time zone.
- Property loading through `Converter` and `getProperty`, because that library is not part of this model. Only the seconds-to-milliseconds product is modelled (`Validation`).
- Event creation, field extraction, sending, producers and destinations. These are framework I/O. A failing send is a parameter of `Reporting.ReportTick`. The record's timestamp (`new Date()`) is left out because it is a clock read. The record is also not sent when the event creator or producer is missing, and that is not modelled.
- A null track id or mat value. The source's concurrent maps reject nulls by throwing. Ids are plain strings in the model.
- The 64-bit `Long` wrap-around of the two counters. Reaching it takes 2^63 observations, so the counters are unbounded `int`s.
- `RunnerCounterDefinition.java`, `RunnerCounterEvent.java` and `RunnerCounterService.java` are not part of this model. They hold property defaults, an unused data holder, and factory glue, with no counting logic.

## Findings

| source | as written | input that shows it | evidently intended | confidence | as-written member | corrected member |
|---|---|---|---|---|---|---|
| marathon-runner-counter-processor/src/main/java/com/esri/geoevent/processor/marathonrunnercounter/RunnerCounter.java:194 | the configured seconds, converted to an `int`, are multiplied by the `int` literal 1000 in 32-bit arithmetic before being stored in the `long` field | `reportInterval` = 2147484 s gives -2147483296 ms, which validation rejects; 4294968 s gives 704 ms | the product taken in `long` arithmetic, equal to seconds × 1000 | medium, not executed; assumes `Converter.convertToInteger` returns a Java `int`, as its name says | Validation.ReportIntervalWraps | Validation.ReportIntervalMillis |

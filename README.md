# MyPerf4J time-sliced scheduling and recorder double buffer, in Dafny

This project models the two small state machines at the core of the MyPerf4J
profiling agent. Both are driven by wall-clock polls.

- **The light-weight scheduler** (`LightWeightScheduler`). Its configured slice
  size is clamped to `[MIN_TIME_SLICE, MAX_TIME_SLICE]`. It keeps the end of
  the current slice in `nextTimeSliceEndTime`, where 0 means "not armed yet".
  The first poll arms it, polls inside the slice do nothing, and the first poll
  at or past the boundary re-arms it and runs every job in list order with
  `(now - slice, slice)`. A job that throws an `Exception` is caught, and the
  jobs after it still run. A throwable that `runTask` does not catch (an
  `Error` from `run`, or the job's `toString()` or `name()` throwing while
  `runTask` logs) ends the firing there, and the executor then suppresses
  every later poll.
- **The recorder maintainer** (`RecorderMaintainer`). It keeps two maps from
  API name to recorder: the active `recorderMap` and the standby
  `backupRecorderMap`. A rotation is gated like the scheduler. It stamps the
  active recorders whose window was never set, resets and re-stamps every
  standby recorder for the next slice, swaps the two maps and raises
  `backupRecorderReady`. The background pump does nothing until that flag is
  up. It then computes one statistics entry per standby recorder and passes
  them to the sink under the last recorder's window, or skips the sink if the
  map is empty or a computation throws. Either way it clears the flag.
  `getRecorder(api)` looks only in the active map.

Files:

- `timeslice.dfy` (module `TimeSlice`) holds the slice arithmetic that both
  classes share: the clamp, the boundary `(now / slice) * slice + slice`, the
  gate step of one poll, and the run of the gate over a sequence of polls.
- `scheduler.dfy` (module `Scheduling`) holds the scheduler class, its
  invocation log and two five-poll traces.
- `recorders.dfy` (module `Recording`) holds the recorder class, the maps as
  sequences of entries, the maintainer class with its rotation, pump, lookup
  and registration, and scenarios built on them.

Modelling choices:

- Times are non-negative integers (`now >= 0`). For those values Dafny's `/`
  agrees with Java's truncating division. The slice size is positive, and the
  clamp bounds satisfy `0 < MIN <= MAX`.
- A `HashMap` is a sequence of `Entry(api, recorder)`. Its unspecified
  iteration order becomes the sequence order, so the pump's "last recorder" is
  the last entry.
- The maintainer's invariant `Valid()` has four parts:
  - keys are distinct within each map;
  - both maps have the same key set;
  - every recorder object is bound once, and never in both maps;
  - each entry's key is its recorder's own API.

  Registration keeps this invariant because it creates two separate recorders
  for each API.
- A job is a name and the way each of its calls ends: `Completed`, `Failed`
  (an `Exception` that `runTask` catches) or `Escaped` (a throwable that
  leaves `runTask`). Each call is appended to the scheduler's `log` with its
  arguments and outcome. The scheduler's `cancelled` flag stands for the
  executor's suppression of a periodic task whose run threw.
- The sink is the list `processed` of batches it has received. Statistics
  computation is a parameter `failing`: the set of APIs whose computation
  throws.
- Nothing in the rotation can throw in this model. So the `finally` that raises
  `backupRecorderReady` has the same effect as normal completion.

Two details of the code:

- The pump tags the batch with the window of the *last* recorder in the
  standby map, not a window common to all. `SharedWindowTagsBatch` shows that
  the two agree whenever the standby recorders share a window. The map the
  pump reads after a rotation is the previously active map. `RoundRobin`'s
  contract shows that it shares a window in two cases: when every recorder in
  it already had the same stamped window, and when none of its recorders had
  been stamped, so the rotation gives them all `[now - slice, now)`. A map
  that mixes stamped and unstamped recorders can give the batch a window that
  some of its entries do not have.
- The first poll arms the boundary and then still runs the `>` check, which
  never lets it fire. The model keeps both steps.

## Model

| member | source | states |
|---|---|---|
| TimeSlice.FitTimeSlice | MyPerf4J-Core/src/main/java/cn/myperf4j/core/LightWeightScheduler.java:61-68 | the result lies in `[MIN, MAX]`, equals the input when the input is in range, and is the point of the range nearest the input |
| TimeSlice.FitTimeSliceIdempotent | MyPerf4J-Core/src/main/java/cn/myperf4j/core/LightWeightScheduler.java:61-68 | clamping a clamped slice size returns it unchanged |
| TimeSlice.NextBoundary | MyPerf4J-Core/src/main/java/cn/myperf4j/core/LightWeightScheduler.java:83 | the boundary is a multiple of the slice, strictly after `now` and at most `now + slice` |
| TimeSlice.BoundaryIsLeastMultipleAbove | MyPerf4J-Core/src/main/java/cn/myperf4j/core/LightWeightScheduler.java:83 | no multiple of the slice after `now` is smaller than the boundary |
| TimeSlice.BoundaryMonotone | MyPerf4J-Core/src/main/java/cn/myperf4j/core/LightWeightScheduler.java:83 | the boundary never decreases as `now` grows |
| TimeSlice.PastBoundaryIsLaterSlice | MyPerf4J-Core/src/main/java/cn/myperf4j/core/LightWeightScheduler.java:80-83 | any time at or past the boundary of `now` lies in a later slice than `now` |
| TimeSlice.Step | MyPerf4J-Core/src/main/java/cn/myperf4j/core/LightWeightScheduler.java:74-85 | a poll fires exactly when the boundary is armed and `now` has reached it; the first poll arms the boundary, a poll that does not fire leaves an armed boundary unchanged, and every poll leaves the boundary after `now` and a multiple of the slice |
| TimeSlice.RepeatedTickIsQuiet | MyPerf4J-Core/src/main/java/cn/myperf4j/core/LightWeightScheduler.java:80-83 | a second poll at the same instant never fires |
| TimeSlice.Fires | MyPerf4J-Core/src/main/java/cn/myperf4j/core/LightWeightScheduler.java:74-85 | over a sequence of polls, the gate fires only at poll instants and at most once per poll |
| TimeSlice.FiresOncePerSlice | MyPerf4J-Core/src/main/java/cn/myperf4j/core/LightWeightScheduler.java:74-85 | however often and in whatever order the gate is polled, it fires only at or after the armed boundary, and successive firings fall in strictly increasing slices (at most once per slice) |
| TimeSlice.FivePollTraceFires | MyPerf4J-Core/src/main/java/cn/myperf4j/core/LightWeightScheduler.java:74-85 | with slice 1000 and polls at 0, 500, 1000, 1500, 2000, the gate fires at 1000 and 2000 only |
| Scheduling.Invocations | MyPerf4J-Core/src/main/java/cn/myperf4j/core/LightWeightScheduler.java:90-106 | one firing invokes the jobs in list order, each at most once and all with the same `(lastTimeSliceStartTime, millTimeSlice)`, recording each job's own outcome; a job that throws an `Exception` never keeps a later one from running; every job runs unless one before it escapes, and an escaping job is the last one invoked |
| Scheduling.InvocationsRunAll | MyPerf4J-Core/src/main/java/cn/myperf4j/core/LightWeightScheduler.java:90-95 | when no job escapes `runTask`, a firing invokes every job |
| Scheduling.InvocationsHaltAtFirstEscape | MyPerf4J-Core/src/main/java/cn/myperf4j/core/LightWeightScheduler.java:92-94 | when job `k` is the first to escape, a firing invokes exactly the jobs `0..k` |
| Scheduling.LightWeightScheduler.DispatchScheduleTask | MyPerf4J-Core/src/main/java/cn/myperf4j/core/LightWeightScheduler.java:56-59 | a new scheduler keeps the job list and the clamped slice size, and starts unarmed with no invocations |
| Scheduling.LightWeightScheduler.Tick | MyPerf4J-Core/src/main/java/cn/myperf4j/core/LightWeightScheduler.java:71-86 | the new boundary is the gate step's, and the log grows by one firing's invocations with `(now - slice, slice)` exactly when the step fires, by nothing otherwise; a firing in which a job escapes cancels the scheduler, and a cancelled scheduler's polls change nothing |
| Scheduling.LightWeightScheduler.RunAllTasks | MyPerf4J-Core/src/main/java/cn/myperf4j/core/LightWeightScheduler.java:90-95 | the loop appends one firing's invocations, in list order, and reports an escape exactly when some job escapes |
| Scheduling.LightWeightScheduler.RunTask | MyPerf4J-Core/src/main/java/cn/myperf4j/core/LightWeightScheduler.java:97-106 | one job is invoked and its outcome recorded; a caught `Exception` is only recorded, and an escaping throwable is returned to the loop |
| Scheduling.FivePollTrace | MyPerf4J-Core/src/main/java/cn/myperf4j/core/LightWeightScheduler.java:71-95 | with a job that throws an `Exception` ahead of a healthy one, slice 1000 and polls at 0, 500, 1000, 1500, 2000, both jobs run at 1000 with argument 0 and at 2000 with argument 1000, and nothing else runs |
| Scheduling.EscapingJobTrace | MyPerf4J-Core/src/main/java/cn/myperf4j/core/LightWeightScheduler.java:71-106 | with an escaping job ahead of a healthy one and the same polls, only the escaping job runs, once, at 1000; the healthy job never runs and nothing runs at 2000 |
| Recording.Recorder.constructor | src/main/java/cn/perf4j/RecorderMaintainer.java:211-216 | a new recorder belongs to its API, has count 0 and the unset window `(0, 0)` |
| Recording.Recorder.ResetRecord | src/main/java/cn/perf4j/RecorderMaintainer.java:84 | resetting sets the count to 0 |
| Recording.StampIfUnstamped | src/main/java/cn/perf4j/RecorderMaintainer.java:74-80 | an active recorder with `startTime <= 0` or `stopTime <= 0` gets the window `[now - slice, now)`; any other keeps its window; no count changes |
| Recording.StampUnstamped | src/main/java/cn/perf4j/RecorderMaintainer.java:74-80 | the first rotation loop applies that stamping to every recorder of the active map |
| Recording.ResetAndStamp | src/main/java/cn/perf4j/RecorderMaintainer.java:82-87 | the second rotation loop leaves every standby recorder with count 0 and window `[now, now + slice)` |
| Recording.IndexOf | src/main/java/cn/perf4j/RecorderMaintainer.java:201-202 | the index found holds the key, and -1 means that no entry holds it |
| Recording.Put | src/main/java/cn/perf4j/RecorderMaintainer.java:201-202 | the key ends bound to the new recorder, and every entry with another key stays where it was |
| Recording.PutBindsOnlyKey | src/main/java/cn/perf4j/RecorderMaintainer.java:201-202 | after a put the key is bound to the new recorder, every other binding is kept, nothing else is added, and the key set grows by exactly that key |
| Recording.PutKeepsWellFormed | src/main/java/cn/perf4j/RecorderMaintainer.java:201-202 | putting a new recorder made for the key keeps the keys distinct and each recorder bound once |
| Recording.PutKeepsDisjoint | src/main/java/cn/perf4j/RecorderMaintainer.java:201-202 | putting two different recorders, each foreign to the other map, into two maps that share no recorder keeps them sharing none |
| Recording.RecorderMaintainer.Valid | src/main/java/cn/perf4j/RecorderMaintainer.java:50-52 | the registration invariant: distinct keys in each map, the same key set in both, every recorder bound once and in one map only, each under its own API |
| Recording.RecorderMaintainer.constructor | src/main/java/cn/perf4j/RecorderMaintainer.java:45-52 | the maintainer starts unarmed, with the flag down, both maps empty and nothing sent to the sink |
| Recording.RecorderMaintainer.Register | src/main/java/cn/perf4j/RecorderMaintainer.java:200-202 | registration puts a separate new recorder for the API into each map and keeps the invariant: equal key sets, with no recorder shared |
| Recording.RecorderMaintainer.GetRecorder | src/main/java/cn/perf4j/RecorderMaintainer.java:218-220 | the lookup returns a recorder exactly when the active map has the key; the recorder returned is the one bound to it there and is never a standby recorder |
| Recording.RecorderMaintainer.RoundRobin | src/main/java/cn/perf4j/RecorderMaintainer.java:60-98 | the rotation is gated exactly like the scheduler's step; a poll that does not fire changes only the boundary; one that fires leaves the old standby map active with every recorder reset to `[now, now + slice)`, and the old active map on standby with only its unstamped recorders stamped `[now - slice, now)`, with the flag raised; the invariant (equal key sets, distinct recorders) is kept; the new standby map keeps a stamped window shared by the old active map, and takes `[now - slice, now)` when none of its recorders was stamped |
| Recording.CalPerfStats | src/main/java/cn/perf4j/RecorderMaintainer.java:113 | the statistics of one recorder keep its API, its count and its window |
| Recording.StatsOf | src/main/java/cn/perf4j/RecorderMaintainer.java:109-114 | exactly one statistics entry per standby entry, in iteration order, each computed from that entry's recorder |
| Recording.RecorderMaintainer.Pump | src/main/java/cn/perf4j/RecorderMaintainer.java:103-126 | with the flag down the pump changes nothing; with it up it calls the sink once exactly when the standby map is non-empty and no computation throws, passing one entry per standby recorder and the last recorder's window; the flag always ends down |
| Recording.SharedWindowTagsBatch | src/main/java/cn/perf4j/RecorderMaintainer.java:116-118 | when the standby recorders share one window, the last recorder's window passed to the sink is the window of every entry of the batch |
| Recording.BootSlice | src/main/java/cn/perf4j/RecorderMaintainer.java:61-69 | after one registration and an arming poll at 0, recording `n1` times leaves the active recorder with count `n1` and its window unstamped |
| Recording.RotateSingle | src/main/java/cn/perf4j/RecorderMaintainer.java:61-97 | with one registered API, a rotation that fires swaps the two recorders' roles, stamps the formerly active recorder only if it had no window, keeps its count, resets the other to `[now, now + slice)` and raises the flag |
| Recording.PumpSingle | src/main/java/cn/perf4j/RecorderMaintainer.java:104-124 | with one standby recorder and the flag up, a pump delivers that recorder's statistics under its own window and lowers the flag, leaving the maps and the boundary as they were |
| Recording.CloseSlice | src/main/java/cn/perf4j/RecorderMaintainer.java:61-125 | a fired rotation followed by one pump, for a single API, delivers the formerly active recorder's statistics under its window and leaves the other recorder active for `[now, now + slice)` |
| Recording.RotationConservation | src/main/java/cn/perf4j/RecorderMaintainer.java:61-125 | over two slices of 1000 ms the sink receives exactly `n1` then `n2` observations, under the adjacent windows `[0, 1000)` and `[1000, 2000)` |
| Recording.RepeatedLookup | src/main/java/cn/perf4j/RecorderMaintainer.java:218-220 | two lookups of the same API with no rotation between them return the same recorder, or both none |
| Recording.TwoRotationsWithoutPump | src/main/java/cn/perf4j/RecorderMaintainer.java:82-91 | two rotations with no pump between them restore both original maps, leave every recorder of the first active map with count 0 and send nothing to the sink, so that slice's observations are never delivered |

## Left out

- Executors, threads and visibility are not modelled. This covers the
  `ScheduledThreadPoolExecutor` instances, their periods and discard policies,
  `ExecutorManager` registration and `volatile`. Polls are explicit sequential
  calls that take `now` as an argument instead of reading
  `System.currentTimeMillis()`.
- The race between a rotation and a pump that has not yet read the standby map
  is not prevented or fixed. `TwoRotationsWithoutPump` only records what two
  rotations without a pump do.
- Classpath scanning and annotation processing (`initRecorderMap`,
  `getClasses`, `processAnnotations`) are file-system and reflection I/O. They
  are replaced by `Register(api)`, which performs the two `put` calls that the
  scan ends with.
- Recorder internals (`AccurateRecorder` and `RoughRecorder`) are external.
  This covers the choice between them (`accurateMode`) and the statistics
  calculator `PerfStatsCalculator.calPerfStats`. A recorder keeps only a count
  and its window, and a new recorder's window is assumed to be `(0, 0)`.
  `CalPerfStats` keeps only the API, the count and the window.
- The sink `AsyncPerfStatsProcessor.process` is external. The model records
  each call in `processed`. An exception thrown by the sink itself is not
  modelled.
- Scheduling.LightWeightScheduler.Tick: the executor's suppression of a
  periodic task whose run threw is modelled by the `cancelled` flag. The
  model does not say what else the escaping throwable does in the executor.
- Recording.RecorderMaintainer.Pump: only an `Exception` from the statistics
  computation is modelled, by the `failing` set. An `Error`, which the pump's
  `catch (Exception e)` does not catch, would end the run after the `finally`
  clears the flag, and the executor would suppress every later pump. That
  path is not modelled. The same holds for an `Error` in the rotation.
- `needRunning` is not modelled. When it is off, neither the rotation nor the
  pump is ever scheduled, and the maintainer only registers and looks up
  recorders. The model always runs both.
- `LightWeightScheduler` wraps the caller's job list in
  `Collections.unmodifiableList`, a view that would show later changes the
  caller makes to its own list. `DispatchScheduleTask` keeps the list as a
  value, so such changes are not modelled.
- Configuration reading (`MyProperties`) is not modelled. The rotation slice
  `MILL_TIME_SLICE`, with its 60 s default and 10 s minimum, is a constructor
  argument required to be positive. `MIN_TIME_SLICE` and `MAX_TIME_SLICE` are
  parameters.
- Recording.RecorderMaintainer.RoundRobin: the flag is lowered at the start of
  a rotation and raised at the end. No step of the sequential model can
  observe the lowered flag, and no modelled step can throw. So the contract
  states only the final raised flag.
- Java `long` overflow is not modelled. Times and slice sizes are unbounded
  integers.
- Logging and elapsed-time debug output are not modelled.
- `getRecorderMap()` is not modelled. It is an unmodifiable view of the active
  map and adds no behaviour to it.

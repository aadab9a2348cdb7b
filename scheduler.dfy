/**
 * The light-weight scheduler: an ordered, fixed list of jobs and a polling
 * tick that fires all of them, once, when the wall clock crosses the armed
 * slice boundary. The executor that polls every 10 ms is replaced by explicit
 * calls to Tick(now); what a job does is replaced by an outcome recorded in
 * the scheduler's invocation log.
 */
module Scheduling {
  import opened TimeSlice

  /**
   * How one call of a job ends: normally, with an Exception that runTask
   * catches, or with a throwable that escapes runTask (an Error from `run`, or
   * the job's `toString()` or `name()` throwing while runTask logs).
   */
  datatype Outcome = Completed | Failed | Escaped

  /** A scheduled job: its name and how each of its calls ends. */
  datatype Task = Task(name: string, ends: Outcome)

  /** One call `run(lastTimeSliceStartTime, millTimeSlice)` of a job and how it ended. */
  datatype Invocation = Invocation(task: string, lastTimeSliceStartTime: int, millTimeSlice: int, outcome: Outcome)

  /** Some job of the list ends with a throwable that runTask does not catch. */
  predicate AnyEscapes(tasks: seq<Task>)
  {
    exists i :: 0 <= i < |tasks| && tasks[i].ends == Escaped
  }

  /** The log of a firing stops short once a call has escaped. */
  predicate Halted(log: seq<Invocation>)
  {
    |log| > 0 && log[|log| - 1].outcome == Escaped
  }

  /**
   * The invocations of one firing, in list order, all with the same
   * arguments. A job that throws an Exception does not keep the later ones
   * from running; the first job whose throwable escapes runTask is the last
   * one invoked.
   */
  function Invocations(tasks: seq<Task>, lastTimeSliceStartTime: int, millTimeSlice: int): (log: seq<Invocation>)
    ensures |log| <= |tasks|
    ensures forall i :: 0 <= i < |log| ==>
              log[i] == Invocation(tasks[i].name, lastTimeSliceStartTime, millTimeSlice, tasks[i].ends)
    ensures forall i :: 0 <= i < |log| - 1 ==> tasks[i].ends != Escaped
    ensures |log| < |tasks| ==> Halted(log)
  {
    if tasks == [] then []
    else
      var last := tasks[|tasks| - 1];
      var log := Invocations(tasks[..|tasks| - 1], lastTimeSliceStartTime, millTimeSlice);
      if Halted(log) then log
      else log + [Invocation(last.name, lastTimeSliceStartTime, millTimeSlice, last.ends)]
  }

  /** Without an escaping job, a firing invokes every job exactly once. */
  lemma InvocationsRunAll(tasks: seq<Task>, lastTimeSliceStartTime: int, millTimeSlice: int)
    requires !AnyEscapes(tasks)
    ensures |Invocations(tasks, lastTimeSliceStartTime, millTimeSlice)| == |tasks|
  {
  }

  /**
   * A firing ends escaped exactly when some job escapes, and then the first
   * escaping job is the last one invoked.
   */
  lemma {:induction false} InvocationsHaltAtFirstEscape(tasks: seq<Task>, lastTimeSliceStartTime: int, millTimeSlice: int, k: nat)
    requires k < |tasks| && tasks[k].ends == Escaped
    requires forall i :: 0 <= i < k ==> tasks[i].ends != Escaped
    ensures Invocations(tasks, lastTimeSliceStartTime, millTimeSlice) == Invocations(tasks[..k + 1], lastTimeSliceStartTime, millTimeSlice)
    ensures |Invocations(tasks, lastTimeSliceStartTime, millTimeSlice)| == k + 1
  {
    var log := Invocations(tasks, lastTimeSliceStartTime, millTimeSlice);
    var pre := Invocations(tasks[..k + 1], lastTimeSliceStartTime, millTimeSlice);
    assert |log| == k + 1 by {
      if |log| < k + 1 {
        assert false;
      } else if |log| > k + 1 {
        assert false;
      }
    }
    assert |pre| == k + 1 by {
      if |pre| < k + 1 {
        assert false;
      }
    }
    forall i | 0 <= i < |log|
      ensures log[i] == pre[i]
    {
      assert tasks[..k + 1][i] == tasks[i];
    }
  }

  class LightWeightScheduler {
    const tasks: seq<Task>
    const millTimeSlice: int
    /** End of the current slice; 0 until the first tick arms it. */
    var nextTimeSliceEndTime: int
    /** Every job invocation so far, oldest first. */
    var log: seq<Invocation>
    /**
     * Set once a throwable has escaped a tick: the executor then suppresses
     * every later run of the periodic tick.
     */
    var cancelled: bool

    ghost predicate Valid()
      reads this
    {
      millTimeSlice > 0 && nextTimeSliceEndTime >= 0 && nextTimeSliceEndTime % millTimeSlice == 0
    }

    /** dispatchScheduleTask: clamps the slice size and starts an unarmed scheduler. */
    constructor DispatchScheduleTask(tasks: seq<Task>, millTimeSlice: int, minTimeSlice: int, maxTimeSlice: int)
      requires 0 < minTimeSlice <= maxTimeSlice
      ensures Valid()
      ensures this.tasks == tasks
      ensures this.millTimeSlice == FitTimeSlice(millTimeSlice, minTimeSlice, maxTimeSlice)
      ensures nextTimeSliceEndTime == 0 && log == [] && !cancelled
    {
      this.tasks := tasks;
      this.millTimeSlice := FitTimeSlice(millTimeSlice, minTimeSlice, maxTimeSlice);
      nextTimeSliceEndTime := 0;
      log := [];
      cancelled := false;
    }

    /**
     * One poll at wall-clock time `now`: the gate decides the new boundary and
     * whether the slice `[now - millTimeSlice, now)` is dispatched to the jobs.
     * A firing in which a job's throwable escapes cancels the scheduler; a
     * cancelled scheduler is never polled again, so its ticks change nothing.
     */
    method Tick(now: int)
      requires Valid() && now >= 0
      modifies this
      ensures Valid()
      ensures old(cancelled) ==>
                cancelled && nextTimeSliceEndTime == old(nextTimeSliceEndTime) && log == old(log)
      ensures !old(cancelled) ==>
                var t := Step(old(nextTimeSliceEndTime), now, millTimeSlice);
                nextTimeSliceEndTime == t.nextEnd &&
                log == old(log) + (if t.fire then Invocations(tasks, now - millTimeSlice, millTimeSlice) else []) &&
                cancelled == (t.fire && AnyEscapes(tasks))
    {
      if cancelled {
        return;
      }
      if nextTimeSliceEndTime == 0 {
        nextTimeSliceEndTime := NextBoundary(now, millTimeSlice);
      }
      if nextTimeSliceEndTime > now {
        return;
      }
      nextTimeSliceEndTime := NextBoundary(now, millTimeSlice);
      var escaped := RunAllTasks(now);
      cancelled := escaped;
    }

    /**
     * Runs the jobs one after another, in list order, until one's throwable
     * escapes; `escaped` reports whether one did.
     */
    method RunAllTasks(now: int) returns (escaped: bool)
      modifies this`log
      ensures log == old(log) + Invocations(tasks, now - millTimeSlice, millTimeSlice)
      ensures escaped <==> AnyEscapes(tasks)
    {
      var lastTimeSliceStartTime := now - millTimeSlice;
      var i := 0;
      escaped := false;
      while i < |tasks| && !escaped
        invariant 0 <= i <= |tasks|
        invariant forall k :: 0 <= k < i - 1 ==> tasks[k].ends != Escaped
        invariant escaped <==> i > 0 && tasks[i - 1].ends == Escaped
        invariant log == old(log) + Invocations(tasks[..i], lastTimeSliceStartTime, millTimeSlice)
      {
        assert tasks[..i + 1][..i] == tasks[..i];
        var outcome := RunTask(tasks[i], lastTimeSliceStartTime);
        escaped := outcome == Escaped;
        i := i + 1;
      }
      if escaped {
        InvocationsHaltAtFirstEscape(tasks, lastTimeSliceStartTime, millTimeSlice, i - 1);
      } else {
        assert tasks[..i] == tasks;
      }
    }

    /**
     * Runs one job. An Exception is caught and only recorded; a throwable
     * that escapes is recorded and reported as the outcome.
     */
    method RunTask(task: Task, lastTimeSliceStartTime: int) returns (outcome: Outcome)
      modifies this`log
      ensures outcome == task.ends
      ensures log == old(log) + [Invocation(task.name, lastTimeSliceStartTime, millTimeSlice, outcome)]
    {
      outcome := task.ends;
      log := log + [Invocation(task.name, lastTimeSliceStartTime, millTimeSlice, outcome)];
    }
  }

  /**
   * A failing job ahead of a healthy one, slice 1000, polls at 0, 500, 1000,
   * 1500 and 2000. Both jobs fire at 1000 (for the slice starting at 0) and at
   * 2000 (for the slice starting at 1000), and the Exceptions of the first
   * never stop the second.
   */
  method FivePollTrace() returns (log: seq<Invocation>)
    ensures log == [Invocation("a", 0, 1000, Failed), Invocation("b", 0, 1000, Completed),
                    Invocation("a", 1000, 1000, Failed), Invocation("b", 1000, 1000, Completed)]
  {
    var s := new LightWeightScheduler.DispatchScheduleTask([Task("a", Failed), Task("b", Completed)], 1000, 1000, 60000);
    s.Tick(0);
    s.Tick(500);
    s.Tick(1000);
    s.Tick(1500);
    s.Tick(2000);
    log := s.log;
  }

  /**
   * The same polls with a job whose throwable escapes ahead of a healthy one:
   * the first firing invokes only the escaping job, and the scheduler never
   * fires again.
   */
  method EscapingJobTrace() returns (log: seq<Invocation>)
    ensures log == [Invocation("a", 0, 1000, Escaped)]
  {
    var s := new LightWeightScheduler.DispatchScheduleTask([Task("a", Escaped), Task("b", Completed)], 1000, 1000, 60000);
    assert s.tasks[0].ends == Escaped;
    s.Tick(0);
    s.Tick(500);
    s.Tick(1000);
    s.Tick(1500);
    s.Tick(2000);
    log := s.log;
  }
}

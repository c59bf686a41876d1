/**
 * The `dispatcher_task` loop of main.c, acting on a `Scheduler` in place.
 * One iteration is `Tick`; it is proved to change the scheduler exactly as
 * `Mlfq.Tick` changes the value of its state. The mutex, the real-time
 * delays and the FreeRTOS calls are not modelled; the state of a task's
 * execution unit stands for them.
 */
module Dispatcher {
  import opened Tasks
  import Mlfq
  import S = Scheduler
  import Progress

  /**
   * Step 3 of an iteration: when no task holds the CPU, the next task is
   * taken, its start time is recorded (non-real-time tasks only), it is
   * given an execution unit (first dispatch) or resumed, and STARTED is
   * printed. The result tells whether a task was dispatched (`just_started`).
   */
  method Select(s: S.Scheduler) returns (justStarted: bool)
    requires s.Valid()
    modifies s
    ensures s.Valid()
    ensures (s.Abs(), justStarted) == Mlfq.Select(old(s.Abs()))
  {
    justStarted := false;
    if s.currentTask == Mlfq.None {
      var next := s.GetNextTask();
      if next.Some? {
        var task := next.value;
        if task.priority != Mlfq.RT as u32 {
          task := task.(startTime := s.currentTime);
        }
        if task.unit == NoUnit {
          // create_freertos_task_for_scheduler, then the first-dispatch stamps
          task := task.(unit := Active, creationTime := s.currentTime, absWaitStart := s.currentTime);
        } else {
          // vTaskResume
          task := task.(unit := Active);
        }
        s.currentTask := Mlfq.Some(task);
        s.log := s.log + [Mlfq.Report(task, Mlfq.Started, s.currentTime)];
        justStarted := true;
      }
    }
  }

  /**
   * Steps 4 and 5 with a task on the CPU: RUNNING is printed for a real-time
   * task that was not dispatched in this iteration, the timeouts are checked
   * again, one unit of work is consumed and the clock advances; then the task
   * is disposed of.
   */
  method Execute(s: S.Scheduler, justStarted: bool)
    requires s.Valid() && s.currentTask.Some?
    modifies s
    ensures s.Valid()
    ensures s.Abs() == Mlfq.Execute(old(s.Abs()), justStarted)
  {
    ghost var s0 := s.Abs();
    var current := s.currentTask.value;
    if current.priority == Mlfq.RT as u32 && !justStarted {
      s.log := s.log + [Mlfq.Report(current, Mlfq.Running, s.currentTime)];
    }
    assert s.Abs() == Mlfq.Announce(s0, justStarted);
    s.CheckTimeouts();
    ghost var s1 := s.Abs();
    if current.remainingTime > 0 {
      current := current.(remainingTime := current.remainingTime - 1);
      s.currentTask := Mlfq.Some(current);
    }
    s.currentTime := Mlfq.NextTime(s.currentTime);
    ghost var u := s.Abs();
    assert u == s1.(current := Mlfq.Some(Mlfq.Consume(s0.current.value)), time := Mlfq.NextTime(s0.time));
    assert Mlfq.Execute(s0, justStarted) == Mlfq.Dispose(u);
    Dispose(s);
  }

  /**
   * Step 6: a task without remaining work completes (its unit and record are
   * released); an unfinished non-real-time task is demoted, suspended,
   * stamped and re-queued at its new level, and gives up the CPU; an
   * unfinished real-time task keeps it.
   */
  method Dispose(s: S.Scheduler)
    requires s.Valid() && s.currentTask.Some?
    modifies s
    ensures s.Valid()
    ensures s.Abs() == Mlfq.Dispose(old(s.Abs()))
  {
    var current := s.currentTask.value;
    if current.remainingTime == 0 {
      // vTaskDelete and task_destroy: the record is no longer reachable
      s.log := s.log + [Mlfq.Report(current, Mlfq.Completed, s.currentTime)];
      s.currentTask := Mlfq.None;
    } else if current.priority != Mlfq.RT as u32 {
      s.DemoteTask();
      current := s.currentTask.value;
      if current.unit != NoUnit {
        // vTaskSuspend
        current := current.(unit := Paused);
      }
      if current.priority < Mlfq.LEVELS as u32 {
        current := current.(absWaitStart := s.currentTime);
        s.queues := s.queues[current.priority := S.Enqueue(s.queues[current.priority], Mlfq.Some(current))];
      }
      s.log := s.log + [Mlfq.Report(current, Mlfq.Suspended, s.currentTime)];
      s.currentTask := Mlfq.None;
    }
  }

  /**
   * One iteration of the `dispatcher_task` loop: arrivals, timeouts,
   * selection, then execution or an idle clock step. The result is the stop
   * test: every queue and the ledger empty and no current task.
   */
  method Tick(s: S.Scheduler) returns (stop: bool)
    requires s.Valid()
    modifies s
    ensures s.Valid()
    ensures s.Abs() == Mlfq.Tick(old(s.Abs()))
    ensures stop <==> Mlfq.Finished(s.Abs())
  {
    ghost var s0 := s.Abs();
    s.CheckArrivals();
    s.CheckTimeouts();
    ghost var s1 := s.Abs();
    assert s1 == Mlfq.Timeouts(Mlfq.Arrivals(s0));
    var justStarted := Select(s);
    ghost var s2 := s.Abs();
    if s.currentTask.Some? {
      Execute(s, justStarted);
    } else {
      s.currentTime := Mlfq.NextTime(s.currentTime);
      assert s.Abs() == s2.(time := Mlfq.NextTime(s2.time));
    }
    stop := s.IsEmpty() && s.currentTask == Mlfq.None;
  }

  /**
   * `dispatcher_task`: the clock is reset and iterations run until the stop
   * test holds. The loop always gets there: each iteration that does not
   * stop leaves less work, or the same work and the pending tasks closer to
   * their arrival. The ghost result is the number of iterations, and the
   * loop leaves at the first iteration whose stop test holds.
   */
  method DispatcherTask(s: S.Scheduler) returns (ghost n: nat)
    requires s.Valid()
    modifies s
    ensures s.Valid() && n >= 1
    ensures s.Abs() == Progress.Ticks(old(s.Abs()).(time := 0), n)
    ensures Mlfq.Finished(s.Abs())
    ensures forall i: nat | 1 <= i < n :: !Mlfq.Finished(Progress.Ticks(old(s.Abs()).(time := 0), i))
  {
    s.currentTime := 0;
    ghost var start := s.Abs();
    n := 0;
    var stop := false;
    while !stop
      invariant s.Valid()
      invariant s.Abs() == Progress.Ticks(start, n)
      invariant stop ==> n >= 1 && Mlfq.Finished(s.Abs())
      invariant !stop && n >= 1 ==> !Mlfq.Finished(s.Abs())
      invariant Progress.RanUntil(start, n)
      decreases if stop then 0 else 1, Progress.Work(s.Abs()), Progress.Delay(s.Abs().pending, s.Abs().time)
    {
      Progress.RanOneMore(start, n);
      Progress.TickProgress(s.Abs());
      stop := Tick(s);
      n := n + 1;
    }
  }
}

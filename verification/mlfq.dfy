/**
 * A value model of the scheduler state (`Scheduler_t`) and of the routines of
 * scheduler.c, together with one iteration of the `dispatcher_task` loop of
 * main.c. Tasks are `TaskRec` values here; the classes of the Scheduler and
 * Dispatcher modules are proved to act on their heap exactly as these
 * functions act on values.
 */
module Mlfq {
  import opened Tasks

  /** MAX_PRIORITY_LEVELS: one ready queue per level. */
  const LEVELS: nat := 20
  /** PRIORITY_RT: the real-time level. */
  const RT: nat := 0
  /** The wait, in ticks, after which `scheduler_check_timeouts` evicts a task. */
  const STARVATION: nat := 20

  datatype Option<T> = None | Some(value: T)

  datatype EventKind = Started | Running | Completed | Suspended | Timeout

  /** One printed line: clock, event, task id, priority shown and remaining time shown. */
  datatype Event = Event(time: u32, kind: EventKind, id: u32, priority: u32, shown: u32)

  /**
   * `Scheduler_t` without its mutex: the ready queues (index = level), the
   * pending ledger, the virtual clock, the dispatched task, the id counter, and
   * the lines printed so far.
   */
  datatype State = State(
    queues: seq<seq<TaskRec>>,
    pending: seq<TaskRec>,
    time: u32,
    current: Option<TaskRec>,
    counter: u32,
    log: seq<Event>)

  predicate WellFormed(s: State)
  {
    |s.queues| == LEVELS
  }

  /** `current_time++` on a `uint32_t`: the largest value wraps around to 0. */
  function NextTime(t: u32): (n: u32)
    ensures n == (t + 1) % U32_LIMIT
  {
    if t + 1 < U32_LIMIT then t + 1 else 0
  }

  /** `current_time - abs_wait_start` in `uint32_t` arithmetic: a negative difference wraps around. */
  function Elapsed(now: u32, since: u32): (e: u32)
    ensures e == (now - since) % U32_LIMIT
  {
    if since <= now then now - since else now - since + U32_LIMIT
  }

  /**
   * The line `print_task_info_with_old_priority` prints. The old priority it
   * is given is discarded, so the priority shown is always the task's current
   * one; the remaining time is shown as 0 for TIMEOUT and COMPLETED.
   */
  function Report(r: TaskRec, kind: EventKind, now: u32): Event
  {
    Event(now, kind, r.id, r.priority, if kind == Timeout || kind == Completed then 0 else r.remainingTime)
  }

  /** The lines printed for `rs`, in order. */
  function Reports(rs: seq<TaskRec>, kind: EventKind, now: u32): (es: seq<Event>)
    ensures |es| == |rs|
    ensures forall i | 0 <= i < |rs| :: es[i] == Report(rs[i], kind, now)
  {
    if rs == [] then [] else Reports(rs[..|rs| - 1], kind, now) + [Report(rs[|rs| - 1], kind, now)]
  }

  // ---------------------------------------------------------------------------
  // scheduler_init, scheduler_is_empty, scheduler_add_task, scheduler_add_pending_task

  /** `scheduler_is_empty`: every ready queue and the ledger are empty. */
  predicate IsEmpty(s: State)
  {
    (forall k | 0 <= k < |s.queues| :: s.queues[k] == []) && s.pending == []
  }

  /** The stop condition of the dispatcher loop. */
  predicate Finished(s: State)
  {
    IsEmpty(s) && s.current == None
  }

  /** `scheduler_init` */
  function Init(): (s: State)
    ensures WellFormed(s) && Finished(s)
    ensures s.time == 0 && s.counter == 0 && s.log == []
  {
    State(seq(LEVELS, _ => []), [], 0, None, 0, [])
  }

  /** `scheduler_add_task`: a task with a level in range joins the tail of that level's queue. */
  function AddTask(s: State, r: TaskRec): State
    requires WellFormed(s)
  {
    if r.priority < LEVELS then s.(queues := s.queues[r.priority := s.queues[r.priority] + [r]]) else s
  }

  /** `scheduler_add_pending_task`: the task joins the end of the ledger. */
  function AddPending(s: State, r: TaskRec): State
  {
    s.(pending := s.pending + [r])
  }

  // ---------------------------------------------------------------------------
  // scheduler_check_arrivals

  predicate Due(r: TaskRec, now: u32)
  {
    r.arrivalTime <= now
  }

  /** The time stamps a task receives when it is moved from the ledger to a ready queue. */
  function Admit(r: TaskRec, now: u32): TaskRec
  {
    r.(absWaitStart := now, creationTime := if r.creationTime == 0 then now else r.creationTime)
  }

  /** The ledger entries that have not arrived by `now`, in ledger order. */
  function Waiting(p: seq<TaskRec>, now: u32): seq<TaskRec>
  {
    if p == [] then []
    else Waiting(p[..|p| - 1], now) + (if Due(p[|p| - 1], now) then [] else [p[|p| - 1]])
  }

  /** The arrived ledger entries of level `k`, stamped, in ledger order. */
  function Admitted(p: seq<TaskRec>, now: u32, k: nat): seq<TaskRec>
  {
    if p == [] then []
    else
      var r := p[|p| - 1];
      Admitted(p[..|p| - 1], now, k) + (if Due(r, now) && r.priority == k then [Admit(r, now)] else [])
  }

  /** The arrived ledger entries whose level is out of range: they leave the ledger and enter no queue. */
  function Dropped(p: seq<TaskRec>, now: u32): seq<TaskRec>
  {
    if p == [] then []
    else
      var r := p[|p| - 1];
      Dropped(p[..|p| - 1], now) + (if Due(r, now) && r.priority >= LEVELS then [r] else [])
  }

  /** The bank after the arrived entries of `p` have joined the tails of their levels. */
  function Merged(qs: seq<seq<TaskRec>>, p: seq<TaskRec>, now: u32): (qs': seq<seq<TaskRec>>)
    ensures |qs'| == |qs|
    ensures forall k | 0 <= k < |qs| :: qs'[k] == qs[k] + Admitted(p, now, k)
  {
    seq(|qs|, k requires 0 <= k < |qs| => qs[k] + Admitted(p, now, k))
  }

  /** `scheduler_check_arrivals` */
  function Arrivals(s: State): (s': State)
    ensures |s'.queues| == |s.queues|
    ensures s'.time == s.time && s'.current == s.current && s'.log == s.log && s'.counter == s.counter
  {
    s.(pending := Waiting(s.pending, s.time), queues := Merged(s.queues, s.pending, s.time))
  }

  // ---------------------------------------------------------------------------
  // scheduler_check_timeouts

  predicate Starved(r: TaskRec, now: u32)
  {
    Elapsed(now, r.absWaitStart) >= STARVATION
  }

  /** The tasks of a queue that have waited less than the threshold, in queue order. */
  function Survivors(q: seq<TaskRec>, now: u32): seq<TaskRec>
  {
    if q == [] then []
    else Survivors(q[..|q| - 1], now) + (if Starved(q[|q| - 1], now) then [] else [q[|q| - 1]])
  }

  /** The tasks of a queue that have waited at least the threshold, in queue order. */
  function Evicted(q: seq<TaskRec>, now: u32): seq<TaskRec>
  {
    if q == [] then []
    else Evicted(q[..|q| - 1], now) + (if Starved(q[|q| - 1], now) then [q[|q| - 1]] else [])
  }

  /** The TIMEOUT lines of levels 1 .. n-1, level by level. */
  function SweepLog(qs: seq<seq<TaskRec>>, now: u32, n: nat): seq<Event>
    requires n <= |qs|
  {
    if n <= 1 then [] else SweepLog(qs, now, n - 1) + Reports(Evicted(qs[n - 1], now), Timeout, now)
  }

  /** The bank after every level but the real-time one has lost its starved tasks. */
  function Swept(qs: seq<seq<TaskRec>>, now: u32): (qs': seq<seq<TaskRec>>)
    ensures |qs'| == |qs|
    ensures forall k | 0 <= k < |qs| :: qs'[k] == if k == RT then qs[k] else Survivors(qs[k], now)
  {
    seq(|qs|, k requires 0 <= k < |qs| => if k == RT then qs[k] else Survivors(qs[k], now))
  }

  /** `scheduler_check_timeouts` */
  function Timeouts(s: State): (s': State)
    ensures |s'.queues| == |s.queues|
    ensures s'.pending == s.pending && s'.time == s.time && s'.current == s.current && s'.counter == s.counter
    ensures |s.queues| > RT ==> s'.queues[RT] == s.queues[RT]
  {
    s.(queues := Swept(s.queues, s.time), log := s.log + SweepLog(s.queues, s.time, |s.queues|))
  }

  // ---------------------------------------------------------------------------
  // scheduler_get_next_task, scheduler_demote_task

  /** The first non-empty level at or after `from`, or `|qs|` when there is none. */
  function FirstReady(qs: seq<seq<TaskRec>>, from: nat): (k: nat)
    requires from <= |qs|
    ensures from <= k <= |qs|
    ensures k < |qs| ==> qs[k] != []
    ensures forall j | from <= j < k :: qs[j] == []
    decreases |qs| - from
  {
    if from == |qs| then from
    else if qs[from] != [] then from
    else FirstReady(qs, from + 1)
  }

  /** The level `scheduler_get_next_task` takes from: the real-time level first, then 1, 2, ... */
  function ChosenLevel(s: State): nat
    requires WellFormed(s)
  {
    if s.queues[RT] != [] then RT else FirstReady(s.queues, RT + 1)
  }

  /** `scheduler_get_next_task`: the head of the chosen level, removed from it. */
  function NextTask(s: State): (res: (Option<TaskRec>, State))
    requires WellFormed(s)
    ensures WellFormed(res.1)
    ensures res.0 == None <==> forall k | 0 <= k < LEVELS :: s.queues[k] == []
    ensures res.0 == None ==> res.1 == s
    ensures res.0 != None ==> exists k | 0 <= k < LEVELS ::
              && s.queues[k] != []
              && (forall j | 0 <= j < k :: s.queues[j] == [])
              && res.0.value == s.queues[k][0]
              && res.1 == s.(queues := s.queues[k := s.queues[k][1..]])
  {
    var k := ChosenLevel(s);
    if k == LEVELS then (None, s)
    else (Some(s.queues[k][0]), s.(queues := s.queues[k := s.queues[k][1..]]))
  }

  /** `scheduler_demote_task`: one level down, never below the last level; the real-time level is kept. */
  function Demoted(p: u32): (q: u32)
    ensures p == RT <==> q == RT
    ensures p <= q <= p + 1
    ensures p < LEVELS ==> q < LEVELS
    ensures q == p ==> p == RT || p >= LEVELS - 1
  {
    if p == RT then p else if p < LEVELS - 1 then p + 1 else p
  }

  // ---------------------------------------------------------------------------
  // One iteration of dispatcher_task (main.c)

  /**
   * Step 3 of a tick: when the CPU is idle, the next task is taken and
   * dispatched. The second component tells whether a task was dispatched in
   * this tick (`just_started`).
   */
  function Select(s: State): (r: (State, bool))
    requires WellFormed(s)
    ensures WellFormed(r.0) && r.0.time == s.time
  {
    if s.current.Some? then (s, false)
    else
      var taken := NextTask(s);
      var s1 := taken.1;
      match taken.0
      case None => (s1, false)
      case Some(r) =>
        var r1 := if r.priority != RT then r.(startTime := s.time) else r;
        var r2 := if r1.unit == NoUnit then r1.(unit := Active, creationTime := s.time, absWaitStart := s.time)
                  else r1.(unit := Active);
        (s1.(current := Some(r2), log := s1.log + [Report(r2, Started, s.time)]), true)
  }

  /** One unit of work for the current task. */
  function Consume(c: TaskRec): TaskRec
  {
    if c.remainingTime > 0 then c.(remainingTime := c.remainingTime - 1) else c
  }

  /** The RUNNING line, printed for a real-time task that was not dispatched in this iteration. */
  function Announce(s: State, justStarted: bool): State
    requires s.current.Some?
  {
    var c := s.current.value;
    if c.priority == RT && !justStarted then s.(log := s.log + [Report(c, Running, s.time)]) else s
  }

  /**
   * Step 6, after the clock step: a task without remaining work completes
   * and is released; any other non-real-time task is demoted, suspended,
   * stamped and appended to the queue of its new level, and gives up the
   * CPU; a real-time task keeps it.
   */
  function Dispose(s: State): (s': State)
    requires WellFormed(s) && s.current.Some?
    ensures WellFormed(s') && s'.time == s.time
  {
    var c := s.current.value;
    if c.remainingTime == 0 then
      s.(current := None, log := s.log + [Report(c, Completed, s.time)])
    else if c.priority != RT then
      var d := c.(priority := Demoted(c.priority));
      var d1 := if d.unit != NoUnit then d.(unit := Paused) else d;
      if d1.priority < LEVELS then
        var d2 := d1.(absWaitStart := s.time);
        s.(current := None,
           queues := s.queues[d2.priority := s.queues[d2.priority] + [d2]],
           log := s.log + [Report(d2, Suspended, s.time)])
      else
        s.(current := None, log := s.log + [Report(d1, Suspended, s.time)])
    else
      s
  }

  /**
   * Steps 4 to 6 of a tick with a current task: the RUNNING line, the second
   * timeout sweep, one unit of work, the clock step and the disposition of the
   * task.
   */
  function Execute(s: State, justStarted: bool): (s': State)
    requires WellFormed(s) && s.current.Some?
    ensures WellFormed(s') && s'.time == NextTime(s.time)
  {
    var s1 := Timeouts(Announce(s, justStarted));
    Dispose(s1.(current := Some(Consume(s.current.value)), time := NextTime(s.time)))
  }

  /** One iteration of the `dispatcher_task` loop, up to its stop test. */
  function Tick(s: State): (s': State)
    requires WellFormed(s)
    ensures WellFormed(s')
    ensures s'.time == NextTime(s.time)
  {
    var s1 := Timeouts(Arrivals(s));
    var selected := Select(s1);
    var s2 := selected.0;
    if s2.current.Some? then Execute(s2, selected.1) else s2.(time := NextTime(s2.time))
  }
}

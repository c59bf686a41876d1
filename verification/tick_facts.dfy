/**
 * Properties of one iteration of the `dispatcher_task` loop (main.c) in the
 * value model: what an idle iteration changes, the stamps a dispatched task
 * receives, how a task leaves the CPU, which lines are printed, and the
 * invariant that every queued task sits at the level of its priority.
 */
module TickFacts {
  import opened Tasks
  import opened Mlfq
  import opened MlfqFacts

  // ---------------------------------------------------------------------------
  // Idle iterations

  /** A ledger in which nothing has arrived is left as it is and gives no queue anything. */
  lemma {:induction false} NothingDue(p: seq<TaskRec>, now: u32, k: nat)
    requires forall r | r in p :: !Due(r, now)
    ensures Waiting(p, now) == p && Admitted(p, now, k) == []
  {
    if p != [] {
      var init, last := p[..|p| - 1], p[|p| - 1];
      assert p == init + [last];
      assert last in p;
      assert forall r | r in init :: r in p;
      NothingDue(init, now, k);
    }
  }

  /**
   * With no task on the CPU, no task ready and no ledger entry due, an
   * iteration changes nothing but the clock, which advances by one.
   */
  lemma IdleTick(s: State)
    requires WellFormed(s) && s.current == None
    requires forall k | 0 <= k < LEVELS :: s.queues[k] == []
    requires forall r | r in s.pending :: !Due(r, s.time)
    ensures Tick(s) == s.(time := NextTime(s.time))
  {
    forall k | 0 <= k < LEVELS
      ensures Merged(s.queues, s.pending, s.time)[k] == s.queues[k]
    {
      NothingDue(s.pending, s.time, k);
    }
    NothingDue(s.pending, s.time, 0);
    assert Arrivals(s) == s;
    SweepOfFreshIsNoOp(s);
  }

  // ---------------------------------------------------------------------------
  // Dispatch

  /**
   * When the CPU is idle and some task is ready, the task chosen by
   * `scheduler_get_next_task` is dispatched: it keeps its identity, level and
   * remaining work, gets a running unit, gets its start time only when it is
   * not real-time, gets `creation_time = abs_wait_start = now` when it had no
   * unit yet, and one STARTED line is printed for it.
   */
  lemma Dispatch(s: State)
    requires WellFormed(s) && s.current == None
    requires exists k | 0 <= k < LEVELS :: s.queues[k] != []
    ensures NextTask(s).0.Some?
    ensures var r, sel := NextTask(s).0.value, Select(s);
      && sel.1
      && sel.0.queues == NextTask(s).1.queues
      && sel.0.current.Some?
      && var c := sel.0.current.value;
      && c.id == r.id && c.priority == r.priority && c.remainingTime == r.remainingTime
      && c.unit == Active
      && c.startTime == (if r.priority == RT then r.startTime else s.time)
      && (r.unit == NoUnit ==> c.creationTime == s.time && c.absWaitStart == s.time)
      && (r.unit != NoUnit ==> c.creationTime == r.creationTime && c.absWaitStart == r.absWaitStart)
      && sel.0.log == s.log + [Event(s.time, Started, r.id, r.priority, r.remainingTime)]
  {
  }

  // ---------------------------------------------------------------------------
  // Execution and disposition

  /**
   * A task whose last unit of work is consumed in this tick completes: it
   * leaves the CPU and enters no queue, and the last line printed is
   * COMPLETED at the advanced clock, showing 0 remaining.
   */
  lemma Completes(s: State, justStarted: bool)
    requires WellFormed(s) && s.current.Some? && s.current.value.remainingTime <= 1
    ensures var s', c := Execute(s, justStarted), s.current.value;
      && s'.current == None
      && s'.queues == Swept(s.queues, s.time)
      && |s'.log| > 0
      && s'.log[|s'.log| - 1] == Event(NextTime(s.time), Completed, c.id, c.priority, 0)
  {
    var c := s.current.value;
    var s1 := Timeouts(Announce(s, justStarted));
    assert Consume(c).remainingTime == 0;
    assert s1.queues == Swept(s.queues, s.time);
  }

  /**
   * An unfinished non-real-time task is demoted and leaves the CPU: with one
   * unit less, `abs_wait_start` at the advanced clock and a suspended unit,
   * it is appended to the queue of its new level, and the last line printed
   * is SUSPENDED showing the new level.
   */
  lemma Requeued(s: State, justStarted: bool)
    requires WellFormed(s) && s.current.Some?
    requires var c := s.current.value; c.remainingTime > 1 && c.priority != RT && c.priority < LEVELS
    requires s.current.value.unit == Active
    ensures var s', c, swept := Execute(s, justStarted), s.current.value, Swept(s.queues, s.time);
      var level := Demoted(c.priority);
      var d := c.(priority := level, remainingTime := c.remainingTime - 1,
                  absWaitStart := NextTime(s.time), unit := Paused);
      && level < LEVELS
      && s'.current == None
      && s'.queues == swept[level := swept[level] + [d]]
      && s'.log[|s'.log| - 1] == Event(NextTime(s.time), Suspended, c.id, level, c.remainingTime - 1)
  {
    var c := s.current.value;
    var s1 := Timeouts(Announce(s, justStarted));
    assert s1.queues == Swept(s.queues, s.time);
  }

  /**
   * An unfinished real-time task keeps the CPU at level 0 with one unit
   * less and is not queued.
   */
  lemma RealTimeKeepsCpu(s: State, justStarted: bool)
    requires WellFormed(s) && s.current.Some?
    requires s.current.value.remainingTime > 1 && s.current.value.priority == RT
    ensures var s', c := Execute(s, justStarted), s.current.value;
      && s'.current == Some(c.(remainingTime := c.remainingTime - 1))
      && s'.current.value.priority == RT
      && s'.queues == Swept(s.queues, s.time)
  {
    var s1 := Timeouts(Announce(s, justStarted));
    assert s1.queues == Swept(s.queues, s.time);
  }

  // ---------------------------------------------------------------------------
  // Printed lines

  /** Some line from position `from` on is a RUNNING line. */
  predicate RunningFrom(log: seq<Event>, from: nat)
  {
    exists i | from <= i < |log| :: log[i].kind == Running
  }

  /** The sweep prints TIMEOUT lines only. */
  lemma {:induction false} SweepLogKinds(qs: seq<seq<TaskRec>>, now: u32, n: nat)
    requires n <= |qs|
    ensures forall i | 0 <= i < |SweepLog(qs, now, n)| :: SweepLog(qs, now, n)[i].kind == Timeout
  {
    if n > 1 {
      SweepLogKinds(qs, now, n - 1);
    }
  }

  /** A sweep appends TIMEOUT lines and nothing else. */
  lemma SweepLines(s: State)
    ensures var log := Timeouts(s).log;
      && |s.log| <= |log| && log[..|s.log|] == s.log
      && forall i | |s.log| <= i < |log| :: log[i].kind == Timeout
  {
    SweepLogKinds(s.queues, s.time, |s.queues|);
  }

  /** Disposing of the task prints at most one line, and not a RUNNING one. */
  lemma DisposeLines(s: State)
    requires WellFormed(s) && s.current.Some?
    ensures var log := Dispose(s).log;
      && |s.log| <= |log| && log[..|s.log|] == s.log
      && forall i | |s.log| <= i < |log| :: log[i].kind != Running
  {
  }

  /** The lines printed after a task has been chosen, up to the end of the tick. */
  lemma ExecuteLines(s: State, justStarted: bool)
    requires WellFormed(s) && s.current.Some?
    ensures var log := Execute(s, justStarted).log;
      && |s.log| <= |log| && log[..|s.log|] == s.log
      && (RunningFrom(log, |s.log|) <==> s.current.value.priority == RT && !justStarted)
  {
    var c := s.current.value;
    var a := Announce(s, justStarted);
    var s1 := Timeouts(a);
    var s2 := s1.(current := Some(Consume(c)), time := NextTime(s.time));
    assert Execute(s, justStarted) == Dispose(s2);
    SweepLines(a);
    DisposeLines(s2);
    AppendedLines(s.log, a.log, s1.log, Dispose(s2).log, c.priority == RT && !justStarted);
  }

  /**
   * A log that gets an optional RUNNING line and then two stages of lines
   * without one has a RUNNING line after its old end iff the first was added.
   */
  lemma AppendedLines(l0: seq<Event>, la: seq<Event>, l1: seq<Event>, l2: seq<Event>, announced: bool)
    requires announced ==> |la| == |l0| + 1 && la[..|l0|] == l0 && la[|l0|].kind == Running
    requires !announced ==> la == l0
    requires |la| <= |l1| && l1[..|la|] == la && forall i | |la| <= i < |l1| :: l1[i].kind != Running
    requires |l1| <= |l2| && l2[..|l1|] == l1 && forall i | |l1| <= i < |l2| :: l2[i].kind != Running
    ensures |l0| <= |l2| && l2[..|l0|] == l0
    ensures RunningFrom(l2, |l0|) <==> announced
  {
    assert l2[..|la|] == la by {
      assert l2[..|la|] == l1[..|la|];
    }
    assert l2[..|l0|] == l0 by {
      assert l2[..|l0|] == la[..|l0|];
    }
    forall i | |la| <= i < |l2|
      ensures l2[i].kind != Running
    {
      if i < |l1| {
        assert l2[i] == l1[i];
      }
    }
    if announced {
      assert l2[|l0|] == la[|l0|];
    }
  }

  /** Lines appended in three stages, the first two without a RUNNING line. */
  lemma RunningChain(l0: seq<Event>, l1: seq<Event>, l2: seq<Event>, l3: seq<Event>)
    requires |l0| <= |l1| <= |l2| <= |l3|
    requires l1[..|l0|] == l0 && l2[..|l1|] == l1 && l3[..|l2|] == l2
    requires !RunningFrom(l1, |l0|) && !RunningFrom(l2, |l1|)
    ensures l3[..|l0|] == l0
    ensures RunningFrom(l3, |l0|) <==> RunningFrom(l3, |l2|)
  {
    assert l3[..|l1|] == l1 by {
      assert l3[..|l1|] == l2[..|l1|];
    }
    assert l3[..|l0|] == l1[..|l0|];
    forall i | |l0| <= i < |l2|
      ensures l3[i].kind != Running
    {
      if i < |l1| {
        assert l3[i] == l1[i];
      } else {
        assert l3[i] == l2[i];
      }
    }
  }

  /** Dispatching prints at most one line, a STARTED one; a task already on the CPU stays there. */
  lemma SelectLines(s: State)
    requires WellFormed(s)
    ensures var s' := Select(s).0;
      && |s.log| <= |s'.log| && s'.log[..|s.log|] == s.log
      && !RunningFrom(s'.log, |s.log|)
      && (Select(s).1 <==> s.current == None && s'.current.Some?)
      && (s.current.Some? ==> s'.current == s.current)
  {
  }

  /** The last stage of a tick: execution when a task holds the CPU, else the idle clock step. */
  lemma FinalLines(s: State, justStarted: bool)
    requires WellFormed(s)
    ensures var s' := if s.current.Some? then Execute(s, justStarted) else s.(time := NextTime(s.time));
      && |s.log| <= |s'.log| && s'.log[..|s.log|] == s.log
      && (RunningFrom(s'.log, |s.log|) <==> s.current.Some? && s.current.value.priority == RT && !justStarted)
  {
    if s.current.Some? {
      ExecuteLines(s, justStarted);
    }
  }

  /**
   * A RUNNING line is printed in a tick exactly when a real-time task already
   * held the CPU when the tick began, so never on the tick that dispatches a
   * task and never for a task of another level. Lines are only appended.
   */
  lemma RunningIff(s: State)
    requires WellFormed(s)
    ensures var log := Tick(s).log;
      && |s.log| <= |log| && log[..|s.log|] == s.log
      && (RunningFrom(log, |s.log|) <==> s.current.Some? && s.current.value.priority == RT)
  {
    var s1 := Timeouts(Arrivals(s));
    var sel := Select(s1);
    SweepLines(Arrivals(s));
    SelectLines(s1);
    FinalLines(sel.0, sel.1);
    RunningChain(s.log, s1.log, sel.0.log, Tick(s).log);
  }

  // ---------------------------------------------------------------------------
  // Every queued task sits at the level of its priority

  ghost predicate LevelsMatch(s: State)
  {
    forall k, r | 0 <= k < |s.queues| && r in s.queues[k] :: r.priority == k
  }

  /** `scheduler_add_task` keeps every queued task at its own level. */
  lemma AddTaskKeepsLevels(s: State, r: TaskRec)
    requires WellFormed(s) && LevelsMatch(s)
    ensures LevelsMatch(AddTask(s, r))
  {
  }

  /** `scheduler_check_arrivals` puts each arrived task at its own level. */
  lemma ArrivalsKeepLevels(s: State)
    requires WellFormed(s) && LevelsMatch(s)
    ensures LevelsMatch(Arrivals(s))
  {
    var qs' := Arrivals(s).queues;
    forall k, x: TaskRec | 0 <= k < |qs'| && x in qs'[k]
      ensures x.priority == k
    {
      assert qs'[k] == s.queues[k] + Admitted(s.pending, s.time, k);
      if x !in s.queues[k] {
        AdmittedIff(s.pending, s.time, k, x);
      }
    }
  }

  /** `scheduler_check_timeouts` only removes tasks. */
  lemma TimeoutsKeepLevels(s: State)
    requires WellFormed(s) && LevelsMatch(s)
    ensures LevelsMatch(Timeouts(s))
  {
    var qs' := Timeouts(s).queues;
    forall k, x: TaskRec | 0 <= k < |qs'| && x in qs'[k]
      ensures x.priority == k
    {
      if k != RT {
        SurvivorsIff(s.queues[k], s.time, x);
      }
    }
  }

  /** The dispatched task carries the level it was taken from, so it is in range. */
  lemma SelectKeepsLevels(s: State)
    requires WellFormed(s) && LevelsMatch(s)
    requires s.current.Some? ==> s.current.value.priority < LEVELS
    ensures var s' := Select(s).0;
      && LevelsMatch(s')
      && (s'.current.Some? ==> s'.current.value.priority < LEVELS)
  {
    var taken := NextTask(s);
    if s.current == None && taken.0.Some? {
      var k :| 0 <= k < LEVELS && s.queues[k] != [] && taken.0.value == s.queues[k][0]
               && taken.1 == s.(queues := s.queues[k := s.queues[k][1..]]);
      assert s.queues[k][0] in s.queues[k];
      forall j, x: TaskRec | 0 <= j < LEVELS && x in taken.1.queues[j]
        ensures x.priority == j
      {
        if j == k {
          assert x in s.queues[k];
        }
      }
    }
  }

  /** A task leaving the CPU is queued at the level of its new priority. */
  lemma ExecuteKeepsLevels(s: State, justStarted: bool)
    requires WellFormed(s) && LevelsMatch(s) && s.current.Some? && s.current.value.priority < LEVELS
    ensures var s' := Execute(s, justStarted);
      && LevelsMatch(s')
      && (s'.current.Some? ==> s'.current.value.priority < LEVELS)
  {
    var a := Announce(s, justStarted);
    TimeoutsKeepLevels(a);
    var s1 := Timeouts(a);
    var s2 := s1.(current := Some(Consume(s.current.value)), time := NextTime(s.time));
    assert LevelsMatch(s2);
    var s' := Dispose(s2);
    forall k, x: TaskRec | 0 <= k < LEVELS && x in s'.queues[k]
      ensures x.priority == k
    {
      if x !in s2.queues[k] {
        var c := s2.current.value;
        var d := c.(priority := Demoted(c.priority));
        var d1 := if d.unit != NoUnit then d.(unit := Paused) else d;
        assert s'.queues[k] == s2.queues[k] + [d1.(absWaitStart := s2.time)];
      }
    }
  }

  /**
   * One iteration keeps every queued task at the level of its priority, and
   * the task on the CPU at a level in range.
   */
  lemma TickKeepsLevels(s: State)
    requires WellFormed(s) && LevelsMatch(s)
    requires s.current.Some? ==> s.current.value.priority < LEVELS
    ensures LevelsMatch(Tick(s))
    ensures Tick(s).current.Some? ==> Tick(s).current.value.priority < LEVELS
  {
    ArrivalsKeepLevels(s);
    TimeoutsKeepLevels(Arrivals(s));
    var s1 := Timeouts(Arrivals(s));
    SelectKeepsLevels(s1);
    var s2 := Select(s1).0;
    if s2.current.Some? {
      ExecuteKeepsLevels(s2, Select(s1).1);
    }
  }
}

/**
 * Custody of tasks: every task the scheduler holds is in exactly one place,
 * the pending ledger, one ready queue or the CPU. No routine of a dispatcher
 * iteration copies a task into a second place or invents one: admission and
 * re-queueing move a task, selection moves the head of a queue to the CPU,
 * and eviction and completion release it. A task id therefore occurs at most
 * once in a state reached from `scheduler_init` by adding tasks with fresh
 * ids and running iterations, and an id that has left the scheduler never
 * comes back.
 */
module Custody {
  import opened Tasks
  import opened Mlfq
  import opened MlfqFacts
  import Progress

  // ---------------------------------------------------------------------------
  // What the scheduler holds, counted by id

  /** The tag of the task on the CPU, if any. */
  function CpuTags(c: Option<TaskRec>): multiset<Tag>
  {
    if c == None then multiset{} else multiset{TagOf(c.value)}
  }

  /** Every task the scheduler holds: in the ledger, in a ready queue or on the CPU. */
  function Held(s: State): multiset<Tag>
    requires WellFormed(s)
  {
    Tags(s.pending) + BankTags(s.queues, LEVELS) + CpuTags(s.current)
  }

  /** How many tags of `m` carry the id `x` and a remaining time below `n`. */
  function IdCountBelow(m: multiset<Tag>, x: u32, n: nat): nat
    requires n <= U32_LIMIT
  {
    if n == 0 then 0 else IdCountBelow(m, x, n - 1) + m[Tag(x, n - 1)]
  }

  /** How many tags of `m` carry the id `x`. */
  function IdCount(m: multiset<Tag>, x: u32): nat
  {
    IdCountBelow(m, x, U32_LIMIT)
  }

  /** No task id occurs twice among the ledger, the ready queues and the CPU. */
  ghost predicate OneContainer(s: State)
    requires WellFormed(s)
  {
    forall x: u32 :: IdCount(Held(s), x) <= 1
  }

  /** No id is held more often in `s'` than in `s`: nothing was copied or invented. */
  ghost predicate NoNewIds(s': State, s: State)
    requires WellFormed(s') && WellFormed(s)
  {
    forall x: u32 :: IdCount(Held(s'), x) <= IdCount(Held(s), x)
  }

  // ---------------------------------------------------------------------------
  // Counting

  lemma {:induction false} IdCountAdd(a: multiset<Tag>, b: multiset<Tag>, x: u32, n: nat)
    requires n <= U32_LIMIT
    ensures IdCountBelow(a + b, x, n) == IdCountBelow(a, x, n) + IdCountBelow(b, x, n)
  {
    if n > 0 {
      IdCountAdd(a, b, x, n - 1);
    }
  }

  lemma {:induction false} IdCountSingle(t: Tag, x: u32, n: nat)
    requires n <= U32_LIMIT
    ensures IdCountBelow(multiset{t}, x, n) == if t.id == x && t.work < n then 1 else 0
  {
    if n > 0 {
      IdCountSingle(t, x, n - 1);
    }
  }

  lemma {:induction false} IdCountNone(x: u32, n: nat)
    requires n <= U32_LIMIT
    ensures IdCountBelow(multiset{}, x, n) == 0
  {
    if n > 0 {
      IdCountNone(x, n - 1);
    }
  }

  lemma {:induction false} IdCountMono(a: multiset<Tag>, b: multiset<Tag>, x: u32, n: nat)
    requires a <= b && n <= U32_LIMIT
    ensures IdCountBelow(a, x, n) <= IdCountBelow(b, x, n)
  {
    if n > 0 {
      IdCountMono(a, b, x, n - 1);
      assert a[Tag(x, n - 1)] <= b[Tag(x, n - 1)];
    }
  }

  /** A tag in `m` makes its id count at least once. */
  lemma IdCountHas(m: multiset<Tag>, t: Tag)
    requires t in m
    ensures IdCount(m, t.id) >= 1
  {
    assert m == (m - multiset{t}) + multiset{t};
    IdCountAdd(m - multiset{t}, multiset{t}, t.id, U32_LIMIT);
    IdCountSingle(t, t.id, U32_LIMIT);
  }

  /** Two tags of the same task count the same for every id, whatever their remaining times. */
  lemma SameId(t: Tag, u: Tag, x: u32)
    requires t.id == u.id
    ensures IdCount(multiset{t}, x) == IdCount(multiset{u}, x)
  {
    IdCountSingle(t, x, U32_LIMIT);
    IdCountSingle(u, x, U32_LIMIT);
  }

  /** A state whose held tags are among those of another adds no id. */
  lemma Fewer(s': State, s: State)
    requires WellFormed(s') && WellFormed(s) && Held(s') <= Held(s)
    ensures NoNewIds(s', s)
  {
    forall x: u32
      ensures IdCount(Held(s'), x) <= IdCount(Held(s), x)
    {
      IdCountMono(Held(s'), Held(s), x, U32_LIMIT);
    }
  }

  /** Adding no id is transitive. */
  lemma Transitive(s'': State, s': State, s: State)
    requires WellFormed(s'') && WellFormed(s') && WellFormed(s)
    requires NoNewIds(s'', s') && NoNewIds(s', s)
    ensures NoNewIds(s'', s)
  {
    forall x: u32
      ensures IdCount(Held(s''), x) <= IdCount(Held(s), x)
    {
      assert IdCount(Held(s''), x) <= IdCount(Held(s'), x);
    }
  }

  // ---------------------------------------------------------------------------
  // Membership

  lemma {:induction false} TagsHas(rs: seq<TaskRec>, r: TaskRec)
    requires r in rs
    ensures TagOf(r) in Tags(rs)
  {
    if rs[|rs| - 1] != r {
      assert r in rs[..|rs| - 1] by {
        var i :| 0 <= i < |rs| && rs[i] == r;
        assert i < |rs| - 1;
        assert rs[..|rs| - 1][i] == r;
      }
      TagsHas(rs[..|rs| - 1], r);
    }
  }

  lemma {:induction false} BankHas(qs: seq<seq<TaskRec>>, n: nat, k: nat, r: TaskRec)
    requires k < n <= |qs| && r in qs[k]
    ensures TagOf(r) in BankTags(qs, n)
  {
    if k < n - 1 {
      BankHas(qs, n - 1, k, r);
    } else {
      TagsHas(qs[k], r);
    }
  }

  lemma {:induction false} EvictedHas(qs: seq<seq<TaskRec>>, now: u32, n: nat, k: nat, r: TaskRec)
    requires RT < k < n <= |qs| && r in Evicted(qs[k], now)
    ensures TagOf(r) in EvictedTags(qs, now, n)
  {
    if k < n - 1 {
      EvictedHas(qs, now, n - 1, k, r);
    } else {
      TagsHas(Evicted(qs[k], now), r);
    }
  }

  /** An id the scheduler does not hold is in no ledger entry, no ready queue and not on the CPU. */
  lemma Absent(s: State, x: u32)
    requires WellFormed(s) && IdCount(Held(s), x) == 0
    ensures forall r | r in s.pending :: r.id != x
    ensures forall k, r | 0 <= k < LEVELS && r in s.queues[k] :: r.id != x
    ensures s.current.Some? ==> s.current.value.id != x
  {
    var h := Held(s);
    forall r | r in s.pending
      ensures r.id != x
    {
      TagsHas(s.pending, r);
      IdCountHas(h, TagOf(r));
    }
    forall k, r | 0 <= k < LEVELS && r in s.queues[k]
      ensures r.id != x
    {
      BankHas(s.queues, LEVELS, k, r);
      IdCountHas(h, TagOf(r));
    }
    if s.current.Some? {
      IdCountHas(h, TagOf(s.current.value));
    }
  }

  /** The id of the task on the CPU is held once for the CPU, plus its count in the ledger and the queues. */
  lemma CpuCount(s: State)
    requires WellFormed(s) && s.current.Some?
    ensures var rest := Tags(s.pending) + BankTags(s.queues, LEVELS);
      IdCount(Held(s), s.current.value.id) == IdCount(rest, s.current.value.id) + 1
  {
    var t := TagOf(s.current.value);
    IdCountAdd(Tags(s.pending) + BankTags(s.queues, LEVELS), multiset{t}, t.id, U32_LIMIT);
    IdCountSingle(t, t.id, U32_LIMIT);
  }

  // ---------------------------------------------------------------------------
  // The steps of an iteration

  /** The ledger scan moves due tasks to the queues and drops the out-of-range ones. */
  lemma ArrivalsIds(s: State)
    requires WellFormed(s)
    ensures WellFormed(Arrivals(s)) && NoNewIds(Arrivals(s), s)
  {
    var a := Arrivals(s);
    ArrivalsConserveTags(s);
    var d := Tags(Dropped(s.pending, s.time));
    var c := CpuTags(s.current);
    assert Tags(a.pending) + BankTags(a.queues, LEVELS) + d == Tags(s.pending) + BankTags(s.queues, LEVELS);
    assert Held(a) + d == Held(s);
    Fewer(a, s);
  }

  /** The sweep only removes tasks. */
  lemma TimeoutsIds(s: State)
    requires WellFormed(s)
    ensures WellFormed(Timeouts(s)) && NoNewIds(Timeouts(s), s)
    ensures Held(Timeouts(s)) + EvictedTags(s.queues, s.time, LEVELS) == Held(s)
  {
    var t := Timeouts(s);
    SweepBankTags(s.queues, t.queues, s.time, LEVELS);
    assert Held(t) + EvictedTags(s.queues, s.time, LEVELS) == Held(s);
    Fewer(t, s);
  }

  /** The tags of a level are those of its head and of the rest. */
  lemma HeadTags(l: seq<TaskRec>)
    requires l != []
    ensures Tags(l) == multiset{TagOf(l[0])} + Tags(l[1..])
  {
    assert l == [l[0]] + l[1..];
    Progress.TagsOne(l[0]);
    TagsAppend([l[0]], l[1..]);
  }

  /** Taking the head off a level removes its tag from the bank. */
  lemma PopBank(qs: seq<seq<TaskRec>>, k: nat)
    requires |qs| == LEVELS && k < LEVELS && qs[k] != []
    ensures BankTags(qs[k := qs[k][1..]], LEVELS) + multiset{TagOf(qs[k][0])} == BankTags(qs, LEVELS)
  {
    var q := qs[k][1..];
    Progress.BankTagsSet(qs, k, q, LEVELS);
    HeadTags(qs[k]);
    Cancel(BankTags(qs[k := q], LEVELS), multiset{TagOf(qs[k][0])}, BankTags(qs, LEVELS), Tags(q));
  }

  /** Cancelling a common part on both sides of a multiset equation. */
  lemma Cancel(a: multiset<Tag>, one: multiset<Tag>, b: multiset<Tag>, q: multiset<Tag>)
    requires a + (one + q) == b + q
    ensures a + one == b
  {
    forall t
      ensures (a + one)[t] == b[t]
    {
      assert (a + (one + q))[t] == (b + q)[t];
    }
  }

  /** Appending a task to a level adds its tag to the bank. */
  lemma PushBank(qs: seq<seq<TaskRec>>, k: nat, d: TaskRec)
    requires |qs| == LEVELS && k < LEVELS
    ensures BankTags(qs[k := qs[k] + [d]], LEVELS) == BankTags(qs, LEVELS) + multiset{TagOf(d)}
  {
    var q := qs[k] + [d];
    Progress.BankTagsSet(qs, k, q, LEVELS);
    Progress.TagsOne(d);
    TagsAppend(qs[k], [d]);
    var a, b := BankTags(qs[k := q], LEVELS), BankTags(qs, LEVELS);
    assert a + Tags(qs[k]) == b + Tags(q);
    forall t
      ensures a[t] == (b + multiset{TagOf(d)})[t]
    {
      assert (a + Tags(qs[k]))[t] == (b + Tags(q))[t];
    }
  }

  /** Moving the head of a level to the idle CPU keeps what is held. */
  lemma PopHeld(s: State, s': State, k: nat)
    requires WellFormed(s) && WellFormed(s') && s.current == None && k < LEVELS && s.queues[k] != []
    requires s'.queues == s.queues[k := s.queues[k][1..]] && s'.pending == s.pending
    requires s'.current.Some? && TagOf(s'.current.value) == TagOf(s.queues[k][0])
    ensures Held(s') == Held(s)
  {
    PopBank(s.queues, k);
  }

  /** Selection moves the head of the chosen level to the CPU. */
  lemma SelectIds(s: State)
    requires WellFormed(s)
    ensures Held(Select(s).0) == Held(s)
  {
    if s.current == None && ChosenLevel(s) < LEVELS {
      var s', k := Select(s).0, ChosenLevel(s);
      Progress.SelectTakes(s);
      assert s'.current.value.id == s.queues[k][0].id;
      PopHeld(s, s', k);
    } else {
      assert Select(s).0 == s;
    }
  }

  /** One unit of work changes the remaining time of the task on the CPU, not its id. */
  lemma ConsumeIds(t: State, u: State)
    requires WellFormed(t) && WellFormed(u) && t.current.Some? && u.current.Some?
    requires u.pending == t.pending && u.queues == t.queues && u.current.value.id == t.current.value.id
    ensures forall x: u32 :: IdCount(Held(u), x) == IdCount(Held(t), x)
  {
    var rest := Tags(t.pending) + BankTags(t.queues, LEVELS);
    forall x: u32
      ensures IdCount(Held(u), x) == IdCount(Held(t), x)
    {
      IdCountAdd(rest, CpuTags(u.current), x, U32_LIMIT);
      IdCountAdd(rest, CpuTags(t.current), x, U32_LIMIT);
      SameId(TagOf(u.current.value), TagOf(t.current.value), x);
    }
  }

  /** Taking the task off the CPU and putting it nowhere releases exactly that task. */
  lemma ReleaseHeld(u: State, s': State)
    requires WellFormed(u) && WellFormed(s') && u.current.Some?
    requires s'.queues == u.queues && s'.pending == u.pending && s'.current == None
    ensures Held(s') + CpuTags(u.current) == Held(u)
  {
  }

  /** Taking the task off the CPU and appending it to a level keeps what is held. */
  lemma PushHeld(u: State, s': State, d: TaskRec)
    requires WellFormed(u) && WellFormed(s') && u.current.Some?
    requires d.priority < LEVELS && TagOf(d) == TagOf(u.current.value)
    requires s'.queues == u.queues[d.priority := u.queues[d.priority] + [d]]
    requires s'.pending == u.pending && s'.current == None
    ensures Held(s') == Held(u)
  {
    PushBank(u.queues, d.priority as nat, d);
  }

  /**
   * The disposition releases the task on the CPU (completion, or demotion past
   * the last level), moves it to a queue (demotion), or leaves it on the CPU.
   */
  lemma DisposeIds(u: State)
    requires WellFormed(u) && u.current.Some?
    ensures NoNewIds(Dispose(u), u)
    ensures u.current.value.remainingTime == 0 ==> Held(Dispose(u)) + CpuTags(u.current) == Held(u)
  {
    var c := u.current.value;
    var s' := Dispose(u);
    if c.remainingTime == 0 {
      ReleaseHeld(u, s');
    } else if c.priority != RT {
      var d := c.(priority := Demoted(c.priority));
      var d1 := if d.unit != NoUnit then d.(unit := Paused) else d;
      if d1.priority < LEVELS {
        var d2 := d1.(absWaitStart := u.time);
        PushHeld(u, s', d2);
      } else {
        ReleaseHeld(u, s');
      }
    } else {
      assert s' == u;
    }
    Fewer(s', u);
  }

  /** The state just before the disposition: the sweep has run and one unit of work is consumed. */
  function BeforeDispose(s: State, justStarted: bool): (u: State)
    requires WellFormed(s) && s.current.Some?
    ensures WellFormed(u) && u.current.Some?
  {
    Timeouts(Announce(s, justStarted)).(current := Some(Consume(s.current.value)), time := NextTime(s.time))
  }

  /** Announcing, sweeping and consuming one unit add no id. */
  lemma BeforeDisposeIds(s: State, justStarted: bool)
    requires WellFormed(s) && s.current.Some?
    ensures NoNewIds(BeforeDispose(s, justStarted), s)
    ensures Execute(s, justStarted) == Dispose(BeforeDispose(s, justStarted))
  {
    var a := Announce(s, justStarted);
    assert a.queues == s.queues && a.pending == s.pending && a.current == s.current;
    assert Held(a) == Held(s);
    TimeoutsIds(a);
    var t := Timeouts(a);
    var u := BeforeDispose(s, justStarted);
    ConsumeIds(t, u);
    forall x: u32
      ensures IdCount(Held(u), x) <= IdCount(Held(s), x)
    {
      assert IdCount(Held(t), x) <= IdCount(Held(a), x);
    }
  }

  /** Running the task on the CPU for one tick adds no id. */
  lemma ExecuteIds(s: State, justStarted: bool)
    requires WellFormed(s) && s.current.Some?
    ensures NoNewIds(Execute(s, justStarted), s)
  {
    var u := BeforeDispose(s, justStarted);
    BeforeDisposeIds(s, justStarted);
    DisposeIds(u);
    Transitive(Dispose(u), u, s);
  }

  /** A whole iteration copies and invents no task. */
  lemma TickIds(s: State)
    requires WellFormed(s)
    ensures NoNewIds(Tick(s), s)
  {
    var a := Arrivals(s);
    ArrivalsIds(s);
    var s1 := Timeouts(a);
    TimeoutsIds(a);
    Transitive(s1, a, s);
    var selected := Select(s1);
    var s2 := selected.0;
    SelectIds(s1);
    if s2.current.Some? {
      ExecuteIds(s2, selected.1);
      assert Tick(s) == Execute(s2, selected.1);
      forall x: u32
        ensures IdCount(Held(Tick(s)), x) <= IdCount(Held(s), x)
      {
        assert IdCount(Held(Tick(s)), x) <= IdCount(Held(s2), x);
        assert IdCount(Held(s1), x) <= IdCount(Held(s), x);
      }
    } else {
      var s' := s2.(time := NextTime(s2.time));
      assert Tick(s) == s';
      assert Held(s') == Held(s1);
    }
  }

  // ---------------------------------------------------------------------------
  // The invariant and what it gives

  /** Empty levels hold no tag. */
  lemma {:induction false} EmptyBank(qs: seq<seq<TaskRec>>, n: nat)
    requires n <= |qs| && forall k | 0 <= k < |qs| :: qs[k] == []
    ensures BankTags(qs, n) == multiset{}
  {
    if n > 0 {
      EmptyBank(qs, n - 1);
    }
  }

  /** `scheduler_init` holds no task, so no id occurs twice. */
  lemma InitOneContainer()
    ensures OneContainer(Init())
    ensures forall x: u32 :: IdCount(Held(Init()), x) == 0
  {
    var s := Init();
    EmptyBank(s.queues, LEVELS);
    assert Held(s) == multiset{};
    forall x: u32
      ensures IdCount(Held(s), x) == 0
    {
      IdCountNone(x, U32_LIMIT);
    }
  }

  /** Holding one more task adds one occurrence of its id and nothing else. */
  lemma AddOne(s: State, s': State, r: TaskRec)
    requires WellFormed(s) && WellFormed(s') && Held(s') == Held(s) + multiset{TagOf(r)}
    ensures forall x: u32 :: IdCount(Held(s'), x) == IdCount(Held(s), x) + if x == r.id then 1 else 0
  {
    forall x: u32
      ensures IdCount(Held(s'), x) == IdCount(Held(s), x) + if x == r.id then 1 else 0
    {
      IdCountAdd(Held(s), multiset{TagOf(r)}, x, U32_LIMIT);
      IdCountSingle(TagOf(r), x, U32_LIMIT);
    }
  }

  /**
   * Adding to the ledger a task whose id is not held yet, as the loader does
   * with the fresh ids of `task_counter++`, keeps each task in one place.
   */
  lemma AddPendingKeepsOneContainer(s: State, r: TaskRec)
    requires WellFormed(s) && OneContainer(s) && IdCount(Held(s), r.id) == 0
    ensures WellFormed(AddPending(s, r)) && OneContainer(AddPending(s, r))
    ensures forall x: u32 :: IdCount(Held(AddPending(s, r)), x) == IdCount(Held(s), x) + if x == r.id then 1 else 0
  {
    var s' := AddPending(s, r);
    assert (s.pending + [r])[..|s.pending|] == s.pending;
    assert Tags(s'.pending) == Tags(s.pending) + multiset{TagOf(r)};
    AddOne(s, s', r);
  }

  /** Adding to its queue a task whose id is not held yet keeps each task in one place. */
  lemma AddTaskKeepsOneContainer(s: State, r: TaskRec)
    requires WellFormed(s) && OneContainer(s) && IdCount(Held(s), r.id) == 0
    ensures WellFormed(AddTask(s, r)) && OneContainer(AddTask(s, r))
    ensures forall x: u32 :: IdCount(Held(AddTask(s, r)), x) == IdCount(Held(s), x) + if x == r.id && r.priority < LEVELS then 1 else 0
  {
    var s' := AddTask(s, r);
    if r.priority < LEVELS {
      PushBank(s.queues, r.priority as nat, r);
      assert Held(s') == Held(s) + multiset{TagOf(r)};
      AddOne(s, s', r);
      forall x: u32
        ensures IdCount(Held(s'), x) <= 1
      {
        assert IdCount(Held(s'), x) == IdCount(Held(s), x) + if x == r.id then 1 else 0;
      }
    } else {
      assert s' == s;
    }
  }

  /** Every iteration keeps each task in one place at most. */
  lemma TickKeepsOneContainer(s: State)
    requires WellFormed(s) && OneContainer(s)
    ensures OneContainer(Tick(s))
  {
    TickIds(s);
    forall x: u32
      ensures IdCount(Held(Tick(s)), x) <= 1
    {
      assert IdCount(Held(Tick(s)), x) <= IdCount(Held(s), x);
    }
  }

  /** After any number of iterations no id is held more often than at the start. */
  lemma TicksAddNoIds(s: State, n: nat)
    requires WellFormed(s)
    ensures NoNewIds(Progress.Ticks(s, n), s)
  {
    forall x: u32
      ensures IdCount(Held(Progress.Ticks(s, n)), x) <= IdCount(Held(s), x)
    {
      TicksCount(s, n, x);
    }
  }

  /** The count of one id after `n` iterations is at most its count at the start. */
  lemma TicksCount(s: State, n: nat, x: u32)
    requires WellFormed(s)
    ensures IdCount(Held(Progress.Ticks(s, n)), x) <= IdCount(Held(s), x)
  {
    if n > 0 {
      TicksCount(s, n - 1, x);
      StepCount(s, n, x);
    }
  }

  /** The `n`-th iteration adds no occurrence of an id. */
  lemma StepCount(s: State, n: nat, x: u32)
    requires WellFormed(s) && n > 0
    ensures IdCount(Held(Progress.Ticks(s, n)), x) <= IdCount(Held(Progress.Ticks(s, n - 1)), x)
  {
    TickIds(Progress.Ticks(s, n - 1));
  }

  /**
   * A task whose last unit of work is consumed is released: after the
   * iteration no ledger entry, no ready queue and not the CPU holds its id.
   */
  lemma CompletedIsGone(s: State, justStarted: bool)
    requires WellFormed(s) && OneContainer(s) && s.current.Some? && s.current.value.remainingTime <= 1
    ensures var s', x := Execute(s, justStarted), s.current.value.id;
      && IdCount(Held(s'), x) == 0
      && s'.current == None
      && (forall r | r in s'.pending :: r.id != x)
      && (forall k, r | 0 <= k < LEVELS && r in s'.queues[k] :: r.id != x)
  {
    var x := s.current.value.id;
    var u := BeforeDispose(s, justStarted);
    BeforeDisposeIds(s, justStarted);
    DisposeIds(u);
    var s' := Dispose(u);
    assert IdCount(Held(u), x) <= IdCount(Held(s), x) <= 1;
    ReleasedCount(u, s', x);
    Absent(s', x);
  }

  /** Releasing the task on the CPU leaves no occurrence of an id that was held once. */
  lemma ReleasedCount(u: State, s': State, x: u32)
    requires WellFormed(u) && WellFormed(s') && u.current.Some? && u.current.value.id == x
    requires Held(s') + CpuTags(u.current) == Held(u) && IdCount(Held(u), x) <= 1
    ensures IdCount(Held(s'), x) == 0
  {
    IdCountAdd(Held(s'), CpuTags(u.current), x, U32_LIMIT);
    IdCountSingle(TagOf(u.current.value), x, U32_LIMIT);
  }

  /**
   * A starved task evicted by the sweep is released: afterwards no ledger
   * entry, no ready queue and not the CPU holds its id.
   */
  lemma EvictedIsGone(s: State, k: nat, r: TaskRec)
    requires WellFormed(s) && OneContainer(s)
    requires RT < k < LEVELS && r in s.queues[k] && Starved(r, s.time)
    ensures IdCount(Held(Timeouts(s)), r.id) == 0
  {
    var t := Timeouts(s);
    var ev := EvictedTags(s.queues, s.time, LEVELS);
    TimeoutsIds(s);
    EvictedIff(s.queues[k], s.time, r);
    EvictedHas(s.queues, s.time, LEVELS, k, r);
    IdCountHas(ev, TagOf(r));
    IdCountAdd(Held(t), ev, r.id, U32_LIMIT);
    assert IdCount(Held(s), r.id) <= 1;
  }

  /**
   * An id the scheduler no longer holds never returns: in no later iteration
   * is it in the ledger, in a ready queue or on the CPU, so an evicted or
   * completed task is never dispatched again.
   */
  lemma NeverReturns(s: State, x: u32, n: nat)
    requires WellFormed(s) && IdCount(Held(s), x) == 0
    ensures var later := Progress.Ticks(s, n);
      && (later.current.Some? ==> later.current.value.id != x)
      && (forall r | r in later.pending :: r.id != x)
      && (forall k, r | 0 <= k < LEVELS && r in later.queues[k] :: r.id != x)
  {
    var later := Progress.Ticks(s, n);
    TicksAddNoIds(s, n);
    assert IdCount(Held(later), x) <= IdCount(Held(s), x);
    Absent(later, x);
  }
}

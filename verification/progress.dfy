/**
 * Why the `dispatcher_task` loop reaches its stop test. Every iteration
 * either stops, or lowers the total remaining work of the tasks it holds, or
 * keeps that work and brings the pending tasks closer to their arrival.
 */
module Progress {
  import opened Tasks
  import opened Mlfq
  import opened MlfqFacts

  // ---------------------------------------------------------------------------
  // Work: remaining time plus one per task held

  /** The work of a multiset of tags: each task counts its remaining time plus one. */
  ghost function Weight(m: multiset<Tag>): nat
    decreases |m|
  {
    if m == multiset{} then 0
    else
      var t :| t in m;
      t.work + 1 + Weight(m - multiset{t})
  }

  lemma {:induction false} WeightRemove(m: multiset<Tag>, t: Tag)
    requires t in m
    ensures Weight(m) == t.work + 1 + Weight(m - multiset{t})
    decreases |m|
  {
    var u :| u in m && Weight(m) == u.work + 1 + Weight(m - multiset{u});
    if u != t {
      WeightRemove(m - multiset{u}, t);
      WeightRemove(m - multiset{t}, u);
      assert m - multiset{u} - multiset{t} == m - multiset{t} - multiset{u};
    }
  }

  lemma {:induction false} WeightAdd(a: multiset<Tag>, b: multiset<Tag>)
    ensures Weight(a + b) == Weight(a) + Weight(b)
    decreases |a|
  {
    if a != multiset{} {
      var t :| t in a;
      WeightRemove(a + b, t);
      WeightRemove(a, t);
      assert a + b - multiset{t} == (a - multiset{t}) + b;
      WeightAdd(a - multiset{t}, b);
    } else {
      assert a + b == b;
    }
  }

  lemma WeightOne(t: Tag)
    ensures Weight(multiset{t}) == t.work + 1
  {
    WeightRemove(multiset{t}, t);
    assert multiset{t} - multiset{t} == multiset{};
  }

  /** The work of the task on the CPU, if any. */
  function Load(c: Option<TaskRec>): nat
  {
    if c == None then 0 else c.value.remainingTime + 1
  }

  /** The work of every task the scheduler holds: queued, pending or running. */
  ghost function Work(s: State): nat
    requires WellFormed(s)
  {
    Weight(BankTags(s.queues, LEVELS)) + Weight(Tags(s.pending)) + Load(s.current)
  }

  // ---------------------------------------------------------------------------
  // Delay: ticks until the pending tasks arrive

  /** The ticks from `now` until each entry of `p` arrives, summed; arrived entries count 0. */
  function Delay(p: seq<TaskRec>, now: u32): nat
  {
    if p == [] then 0
    else
      var r := p[|p| - 1];
      Delay(p[..|p| - 1], now) + (if r.arrivalTime > now then r.arrivalTime - now else 0)
  }

  /** Arrived entries contribute nothing, so the entries the scan leaves behind carry the whole delay. */
  lemma {:induction false} DelayOfWaiting(p: seq<TaskRec>, now: u32)
    ensures Delay(Waiting(p, now), now) == Delay(p, now)
  {
    if p != [] {
      var init, r := p[..|p| - 1], p[|p| - 1];
      DelayOfWaiting(init, now);
      if Due(r, now) {
        assert Waiting(p, now) == Waiting(init, now) + [];
        assert Waiting(init, now) + [] == Waiting(init, now);
      } else {
        DelayPush(Waiting(init, now), r, now);
      }
    }
  }

  lemma DelayPush(p: seq<TaskRec>, r: TaskRec, now: u32)
    ensures Delay(p + [r], now) == Delay(p, now) + (if r.arrivalTime > now then r.arrivalTime - now else 0)
  {
    assert (p + [r])[..|p|] == p;
  }

  /**
   * One tick later, each entry that has not arrived is one tick closer:
   * the delay drops by the number of entries.
   */
  lemma {:induction false} DelayNextTick(p: seq<TaskRec>, now: u32)
    requires forall r | r in p :: r.arrivalTime > now
    ensures p != [] ==> NextTime(now) == now + 1
    ensures Delay(p, NextTime(now)) + |p| == Delay(p, now)
  {
    if p != [] {
      assert p[|p| - 1] in p;
      var init := p[..|p| - 1];
      assert forall r | r in init :: r in p;
      DelayNextTick(init, now);
    }
  }

  // ---------------------------------------------------------------------------
  // How each step of a tick changes the work

  /** Replacing one level changes the tags of the bank by exactly that level's difference. */
  lemma {:induction false} BankTagsSet(qs: seq<seq<TaskRec>>, k: nat, q: seq<TaskRec>, n: nat)
    requires k < |qs| && n <= |qs|
    ensures k < n ==> BankTags(qs[k := q], n) + Tags(qs[k]) == BankTags(qs, n) + Tags(q)
    ensures k >= n ==> BankTags(qs[k := q], n) == BankTags(qs, n)
  {
    if n > 0 {
      var m := n - 1;
      var qs' := qs[k := q];
      BankTagsSet(qs, k, q, m);
      assert BankTags(qs', n) == BankTags(qs', m) + Tags(qs'[m]);
      assert BankTags(qs, n) == BankTags(qs, m) + Tags(qs[m]);
      if m == k {
        assert BankTags(qs', m) == BankTags(qs, m);
      } else if m > k {
        assert qs'[m] == qs[m];
        Rearrange(BankTags(qs', m), Tags(qs[k]), BankTags(qs, m), Tags(q), Tags(qs[m]));
      } else {
        assert qs'[m] == qs[m];
      }
    }
  }

  lemma Rearrange(a: multiset<Tag>, t: multiset<Tag>, b: multiset<Tag>, u: multiset<Tag>, y: multiset<Tag>)
    requires a + t == b + u
    ensures (a + y) + t == (b + y) + u
  {
    forall x
      ensures ((a + y) + t)[x] == ((b + y) + u)[x]
    {
      assert (a + t)[x] == (b + u)[x];
    }
  }

  lemma TagsOne(r: TaskRec)
    ensures Tags([r]) == multiset{TagOf(r)}
  {
    assert [r][..0] == [];
  }

  /** Appending a task to a level adds its work to the bank. */
  lemma BankWorkPush(qs: seq<seq<TaskRec>>, k: nat, r: TaskRec)
    requires |qs| == LEVELS && k < LEVELS
    ensures Weight(BankTags(qs[k := qs[k] + [r]], LEVELS)) == Weight(BankTags(qs, LEVELS)) + r.remainingTime + 1
  {
    var q := qs[k] + [r];
    var a, b, t, tq, x := BankTags(qs[k := q], LEVELS), BankTags(qs, LEVELS), Tags(qs[k]), Tags(q), multiset{TagOf(r)};
    BankTagsSet(qs, k, q, LEVELS);
    assert a + t == b + tq;
    TagsOne(r);
    TagsAppend(qs[k], [r]);
    assert tq == t + x;
    WeightOne(TagOf(r));
    WeightAdd(a, t);
    WeightAdd(b, tq);
    WeightAdd(t, x);
  }

  /** Taking the head of a level removes its work from the bank. */
  lemma BankWorkPop(qs: seq<seq<TaskRec>>, k: nat)
    requires |qs| == LEVELS && k < LEVELS && qs[k] != []
    ensures Weight(BankTags(qs[k := qs[k][1..]], LEVELS)) + qs[k][0].remainingTime + 1 == Weight(BankTags(qs, LEVELS))
  {
    var r, q := qs[k][0], qs[k][1..];
    var a, b, t, tq, x := BankTags(qs[k := q], LEVELS), BankTags(qs, LEVELS), Tags(qs[k]), Tags(q), multiset{TagOf(r)};
    BankTagsSet(qs, k, q, LEVELS);
    assert a + t == b + tq;
    TagsOne(r);
    assert qs[k] == [r] + q;
    TagsAppend([r], q);
    assert t == x + tq;
    WeightOne(TagOf(r));
    WeightAdd(a, t);
    WeightAdd(b, tq);
    WeightAdd(x, tq);
  }

  /** The ledger scan moves or drops tasks, never adds work. */
  lemma ArrivalsWork(s: State)
    requires WellFormed(s)
    ensures Work(Arrivals(s)) <= Work(s)
  {
    var s' := Arrivals(s);
    ArrivalsConserveTags(s);
    var d := Tags(Dropped(s.pending, s.time));
    WeightAdd(Tags(s'.pending) + BankTags(s'.queues, LEVELS), d);
    WeightAdd(Tags(s'.pending), BankTags(s'.queues, LEVELS));
    WeightAdd(Tags(s.pending), BankTags(s.queues, LEVELS));
  }

  /** The starvation sweep only removes tasks. */
  lemma TimeoutsWork(s: State)
    requires WellFormed(s)
    ensures Work(Timeouts(s)) <= Work(s)
  {
    var qs' := Timeouts(s).queues;
    SweepBankTags(s.queues, qs', s.time, LEVELS);
    WeightAdd(BankTags(qs', LEVELS), EvictedTags(s.queues, s.time, LEVELS));
  }

  /** Moving the head of a level to the idle CPU keeps the work. */
  lemma WorkOfDispatch(s: State, s': State, k: nat)
    requires WellFormed(s) && WellFormed(s') && s.current == None && k < LEVELS && s.queues[k] != []
    requires s'.queues == s.queues[k := s.queues[k][1..]] && s'.pending == s.pending
    requires s'.current.Some? && s'.current.value.remainingTime == s.queues[k][0].remainingTime
    ensures Work(s') == Work(s)
  {
    BankWorkPop(s.queues, k);
  }

  /** What dispatching takes from the chosen level and puts on the CPU. */
  lemma SelectTakes(s: State)
    requires WellFormed(s) && s.current == None && ChosenLevel(s) < LEVELS
    ensures var s', k := Select(s).0, ChosenLevel(s);
      && s.queues[k] != []
      && s'.queues == s.queues[k := s.queues[k][1..]] && s'.pending == s.pending
      && s'.current.Some? && s'.current.value.remainingTime == s.queues[k][0].remainingTime
  {
  }

  /** Dispatching moves a task from its queue to the CPU with its work unchanged. */
  lemma SelectWork(s: State)
    requires WellFormed(s)
    ensures Work(Select(s).0) == Work(s)
  {
    if s.current == None && ChosenLevel(s) < LEVELS {
      SelectTakes(s);
      WorkOfDispatch(s, Select(s).0, ChosenLevel(s));
    } else {
      assert Select(s).0 == s;
    }
  }

  /**
   * Disposing of the task on the CPU never adds work, and removes its work
   * when it completes.
   */
  lemma DisposeWork(u: State)
    requires WellFormed(u) && u.current.Some?
    ensures Work(Dispose(u)) <= Work(u)
    ensures u.current.value.remainingTime == 0 ==> Work(Dispose(u)) < Work(u)
  {
    var c := u.current.value;
    var s' := Dispose(u);
    var pending := Weight(Tags(u.pending));
    assert Work(u) == Weight(BankTags(u.queues, LEVELS)) + pending + c.remainingTime + 1;
    if c.remainingTime == 0 {
      assert s'.queues == u.queues && s'.pending == u.pending && s'.current == None;
    } else if c.priority != RT {
      var d := c.(priority := Demoted(c.priority));
      var d1 := if d.unit != NoUnit then d.(unit := Paused) else d;
      if d1.priority < LEVELS {
        var d2 := d1.(absWaitStart := u.time);
        var qs' := u.queues[d2.priority := u.queues[d2.priority] + [d2]];
        assert s'.queues == qs' && s'.pending == u.pending && s'.current == None;
        BankWorkPush(u.queues, d2.priority, d2);
        assert Work(s') == Weight(BankTags(qs', LEVELS)) + pending;
      } else {
        assert s'.queues == u.queues && s'.pending == u.pending && s'.current == None;
      }
    } else {
      assert s' == u;
    }
  }

  /** A tick with a task on the CPU always consumes work: one unit, or the whole task when it completes. */
  lemma ExecuteWork(s: State, justStarted: bool)
    requires WellFormed(s) && s.current.Some?
    ensures Work(Execute(s, justStarted)) < Work(s)
  {
    var c := s.current.value;
    var a := Announce(s, justStarted);
    assert a.queues == s.queues && a.pending == s.pending && a.current == s.current;
    TimeoutsWork(a);
    var t := Timeouts(a);
    var u := t.(current := Some(Consume(c)), time := NextTime(s.time));
    assert Work(u) + (if c.remainingTime > 0 then 1 else 0) == Work(t);
    DisposeWork(u);
  }

  /**
   * Every iteration of the dispatcher loop that does not stop makes
   * progress: less work is left, or the same work and the pending tasks
   * are closer to their arrival.
   */
  lemma TickProgress(s: State)
    requires WellFormed(s)
    ensures var s' := Tick(s);
      || Finished(s')
      || Work(s') < Work(s)
      || (Work(s') == Work(s) && Delay(s'.pending, s'.time) < Delay(s.pending, s.time))
  {
    var s1 := Timeouts(Arrivals(s));
    ArrivalsWork(s);
    TimeoutsWork(Arrivals(s));
    SelectWork(s1);
    var s2 := Select(s1).0;
    if s2.current.Some? {
      ExecuteWork(s2, Select(s1).1);
    } else {
      var s' := Tick(s);
      assert s' == s1.(time := NextTime(s.time));
      if !Finished(s') {
        var w := Waiting(s.pending, s.time);
        assert s'.pending == w;
        forall r | r in w
          ensures r.arrivalTime > s.time
        {
          WaitingIff(s.pending, s.time, r);
        }
        DelayOfWaiting(s.pending, s.time);
        DelayNextTick(w, s.time);
      }
    }
  }

  // ---------------------------------------------------------------------------
  // The loop

  /** The state after `n` iterations of the dispatcher loop. */
  function Ticks(s: State, n: nat): (s': State)
    requires WellFormed(s)
    ensures WellFormed(s')
    decreases n
  {
    if n == 0 then s else Tick(Ticks(s, n - 1))
  }

  /** No iteration from the first up to, but not including, the `n`-th reached the stop test. */
  ghost predicate RanUntil(s: State, n: nat)
    requires WellFormed(s)
  {
    forall i: nat | 1 <= i < n :: !Finished(Ticks(s, i))
  }

  /** An iteration that did not stop extends the run by one. */
  lemma RanOneMore(s: State, n: nat)
    requires WellFormed(s) && RanUntil(s, n)
    requires n >= 1 ==> !Finished(Ticks(s, n))
    ensures RanUntil(s, n + 1)
  {
    forall i: nat | 1 <= i < n + 1
      ensures !Finished(Ticks(s, i))
    {
      if i < n {
        assert 1 <= i < n;
      } else {
        assert i == n;
      }
    }
  }

  /**
   * From `cur`, the state reached after `n` iterations, the loop still
   * reaches its stop test.
   */
  lemma {:induction false} FinishedLater(s: State, n: nat, cur: State)
    requires WellFormed(s) && cur == Ticks(s, n)
    ensures exists k: nat :: k > n && Finished(Ticks(s, k))
    decreases Work(cur), Delay(cur.pending, cur.time)
  {
    TickProgress(cur);
    var next := Tick(cur);
    assert Ticks(s, n + 1) == next;
    if !Finished(next) {
      FinishedLater(s, n + 1, next);
    }
  }

  /** From any state, some number of iterations (at least one) reaches the stop test. */
  lemma EventuallyFinished(s: State)
    requires WellFormed(s)
    ensures exists n: nat :: n >= 1 && Finished(Ticks(s, n))
  {
    FinishedLater(s, 0, s);
  }
}

/**
 * Properties of the ledger scan (`scheduler_check_arrivals`), the starvation
 * sweep (`scheduler_check_timeouts`) and the selection rule
 * (`scheduler_get_next_task`) of the value model.
 */
module MlfqFacts {
  import opened Tasks
  import opened Mlfq

  /**
   * What identifies a task across the routines that move it: its id and its
   * remaining work. Moving, stamping and re-queueing a task keep its tag.
   */
  datatype Tag = Tag(id: u32, work: u32)

  function TagOf(r: TaskRec): Tag
  {
    Tag(r.id, r.remainingTime)
  }

  /** The tags of `rs`, with multiplicity. */
  function Tags(rs: seq<TaskRec>): multiset<Tag>
  {
    if rs == [] then multiset{} else Tags(rs[..|rs| - 1]) + multiset{TagOf(rs[|rs| - 1])}
  }

  /** The tags in levels 0 .. n-1 of `qs`. */
  function BankTags(qs: seq<seq<TaskRec>>, n: nat): multiset<Tag>
    requires n <= |qs|
  {
    if n == 0 then multiset{} else BankTags(qs, n - 1) + Tags(qs[n - 1])
  }

  /** The tags of the ledger entries that have arrived by `now` and whose level is below `n`. */
  function AdmittedTags(p: seq<TaskRec>, now: u32, n: nat): multiset<Tag>
  {
    if p == [] then multiset{}
    else AdmittedTags(p[..|p| - 1], now, n) +
         (if Due(p[|p| - 1], now) && p[|p| - 1].priority < n then multiset{TagOf(p[|p| - 1])} else multiset{})
  }

  /** The tags of the ledger entries that have arrived by `now` and whose level is `k`. */
  function LevelTags(p: seq<TaskRec>, now: u32, k: nat): multiset<Tag>
  {
    if p == [] then multiset{}
    else LevelTags(p[..|p| - 1], now, k) +
         (if Due(p[|p| - 1], now) && p[|p| - 1].priority == k then multiset{TagOf(p[|p| - 1])} else multiset{})
  }

  /** `a` can be obtained from `b` by deleting elements: nothing is reordered. */
  predicate IsSubseq<T(==)>(a: seq<T>, b: seq<T>)
    decreases |b|
  {
    if a == [] then true
    else if b == [] then false
    else if a[|a| - 1] == b[|b| - 1] then IsSubseq(a[..|a| - 1], b[..|b| - 1])
    else IsSubseq(a, b[..|b| - 1])
  }

  lemma TagsAppend(a: seq<TaskRec>, b: seq<TaskRec>)
    ensures Tags(a + b) == Tags(a) + Tags(b)
    decreases |b|
  {
    if b == [] {
      assert a + b == a;
    } else {
      assert (a + b)[..|a + b| - 1] == a + b[..|b| - 1];
      TagsAppend(a, b[..|b| - 1]);
    }
  }

  // ---------------------------------------------------------------------------
  // Arrivals

  /** Walking one more ledger entry: it stays when it has not arrived. */
  lemma WaitingPush(p: seq<TaskRec>, r: TaskRec, now: u32)
    ensures Waiting(p + [r], now) == Waiting(p, now) + (if Due(r, now) then [] else [r])
  {
    assert (p + [r])[..|p|] == p;
  }

  /** Walking one more ledger entry: level `k` gains it, stamped, when it has arrived and belongs there. */
  lemma AdmittedPush(p: seq<TaskRec>, r: TaskRec, now: u32, k: nat)
    ensures Admitted(p + [r], now, k) == Admitted(p, now, k) + (if Due(r, now) && r.priority == k then [Admit(r, now)] else [])
  {
    assert (p + [r])[..|p|] == p;
  }

  /** A ledger entry stays in the ledger exactly when it has not arrived. */
  lemma {:induction false} WaitingIff(p: seq<TaskRec>, now: u32, r: TaskRec)
    ensures r in Waiting(p, now) <==> r in p && !Due(r, now)
  {
    if p != [] {
      WaitingIff(p[..|p| - 1], now, r);
      assert p == p[..|p| - 1] + [p[|p| - 1]];
    }
  }

  /** A task enters level k exactly when it was in the ledger, has arrived and has priority k; it is stamped on the way. */
  lemma {:induction false} AdmittedIff(p: seq<TaskRec>, now: u32, k: nat, x: TaskRec)
    ensures x in Admitted(p, now, k) <==> exists r | r in p :: Due(r, now) && r.priority == k && x == Admit(r, now)
  {
    if p != [] {
      var init, last := p[..|p| - 1], p[|p| - 1];
      assert p == init + [last];
      AdmittedIff(init, now, k, x);
      if x in Admitted(p, now, k) {
        if x !in Admitted(init, now, k) {
          assert Due(last, now) && last.priority == k && x == Admit(last, now);
        }
      }
    }
  }

  /** Every arrived task enters a queue or is dropped; every other task stays; no task is duplicated or lost. */
  lemma {:induction false} LedgerConservesTags(p: seq<TaskRec>, now: u32)
    ensures Tags(Waiting(p, now)) + AdmittedTags(p, now, LEVELS) + Tags(Dropped(p, now)) == Tags(p)
  {
    if p != [] {
      var init, last := p[..|p| - 1], p[|p| - 1];
      var x := multiset{TagOf(last)};
      var w, a, d := Tags(Waiting(init, now)), AdmittedTags(init, now, LEVELS), Tags(Dropped(init, now));
      assert w + a + d == Tags(init) by { LedgerConservesTags(init, now); }
      assert Tags(p) == Tags(init) + x;
      var w', a', d' := Tags(Waiting(p, now)), AdmittedTags(p, now, LEVELS), Tags(Dropped(p, now));
      if !Due(last, now) {
        assert w' == w + x && a' == a && d' == d by { LedgerTagsStep(p, now); }
        Regroup(w, a, d, x, Tags(init));
      } else if last.priority < LEVELS {
        assert w' == w && a' == a + x && d' == d by { LedgerTagsStep(p, now); }
        Regroup(w, a, d, x, Tags(init));
      } else {
        assert w' == w && a' == a && d' == d + x by { LedgerTagsStep(p, now); }
        Regroup(w, a, d, x, Tags(init));
      }
    }
  }

  lemma Regroup(w: multiset<Tag>, a: multiset<Tag>, d: multiset<Tag>, x: multiset<Tag>, total: multiset<Tag>)
    requires w + a + d == total
    ensures (w + x) + a + d == total + x
    ensures w + (a + x) + d == total + x
    ensures w + a + (d + x) == total + x
  {
  }

  lemma LedgerTagsStep(p: seq<TaskRec>, now: u32)
    requires p != []
    ensures var init, last := p[..|p| - 1], p[|p| - 1];
      && Tags(Waiting(p, now)) == Tags(Waiting(init, now)) + (if Due(last, now) then multiset{} else multiset{TagOf(last)})
      && Tags(Dropped(p, now)) == Tags(Dropped(init, now)) + (if Due(last, now) && last.priority >= LEVELS then multiset{TagOf(last)} else multiset{})
  {
    var init, last := p[..|p| - 1], p[|p| - 1];
    var w, d := Waiting(init, now), Dropped(init, now);
    assert [last][..0] == [];
    assert w + [] == w && d + [] == d;
    TagsAppend(w, if Due(last, now) then [] else [last]);
    TagsAppend(d, if Due(last, now) && last.priority >= LEVELS then [last] else []);
  }

  /** The tags a level receives from the ledger scan. */
  lemma {:induction false} AdmittedLevel(p: seq<TaskRec>, now: u32, k: nat)
    ensures Tags(Admitted(p, now, k)) == LevelTags(p, now, k)
  {
    if p != [] {
      AdmittedLevel(p[..|p| - 1], now, k);
      var a, last := Admitted(p[..|p| - 1], now, k), p[|p| - 1];
      if Due(last, now) && last.priority == k {
        assert (a + [Admit(last, now)])[..|a|] == a;
      } else {
        assert a + [] == a;
      }
    }
  }

  lemma {:induction false} AdmittedSplit(p: seq<TaskRec>, now: u32, k: nat)
    ensures AdmittedTags(p, now, k + 1) == AdmittedTags(p, now, k) + LevelTags(p, now, k)
  {
    if p != [] {
      AdmittedSplit(p[..|p| - 1], now, k);
    }
  }

  lemma {:induction false} NothingBelowZero(p: seq<TaskRec>, now: u32)
    ensures AdmittedTags(p, now, 0) == multiset{}
  {
    if p != [] {
      NothingBelowZero(p[..|p| - 1], now);
    }
  }

  /** Levels 0 .. n-1 gain exactly the arrived ledger entries of those levels. */
  lemma {:induction false} ArrivalsBankTags(s: State, n: nat)
    requires WellFormed(s) && n <= LEVELS
    ensures BankTags(Arrivals(s).queues, n) == BankTags(s.queues, n) + AdmittedTags(s.pending, s.time, n)
  {
    var qs' := Arrivals(s).queues;
    if n == 0 {
      NothingBelowZero(s.pending, s.time);
    } else {
      var k := n - 1;
      assert BankTags(qs', k) == BankTags(s.queues, k) + AdmittedTags(s.pending, s.time, k) by {
        ArrivalsBankTags(s, k);
      }
      assert Tags(qs'[k]) == Tags(s.queues[k]) + LevelTags(s.pending, s.time, k) by {
        TagsAppend(s.queues[k], Admitted(s.pending, s.time, k));
        AdmittedLevel(s.pending, s.time, k);
      }
      AdmittedSplit(s.pending, s.time, k);
      Interleave(BankTags(qs', n), BankTags(qs', k), Tags(qs'[k]),
                 BankTags(s.queues, n), BankTags(s.queues, k), Tags(s.queues[k]),
                 AdmittedTags(s.pending, s.time, n), AdmittedTags(s.pending, s.time, k), LevelTags(s.pending, s.time, k));
    }
  }

  lemma Interleave(t: multiset<Tag>, tl: multiset<Tag>, tk: multiset<Tag>,
                   u: multiset<Tag>, ul: multiset<Tag>, uk: multiset<Tag>,
                   z: multiset<Tag>, zl: multiset<Tag>, zk: multiset<Tag>)
    requires t == tl + tk && u == ul + uk && z == zl + zk
    requires tl == ul + zl && tk == uk + zk
    ensures t == u + z
  {
  }

  /**
   * `scheduler_check_arrivals` neither duplicates nor loses a task: the tags in
   * the ledger and the queues afterwards, with the dropped ones, are the tags
   * before.
   */
  lemma ArrivalsConserveTags(s: State)
    requires WellFormed(s)
    ensures var s' := Arrivals(s);
      Tags(s'.pending) + BankTags(s'.queues, LEVELS) + Tags(Dropped(s.pending, s.time)) == Tags(s.pending) + BankTags(s.queues, LEVELS)
  {
    LedgerConservesTags(s.pending, s.time);
    ArrivalsBankTags(s, LEVELS);
  }

  /** A task added to the ledger after its arrival time is moved to the tail of its level by the next scan. */
  lemma AddPendingThenArrive(s: State, r: TaskRec)
    requires WellFormed(s) && Due(r, s.time) && r.priority < LEVELS
    ensures var s' := Arrivals(AddPending(s, r));
      s'.pending == Waiting(s.pending, s.time) &&
      s'.queues[r.priority] == s.queues[r.priority] + Admitted(s.pending, s.time, r.priority) + [Admit(r, s.time)]
  {
    var p := s.pending + [r];
    assert p[..|p| - 1] == s.pending;
  }

  // ---------------------------------------------------------------------------
  // Timeouts

  /** Sweeping one more task: it is kept or evicted according to its wait. */
  lemma SweepPush(q: seq<TaskRec>, r: TaskRec, now: u32)
    ensures Survivors(q + [r], now) == Survivors(q, now) + (if Starved(r, now) then [] else [r])
    ensures Evicted(q + [r], now) == Evicted(q, now) + (if Starved(r, now) then [r] else [])
  {
    assert (q + [r])[..|q|] == q;
  }

  /** The lines printed for one more task follow the earlier ones. */
  lemma ReportsPush(rs: seq<TaskRec>, r: TaskRec, kind: EventKind, now: u32)
    ensures Reports(rs + [r], kind, now) == Reports(rs, kind, now) + [Report(r, kind, now)]
  {
    assert (rs + [r])[..|rs|] == rs;
  }

  /** A task survives the sweep of its queue exactly when it has waited less than the threshold. */
  lemma {:induction false} SurvivorsIff(q: seq<TaskRec>, now: u32, r: TaskRec)
    ensures r in Survivors(q, now) <==> r in q && !Starved(r, now)
  {
    if q != [] {
      SurvivorsIff(q[..|q| - 1], now, r);
      assert q == q[..|q| - 1] + [q[|q| - 1]];
    }
  }

  /** A task is evicted from its queue exactly when it has waited at least the threshold. */
  lemma {:induction false} EvictedIff(q: seq<TaskRec>, now: u32, r: TaskRec)
    ensures r in Evicted(q, now) <==> r in q && Starved(r, now)
  {
    if q != [] {
      EvictedIff(q[..|q| - 1], now, r);
      assert q == q[..|q| - 1] + [q[|q| - 1]];
    }
  }

  /** The sweep keeps the survivors in their queue order. */
  lemma {:induction false} SurvivorsInOrder(q: seq<TaskRec>, now: u32)
    ensures IsSubseq(Survivors(q, now), q)
  {
    if q != [] {
      var init, last := q[..|q| - 1], q[|q| - 1];
      SurvivorsInOrder(init, now);
      if !Starved(last, now) {
        assert (Survivors(init, now) + [last])[..|Survivors(init, now)|] == Survivors(init, now);
      } else {
        assert Survivors(q, now) == Survivors(init, now);
        SubseqOfLonger(Survivors(init, now), init, last);
      }
    }
  }

  lemma {:induction false} SubseqOfLonger<T>(a: seq<T>, b: seq<T>, x: T)
    requires IsSubseq(a, b)
    ensures IsSubseq(a, b + [x])
    decreases |b|, 1
  {
    var b' := b + [x];
    assert b'[..|b'| - 1] == b;
    if a != [] && a[|a| - 1] == x {
      SubseqDropLast(a, b);
    }
  }

  lemma {:induction false} SubseqDropLast<T>(a: seq<T>, b: seq<T>)
    requires a != [] && IsSubseq(a, b)
    ensures IsSubseq(a[..|a| - 1], b)
    decreases |b|, 0
  {
    var a' := a[..|a| - 1];
    if a[|a| - 1] == b[|b| - 1] {
      if a' != [] {
        SubseqOfLonger(a', b[..|b| - 1], b[|b| - 1]);
        assert b[..|b| - 1] + [b[|b| - 1]] == b;
      }
    } else {
      SubseqDropLast(a, b[..|b| - 1]);
      if a' != [] {
        SubseqOfLonger(a', b[..|b| - 1], b[|b| - 1]);
        assert b[..|b| - 1] + [b[|b| - 1]] == b;
      }
    }
  }

  /** Survivors and evicted tasks together are the queue: no task is lost or duplicated by the sweep. */
  lemma {:induction false} SweepConservesTags(q: seq<TaskRec>, now: u32)
    ensures Tags(Survivors(q, now)) + Tags(Evicted(q, now)) == Tags(q)
  {
    if q != [] {
      var init, last := q[..|q| - 1], q[|q| - 1];
      SweepConservesTags(init, now);
      if Starved(last, now) {
        assert Survivors(q, now) == Survivors(init, now);
        TagsAppend(Evicted(init, now), [last]);
      } else {
        assert Evicted(q, now) == Evicted(init, now);
        TagsAppend(Survivors(init, now), [last]);
      }
    }
  }

  /** No task at a non-real-time level has reached the threshold. */
  ghost predicate NoneStarved(s: State)
  {
    forall k, r | RT < k < |s.queues| && r in s.queues[k] :: !Starved(r, s.time)
  }

  lemma {:induction false} SurvivorsOfFresh(q: seq<TaskRec>, now: u32)
    requires forall r | r in q :: !Starved(r, now)
    ensures Survivors(q, now) == q && Evicted(q, now) == []
  {
    if q != [] {
      var init, last := q[..|q| - 1], q[|q| - 1];
      assert q == init + [last];
      assert !Starved(last, now) by { assert last in q; }
      forall r | r in init
        ensures !Starved(r, now)
      {
        assert r in q;
      }
      SurvivorsOfFresh(init, now);
      assert Survivors(q, now) == Survivors(init, now) + [last];
      assert Evicted(q, now) == Evicted(init, now);
    }
  }

  lemma {:induction false} SweepLogOfFresh(qs: seq<seq<TaskRec>>, now: u32, n: nat)
    requires n <= |qs|
    requires forall k, r | RT < k < n && r in qs[k] :: !Starved(r, now)
    ensures SweepLog(qs, now, n) == []
  {
    if n > 1 {
      SweepLogOfFresh(qs, now, n - 1);
      SurvivorsOfFresh(qs[n - 1], now);
    }
  }

  /** When nothing has starved, the sweep changes nothing and prints nothing. */
  lemma SweepOfFreshIsNoOp(s: State)
    requires NoneStarved(s)
    ensures Timeouts(s) == s
  {
    SweepLogOfFresh(s.queues, s.time, |s.queues|);
    forall k | 0 <= k < |s.queues|
      ensures Timeouts(s).queues[k] == s.queues[k]
    {
      if k != RT {
        SurvivorsOfFresh(s.queues[k], s.time);
      }
    }
  }

  /** After the sweep no task at a non-real-time level has reached the threshold. */
  lemma SweepLeavesNoneStarved(s: State)
    ensures NoneStarved(Timeouts(s))
  {
    forall k, r | RT < k < |s.queues| && r in Timeouts(s).queues[k]
      ensures !Starved(r, s.time)
    {
      SurvivorsIff(s.queues[k], s.time, r);
    }
  }

  /** A second sweep at the same time does nothing. */
  lemma SweepIdempotent(s: State)
    ensures Timeouts(Timeouts(s)) == Timeouts(s)
  {
    SweepLeavesNoneStarved(s);
    SweepOfFreshIsNoOp(Timeouts(s));
  }

  lemma {:induction false} SweepLogHasLevel(qs: seq<seq<TaskRec>>, now: u32, n: nat, k: nat, r: TaskRec)
    requires n <= |qs| && RT < k < n && r in Evicted(qs[k], now)
    ensures Report(r, Timeout, now) in SweepLog(qs, now, n)
  {
    var before := SweepLog(qs, now, n - 1);
    var ev := Evicted(qs[n - 1], now);
    var rep := Reports(ev, Timeout, now);
    assert SweepLog(qs, now, n) == before + rep;
    if k == n - 1 {
      var i :| 0 <= i < |ev| && ev[i] == r;
      assert rep[i] == Report(r, Timeout, now);
      assert Report(r, Timeout, now) in rep;
    } else {
      SweepLogHasLevel(qs, now, n - 1, k, r);
    }
  }

  /** A starved task at a non-real-time level leaves its queue and one TIMEOUT line, showing 0 remaining, is printed for it. */
  lemma StarvedTaskIsEvicted(s: State, k: nat, r: TaskRec)
    requires RT < k < |s.queues| && r in s.queues[k] && Starved(r, s.time)
    ensures r !in Timeouts(s).queues[k]
    ensures Event(s.time, Timeout, r.id, r.priority, 0) in Timeouts(s).log
  {
    SurvivorsIff(s.queues[k], s.time, r);
    EvictedIff(s.queues[k], s.time, r);
    SweepLogHasLevel(s.queues, s.time, |s.queues|, k, r);
  }

  /** The tags present in the bank after a sweep are those before it minus the evicted ones. */
  lemma {:induction false} SweepBankTags(qs: seq<seq<TaskRec>>, qs': seq<seq<TaskRec>>, now: u32, n: nat)
    requires n <= |qs| == |qs'|
    requires |qs| > RT && qs'[RT] == qs[RT]
    requires forall k | RT < k < |qs| :: qs'[k] == Survivors(qs[k], now)
    ensures BankTags(qs', n) + EvictedTags(qs, now, n) == BankTags(qs, n)
  {
    if n > 0 {
      SweepBankTags(qs, qs', now, n - 1);
      if n - 1 != RT {
        SweepConservesTags(qs[n - 1], now);
      }
    }
  }

  /** The tags evicted from levels 1 .. n-1. */
  function EvictedTags(qs: seq<seq<TaskRec>>, now: u32, n: nat): multiset<Tag>
    requires n <= |qs|
  {
    if n <= 1 then multiset{} else EvictedTags(qs, now, n - 1) + Tags(Evicted(qs[n - 1], now))
  }

  // ---------------------------------------------------------------------------
  // Selection

  /** `FirstReady` is the level that a linear scan from `from` stops at. */
  lemma {:induction false} FirstReadyIs(qs: seq<seq<TaskRec>>, from: nat, k: nat)
    requires from <= k <= |qs|
    requires forall j | from <= j < k :: qs[j] == []
    requires k < |qs| ==> qs[k] != []
    ensures FirstReady(qs, from) == k
    decreases k - from
  {
    if from < k {
      FirstReadyIs(qs, from + 1, k);
    }
  }

  /** A ready real-time task is always chosen before any other level is looked at. */
  lemma RealTimeFirst(s: State)
    requires WellFormed(s) && s.queues[RT] != []
    ensures NextTask(s).0 == Some(s.queues[RT][0])
    ensures NextTask(s).1.queues == s.queues[RT := s.queues[RT][1..]]
  {
  }
}

/**
 * The priority queue bank and the arrival ledger of scheduler.c.
 *
 * `PriorityQueue_t` is embedded by value in `Scheduler_t`, so it is the
 * datatype `Queue`; `Scheduler_t` is the class `Scheduler`, whose routines
 * update its fields in place. A chain of `next` links is represented by the
 * sequence of the records it visits: the successor of `items[i]` is
 * `items[i + 1]`, and the last record's link is NULL. A `head`, `tail` or
 * `current_task` pointer is the record it points to, or `None` for NULL.
 *
 * Each routine is proved to change the scheduler exactly as the
 * corresponding function of the value model `Mlfq` changes a `State`.
 */
module Scheduler {
  import opened Tasks
  import opened Mlfq
  import MlfqFacts

  /** The record a pointer to the first element of `rs` designates, or NULL. */
  function First(rs: seq<TaskRec>): Option<TaskRec>
  {
    if rs == [] then None else Some(rs[0])
  }

  /** The record a pointer to the last element of `rs` designates, or NULL. */
  function Last(rs: seq<TaskRec>): Option<TaskRec>
  {
    if rs == [] then None else Some(rs[|rs| - 1])
  }

  // ---------------------------------------------------------------------------
  // PriorityQueue_t and its routines

  /** `PriorityQueue_t`: `items` is the chain from `head` to `tail`. */
  datatype Queue = Queue(head: Option<TaskRec>, tail: Option<TaskRec>, count: nat, items: seq<TaskRec>)

  /** `head`, `tail` and `count` agree with the chain; both ends are NULL exactly when it is empty. */
  predicate QueueOk(q: Queue)
  {
    q.count == |q.items| && q.head == First(q.items) && q.tail == Last(q.items)
  }

  /** `queue_init` */
  function EmptyQueue(): (q: Queue)
    ensures QueueOk(q) && q.items == []
  {
    Queue(None, None, 0, [])
  }

  /** `queue_is_empty` */
  function QueueIsEmpty(q: Queue): (b: bool)
    requires QueueOk(q)
    ensures b <==> q.items == []
  {
    q.head == None
  }

  /**
   * `queue_enqueue`: the task becomes the new tail, linked after the old
   * one, and the count rises by one; a NULL task changes nothing.
   */
  function Enqueue(q: Queue, t: Option<TaskRec>): (r: Queue)
    requires QueueOk(q)
    ensures QueueOk(r)
    ensures t == None ==> r == q
    ensures t != None ==> r.items == q.items + [t.value] && r.count == q.count + 1 && r.tail == t
    ensures t != None && q.items != [] ==> r.head == q.head
  {
    match t
    case None => q
    case Some(task) =>
      if q.head == None then Queue(t, t, 1, [task])
      else Queue(q.head, t, q.count + 1, q.items + [task])
  }

  /**
   * `queue_dequeue`: the head is returned and its successor becomes the
   * head, the count falls by one and the tail is cleared when nothing is
   * left. An empty queue yields NULL and is left as it is.
   */
  function Dequeue(q: Queue): (r: (Option<TaskRec>, Queue))
    requires QueueOk(q)
    ensures QueueOk(r.1)
    ensures q.items == [] ==> r.0 == None && r.1 == q
    ensures q.items != [] ==> r.0 == Some(q.items[0]) && r.1.items == q.items[1..] && r.1.count == q.count - 1
  {
    if q.head == None then (None, q)
    else
      var head := First(q.items[1..]);
      (q.head, Queue(head, if head == None then None else q.tail, q.count - 1, q.items[1..]))
  }

  /** The bookkeeping fields of a well-formed queue are determined by its chain. */
  lemma QueueDeterminedByItems(a: Queue, b: Queue)
    requires QueueOk(a) && QueueOk(b) && a.items == b.items
    ensures a == b
  {
  }

  /** FIFO: taking the head after adding at the tail is adding at the tail after taking the head. */
  lemma DequeueEnqueue(q: Queue, t: TaskRec)
    requires QueueOk(q)
    ensures q.items == [] ==> Dequeue(Enqueue(q, Some(t))) == (Some(t), EmptyQueue())
    ensures q.items != [] ==> Dequeue(Enqueue(q, Some(t))) == (q.head, Enqueue(Dequeue(q).1, Some(t)))
  {
    if q.items != [] {
      QueueDeterminedByItems(Dequeue(Enqueue(q, Some(t))).1, Enqueue(Dequeue(q).1, Some(t)));
    }
  }

  /** A walk moving on by one entry: the entry passes from the unvisited part to the visited one. */
  lemma MoveHead<T>(seen: seq<T>, rest: seq<T>)
    requires rest != []
    ensures (seen + [rest[0]]) + rest[1..] == seen + rest
  {
  }

  /**
   * The walk state of the timeout sweep: `kept` is the chain up to and
   * including `prev`, `rest` the chain from `curr` on, and `head`, `tail` and
   * `count` describe the queue they form together.
   */
  predicate Linked(head: Option<TaskRec>, tail: Option<TaskRec>, count: nat, prev: Option<TaskRec>,
                   kept: seq<TaskRec>, rest: seq<TaskRec>)
  {
    QueueOk(Queue(head, tail, count, kept + rest)) && prev == Last(kept)
  }

  /**
   * Unlinking `curr`: at the head when there is no `prev`, else after it;
   * the tail moves back to `prev` when `curr` was last; one fewer task.
   */
  lemma UnlinkCurrent(head: Option<TaskRec>, tail: Option<TaskRec>, count: nat, prev: Option<TaskRec>,
                      kept: seq<TaskRec>, rest: seq<TaskRec>)
    requires Linked(head, tail, count, prev, kept, rest) && rest != []
    ensures count > 0
    ensures var next := First(rest[1..]);
            Linked(if prev == None then next else head, if next == None then prev else tail,
                   count - 1, prev, kept, rest[1..])
  {
    assert kept + rest == kept + [rest[0]] + rest[1..];
  }

  /** Keeping `curr`: it becomes `prev`. */
  lemma KeepCurrent(head: Option<TaskRec>, tail: Option<TaskRec>, count: nat, prev: Option<TaskRec>,
                    kept: seq<TaskRec>, rest: seq<TaskRec>)
    requires Linked(head, tail, count, prev, kept, rest) && rest != []
    ensures Linked(head, tail, count, Some(rest[0]), kept + [rest[0]], rest[1..])
  {
    assert kept + rest == (kept + [rest[0]]) + rest[1..];
  }

  /**
   * One iteration of the level loop of `scheduler_check_timeouts`: the chain
   * is walked with `prev` and `curr`; a task that has waited at least the
   * threshold is reported and unlinked, the others are kept in order. The
   * queue left behind and the TIMEOUT lines are returned.
   */
  method SweepQueue(q: Queue, now: u32) returns (r: Queue, lines: seq<Event>)
    requires QueueOk(q)
    ensures QueueOk(r)
    ensures r.items == Survivors(q.items, now)
    ensures lines == Reports(Evicted(q.items, now), Timeout, now)
  {
    if q.head == None {
      return q, [];
    }
    var head, tail, count := q.head, q.tail, q.count;
    var prev: Option<TaskRec> := None;
    var kept: seq<TaskRec> := [];
    var rest := q.items;
    ghost var seen: seq<TaskRec> := [];
    lines := [];
    while rest != []
      invariant q.items == seen + rest
      invariant Linked(head, tail, count, prev, kept, rest)
      invariant kept == Survivors(seen, now)
      invariant lines == Reports(Evicted(seen, now), Timeout, now)
      decreases |rest|
    {
      var curr := rest[0];
      var next := First(rest[1..]);
      MoveHead(seen, rest);
      MlfqFacts.SweepPush(seen, curr, now);
      if Starved(curr, now) {
        MlfqFacts.ReportsPush(Evicted(seen, now), curr, Timeout, now);
        lines := lines + [Report(curr, Timeout, now)];
        UnlinkCurrent(head, tail, count, prev, kept, rest);
        if prev == None {
          head := next;
        }
        if next == None {
          tail := prev;
        }
        count := count - 1;
      } else {
        KeepCurrent(head, tail, count, prev, kept, rest);
        prev := Some(curr);
        kept := kept + [curr];
      }
      seen := seen + [curr];
      rest := rest[1..];
    }
    assert seen == q.items;
    r := Queue(head, tail, count, kept);
  }

  /** Twenty well-formed queues. */
  predicate BankOk(bank: seq<Queue>)
  {
    |bank| == LEVELS && forall k | 0 <= k < LEVELS :: QueueOk(bank[k])
  }

  /** `bank'` is `bank` after the arrived entries of `seen` have joined their levels. */
  predicate MergedSoFar(bank': seq<Queue>, bank: seq<Queue>, seen: seq<TaskRec>, now: u32)
  {
    BankOk(bank') && |bank| == LEVELS &&
    forall k | 0 <= k < LEVELS :: bank'[k].items == bank[k].items + Admitted(seen, now, k)
  }

  /** The bank after ledger entry `r` has been considered. */
  function Arrive(bank: seq<Queue>, r: TaskRec, now: u32): seq<Queue>
    requires BankOk(bank)
  {
    if Due(r, now) && r.priority < LEVELS then bank[r.priority := Enqueue(bank[r.priority], Some(Admit(r, now)))]
    else bank
  }

  lemma ArriveStep(bank': seq<Queue>, bank: seq<Queue>, seen: seq<TaskRec>, r: TaskRec, now: u32)
    requires MergedSoFar(bank', bank, seen, now)
    ensures MergedSoFar(Arrive(bank', r, now), bank, seen + [r], now)
  {
    var b := Arrive(bank', r, now);
    forall k | 0 <= k < LEVELS
      ensures QueueOk(b[k]) && b[k].items == bank[k].items + Admitted(seen + [r], now, k)
    {
      MlfqFacts.AdmittedPush(seen, r, now, k);
      if Due(r, now) && r.priority == k {
        assert b[k] == Enqueue(bank'[k], Some(Admit(r, now)));
      } else {
        assert b[k] == bank'[k];
      }
    }
  }

  /**
   * The walk of `scheduler_check_arrivals` over the ledger `p`: each task
   * whose arrival time has come is unlinked, stamped (creation time if still
   * 0, wait start) and appended to the queue of its level, or to none when
   * its level is out of range. The bank and the remaining ledger are returned.
   */
  method WalkLedger(bank: seq<Queue>, p: seq<TaskRec>, now: u32) returns (bank': seq<Queue>, kept: seq<TaskRec>)
    requires BankOk(bank)
    ensures BankOk(bank')
    ensures Chains(bank') == Merged(Chains(bank), p, now)
    ensures kept == Waiting(p, now)
  {
    bank' := bank;
    kept := [];
    var rest := p;
    ghost var seen: seq<TaskRec> := [];
    while rest != []
      invariant p == seen + rest
      invariant kept == Waiting(seen, now)
      invariant MergedSoFar(bank', bank, seen, now)
      decreases |rest|
    {
      var current := rest[0];
      MoveHead(seen, rest);
      ArriveStep(bank', bank, seen, current, now);
      MlfqFacts.WaitingPush(seen, current, now);
      if Due(current, now) {
        var task := current;
        if task.creationTime == 0 {
          task := task.(creationTime := now);
        }
        task := task.(absWaitStart := now);
        assert task == Admit(current, now);
        if task.priority < LEVELS as u32 {
          bank' := bank'[task.priority := Enqueue(bank'[task.priority], Some(task))];
        }
      } else {
        kept := kept + [current];
      }
      seen := seen + [current];
      rest := rest[1..];
    }
    assert seen == p;
  }

  /** `bank'` is `bank` after levels 1 .. level-1 have been swept. */
  predicate SweptSoFar(bank': seq<Queue>, bank: seq<Queue>, now: u32, level: nat)
  {
    BankOk(bank') && |bank| == LEVELS &&
    forall k | 0 <= k < LEVELS ::
      bank'[k].items == if RT < k < level then Survivors(bank[k].items, now) else bank[k].items
  }

  lemma SweepStep(bank': seq<Queue>, bank: seq<Queue>, now: u32, level: nat, q: Queue)
    requires SweptSoFar(bank', bank, now, level) && RT < level < LEVELS
    requires QueueOk(q) && q.items == Survivors(bank'[level].items, now)
    ensures SweptSoFar(bank'[level := q], bank, now, level + 1)
  {
  }

  /** Once every level has been considered, the bank is the swept bank. */
  lemma SweptAll(bank': seq<Queue>, bank: seq<Queue>, now: u32)
    requires SweptSoFar(bank', bank, now, LEVELS)
    ensures Chains(bank') == Swept(Chains(bank), now)
  {
  }

  /**
   * The level loop of `scheduler_check_timeouts`: levels 1 .. 19 are swept
   * in order (the real-time level is skipped), and the TIMEOUT lines are
   * returned level by level.
   */
  method SweepBank(bank: seq<Queue>, now: u32) returns (bank': seq<Queue>, lines: seq<Event>)
    requires BankOk(bank)
    ensures BankOk(bank')
    ensures Chains(bank') == Swept(Chains(bank), now)
    ensures lines == SweepLog(Chains(bank), now, LEVELS)
  {
    bank' := bank;
    lines := [];
    var level := RT + 1;
    while level < LEVELS
      invariant RT + 1 <= level <= LEVELS
      invariant SweptSoFar(bank', bank, now, level)
      invariant lines == SweepLog(Chains(bank), now, level)
    {
      assert bank'[level].items == Chains(bank)[level];
      var q, timedOut := SweepQueue(bank'[level], now);
      SweepStep(bank', bank, now, level, q);
      bank' := bank'[level := q];
      lines := lines + timedOut;
      level := level + 1;
    }
    SweptAll(bank', bank, now);
  }

  // ---------------------------------------------------------------------------
  // Scheduler_t

  /** The chains of the bank, level by level. */
  function Chains(qs: seq<Queue>): (cs: seq<seq<TaskRec>>)
    ensures |cs| == |qs|
    ensures forall k | 0 <= k < |qs| :: cs[k] == qs[k].items
  {
    seq(|qs|, k requires 0 <= k < |qs| => qs[k].items)
  }

  /**
   * `Scheduler_t` without its mutex: the bank (index = level), the ledger
   * that starts at `pending_tasks`, the virtual clock, the dispatched task,
   * the id counter, and the lines printed so far.
   */
  class Scheduler {
    var queues: seq<Queue>
    var pending: seq<TaskRec>
    var currentTime: u32
    var currentTask: Option<TaskRec>
    var taskCounter: u32
    var log: seq<Event>

    /** Twenty queues whose `head`, `tail` and `count` agree with their chains. */
    ghost predicate Valid()
      reads this
    {
      |queues| == LEVELS && forall k | 0 <= k < LEVELS :: QueueOk(queues[k])
    }

    /** The value of the whole scheduler state. */
    ghost function Abs(): (s: State)
      reads this
      requires Valid()
      ensures WellFormed(s)
    {
      State(Chains(queues), pending, currentTime, currentTask, taskCounter, log)
    }

    /** `scheduler_init` */
    constructor ()
      ensures Valid()
      ensures forall k | 0 <= k < LEVELS :: queues[k] == EmptyQueue()
      ensures Abs() == Init()
    {
      var bank: seq<Queue> := [];
      while |bank| < LEVELS
        invariant |bank| <= LEVELS
        invariant forall k | 0 <= k < |bank| :: bank[k] == EmptyQueue()
      {
        bank := bank + [EmptyQueue()];
      }
      queues := bank;
      currentTime := 0;
      currentTask := None;
      taskCounter := 0;
      pending := [];
      log := [];
      new;
      assert Abs().queues == Init().queues;
    }

    /** `scheduler_is_empty` */
    function IsEmpty(): (b: bool)
      reads this
      requires Valid()
      ensures b == Mlfq.IsEmpty(Abs())
    {
      (forall k | 0 <= k < LEVELS :: QueueIsEmpty(queues[k])) && pending == []
    }

    /**
     * `scheduler_add_task`: a task with a level in range joins the tail of
     * that level; NULL is ignored. The scheduler owns the record from then on.
     */
    method AddTask(t: Task?)
      requires Valid()
      modifies this
      ensures Valid()
      ensures t == null ==> Abs() == old(Abs())
      ensures t != null ==> Abs() == Mlfq.AddTask(old(Abs()), t.Rec())
    {
      if t == null {
        return;
      }
      if t.priority < LEVELS as u32 {
        queues := queues[t.priority := Enqueue(queues[t.priority], Some(t.Rec()))];
      }
    }

    /**
     * `scheduler_add_pending_task`: the ledger is walked to its last entry
     * and the task is linked after it; NULL is ignored.
     */
    method AddPendingTask(t: Task?)
      requires Valid()
      modifies this
      ensures Valid()
      ensures t == null ==> Abs() == old(Abs())
      ensures t != null ==> Abs() == AddPending(old(Abs()), t.Rec())
    {
      if t == null {
        return;
      }
      if pending == [] {
        pending := [t.Rec()];
      } else {
        // the walk along `next` to the last entry (scheduler.c:119-120)
        var current := 0;
        while current + 1 < |pending|
          invariant 0 <= current < |pending|
        {
          current := current + 1;
        }
        assert current == |pending| - 1;
        // `current->next = task`: every entry up to the last is kept, the task follows it
        pending := pending[..current + 1] + [t.Rec()];
      }
    }

    /** `scheduler_check_arrivals` */
    method CheckArrivals()
      requires Valid()
      modifies this
      ensures Valid()
      ensures Abs() == Arrivals(old(Abs()))
    {
      queues, pending := WalkLedger(queues, pending, currentTime);
    }

    /** `scheduler_check_timeouts` */
    method CheckTimeouts()
      requires Valid()
      modifies this
      ensures Valid()
      ensures Abs() == Timeouts(old(Abs()))
    {
      var lines;
      queues, lines := SweepBank(queues, currentTime);
      log := log + lines;
    }

    /**
     * `scheduler_get_next_task`: the head of the real-time level if there is
     * one, else the head of the first non-empty level among 1 .. 19; NULL
     * when every queue is empty.
     */
    method GetNextTask() returns (t: Option<TaskRec>)
      requires Valid()
      modifies this
      ensures Valid()
      ensures (t, Abs()) == NextTask(old(Abs()))
    {
      ghost var R := Abs();
      var level := RT;
      if QueueIsEmpty(queues[RT]) {
        level := RT + 1;
        while level < LEVELS
          invariant RT + 1 <= level <= LEVELS
          invariant forall j | RT + 1 <= j < level :: R.queues[j] == []
        {
          if !QueueIsEmpty(queues[level]) {
            break;
          }
          level := level + 1;
        }
        MlfqFacts.FirstReadyIs(R.queues, RT + 1, level);
      }
      if level == LEVELS {
        return None;
      }
      var taken := Dequeue(queues[level]);
      queues := queues[level := taken.1];
      t := taken.0;
      assert Chains(queues) == R.queues[level := R.queues[level][1..]];
    }

    /**
     * `scheduler_demote_task` on the dispatched task: one level down, except
     * for the real-time level and the last level; NULL is ignored. The
     * FreeRTOS priority change has no effect on the model.
     */
    method DemoteTask()
      modifies this
      ensures currentTask == if old(currentTask) == None then None
                             else Some(old(currentTask).value.(priority := Demoted(old(currentTask).value.priority)))
      ensures queues == old(queues) && pending == old(pending) && currentTime == old(currentTime)
      ensures taskCounter == old(taskCounter) && log == old(log)
    {
      if currentTask == None {
        return;
      }
      var task := currentTask.value;
      if task.priority == RT as u32 {
        return;
      }
      if task.priority < LEVELS as u32 - 1 {
        currentTask := Some(task.(priority := task.priority + 1));
      }
    }
  }
}

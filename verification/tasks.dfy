/**
 * The task record of the MLFQ simulator (`Task_t` in scheduler.h) and its
 * construction (`task_create` in tasks.c).
 *
 * Every integer field of `Task_t` is a `uint32_t`; `u32` keeps that range.
 */
module Tasks {

  /** 2^32: one past the largest `uint32_t`. */
  const U32_LIMIT: int := 0x1_0000_0000

  type u32 = x: int | 0 <= x < 0x1_0000_0000

  /**
   * The FreeRTOS execution unit behind `task_handle`, reduced to its state:
   * `NoUnit` is a NULL handle, `Active` a created or resumed unit and
   * `Paused` a suspended one. A unit released by `vTaskDelete` belongs to a
   * record that is no longer reachable, so it needs no state of its own.
   */
  datatype Unit = NoUnit | Active | Paused

  /**
   * The value of every `Task_t` field that the scheduler reads or writes. The
   * `next` link is not a field here: a task's successor is the next entry of
   * the sequence that holds it (see module Scheduler).
   */
  datatype TaskRec = TaskRec(
    id: u32,
    arrivalTime: u32,
    priority: u32,
    totalDuration: u32,
    remainingTime: u32,
    startTime: u32,
    absWaitStart: u32,
    creationTime: u32,
    isRunning: bool,
    unit: Unit)

  /** The record `task_create` fills in for a new task. */
  function NewRec(id: u32, arrivalTime: u32, priority: u32, duration: u32): TaskRec
  {
    TaskRec(id, arrivalTime, priority, duration, duration, 0, arrivalTime, 0, false, NoUnit)
  }

  /**
   * The heap record `task_create` allocates. The containers of module
   * Scheduler take a copy, the value `Rec()`, when the record is handed to
   * them, and every later update is made to that copy; the object itself is
   * not touched again, so its fields are fixed at construction.
   */
  class Task {
    const id: u32
    const arrivalTime: u32
    const totalDuration: u32
    const priority: u32
    const remainingTime: u32
    const startTime: u32
    const absWaitStart: u32
    const creationTime: u32
    const isRunning: bool
    const unit: Unit

    /** The current value of this record. */
    function Rec(): TaskRec
      reads this
    {
      TaskRec(id, arrivalTime, priority, totalDuration, remainingTime, startTime,
              absWaitStart, creationTime, isRunning, unit)
    }

    /** The field assignments of `task_create`. */
    constructor (id: u32, arrivalTime: u32, priority: u32, duration: u32)
      ensures this.id == id && this.arrivalTime == arrivalTime && this.priority == priority
      ensures totalDuration == duration && remainingTime == duration
      ensures creationTime == 0 && startTime == 0 && absWaitStart == arrivalTime
      ensures unit == NoUnit && !isRunning
      ensures Rec() == NewRec(id, arrivalTime, priority, duration)
    {
      this.id := id;
      this.arrivalTime := arrivalTime;
      this.priority := priority;
      this.totalDuration := duration;
      this.remainingTime := duration;
      this.creationTime := 0;
      this.startTime := 0;
      this.absWaitStart := arrivalTime;
      this.unit := NoUnit;
      this.isRunning := false;
    }
  }

  /**
   * `task_create`. Whether `malloc` succeeds is not decided here, so it is the
   * parameter `mallocOk`: on failure no record exists and NULL is returned.
   */
  method Create(id: u32, arrivalTime: u32, priority: u32, duration: u32, mallocOk: bool)
    returns (t: Task?)
    ensures t == null <==> !mallocOk
    ensures t != null ==> fresh(t) && t.Rec() == NewRec(id, arrivalTime, priority, duration)
  {
    if !mallocOk {
      return null;
    }
    t := new Task(id, arrivalTime, priority, duration);
  }
}

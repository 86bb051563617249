/** The serial task queue of core.js: `async.queue` with concurrency 1 and
    the worker that decides when a task is done, plus `defer`. */
module Queue {
  import opened Values

  /** What a deferred task holds, as the worker tells it apart: not a
      function at all, a function of no arguments, or a function taking the
      `next` callback. */
  datatype Kind = NotAFunction | NoArgs | TakesNext

  datatype Task = Task(name: string, kind: Kind)

  /** A task is finished as soon as the worker starts it unless it takes
      `next`, in which case it is finished when it calls `next`. */
  predicate CompletesAtOnce(k: Kind) {
    k != TakesNext
  }

  class TaskQueue {
    var waiting: seq<Task>
    var running: Option<Task>
    /** Every task ever deferred, and every task ever started, in order. */
    ghost var deferred: seq<Task>
    ghost var started: seq<Task>

    /** FIFO and concurrency 1: tasks start in the order they were
        deferred, and the only task in flight is the last one started, one
        that waits for `next`. */
    ghost predicate Valid()
      reads this
    {
      && deferred == started + waiting
      && (running.Some? ==> |started| > 0 && running.value == started[|started| - 1]
                            && running.value.kind == TakesNext)
    }

    /** Nothing waiting and nothing in flight: the moment `drain` fires. */
    predicate Idle()
      reads this
    {
      waiting == [] && running.None?
    }

    constructor ()
      ensures Valid() && Idle() && deferred == [] && started == []
    {
      waiting, running := [], None;
      deferred, started := [], [];
    }

    /** `defer(func, name)`: append, never run in the caller. */
    method Defer(t: Task)
      requires Valid()
      modifies this
      ensures Valid()
      ensures waiting == old(waiting) + [t] && running == old(running)
      ensures deferred == old(deferred) + [t] && started == old(started)
    {
      waiting := waiting + [t];
      deferred := deferred + [t];
    }

    /** The queue hands the head task to the worker when none is in flight.
        A task that does not take `next` is finished at once; one that does
        stays in flight. With a task in flight, or nothing waiting, nothing
        happens. */
    method StartNext() returns (t: Option<Task>)
      requires Valid()
      modifies this
      ensures Valid()
      ensures (old(running).Some? || old(waiting) == []) ==>
                t.None? && waiting == old(waiting) && running == old(running) && started == old(started)
      ensures (old(running).None? && old(waiting) != []) ==>
                && t == Some(old(waiting)[0])
                && waiting == old(waiting)[1..]
                && started == old(started) + [old(waiting)[0]]
                && running == (if CompletesAtOnce(old(waiting)[0].kind) then None else t)
      ensures deferred == old(deferred)
    {
      if running.Some? || waiting == [] {
        return None;
      }
      var head := waiting[0];
      waiting := waiting[1..];
      started := started + [head];
      t := Some(head);
      if CompletesAtOnce(head.kind) {
        running := None;
      } else {
        running := t;
      }
    }

    /** The in-flight task calls `next`. Calling it with nothing in flight
        is the error `async` raises for a callback called twice; it is
        reported as `false` and changes nothing. */
    method Complete() returns (ok: bool)
      requires Valid()
      modifies this
      ensures Valid()
      ensures ok == old(running).Some?
      ensures running.None? && waiting == old(waiting)
      ensures deferred == old(deferred) && started == old(started)
    {
      ok := running.Some?;
      running := None;
    }
  }

  /** A client run of two deferred tasks: the first starts at once; the
      second starts alongside it only if the first finished at once, and
      otherwise only after `next` is called, never earlier. */
  method SerialRun(a: Task, b: Task) returns (first: Option<Task>, whileFirst: Option<Task>, afterNext: Option<Task>)
    ensures first == Some(a)
    ensures whileFirst == (if a.kind == TakesNext then None else Some(b))
    ensures afterNext == (if a.kind == TakesNext then Some(b) else None)
  {
    var q := new TaskQueue();
    q.Defer(a);
    q.Defer(b);
    first := q.StartNext();
    whileFirst := q.StartNext();
    var ok := q.Complete();
    afterNext := q.StartNext();
  }
}

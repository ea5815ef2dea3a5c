/** fiber_control as an object: its methods in the order of the code, each run without interruption
    proved to be the corresponding steps of the interleaved model. */
module FiberScheduler {
  import opened Options
  import opened FiberControl

  class Scheduler {
    var fibers: seq<Fiber>
    var schedule: seq<Worker>
    var events: seq<Event>
    var wakers: seq<Waker>

    constructor (workers: nat, events: nat, wakers: nat)
      ensures Now() == Start(workers, events, wakers)
    {
      fibers := [];
      schedule := seq(workers, _ => Worker(Queues([], [], [], []), None, None, None, Returning, false, 0, 0));
      this.events, this.wakers := seq(events, _ => Event(Nobody, false, None)), seq(wakers, _ => Idle);
    }

    function Now(): State
      reads this
    {
      State(fibers, schedule, events, wakers)
    }

    // ---- Queues ----

    /** An insertion and the enqueuer's read of `waiting`: the signal itself is SignalWorker. */
    function Inserted(wk: Worker, f: nat, fib: Fiber, head: bool): Worker {
      if fib.scheduleable then Looked(Insert(wk, f, fib, head)) else wk
    }

    /** An enqueuer that found `waiting` set gets active_lock, signals and lets go. */
    method SignalWorker(w: nat)
      requires Enabled(Now(), Signal(w))
      modifies `schedule
      ensures Now() == Step(old(Now()), Signal(w))
    {
      schedule := schedule[w := schedule[w].(signals := schedule[w].signals - 1)];
      if schedule[w].pc.Asleep? {
        schedule := schedule[w := schedule[w].(pc := Locking)];
      }
    }

    method ActiveQueueInsertTail(w: nat, f: nat)
      requires w < |schedule| && f < |fibers|
      modifies `schedule
      ensures schedule == old(schedule)[w := Inserted(old(schedule)[w], f, fibers[f], false)]
    {
      if fibers[f].scheduleable {
        var q := schedule[w].queues;
        q := q.(affQueue := q.affQueue + [f]);
        schedule := schedule[w := schedule[w].(queues := q)];
        if schedule[w].waiting {
          schedule := schedule[w := schedule[w].(signals := schedule[w].signals + 1)];
        }
      }
    }

    method ActiveQueueInsertHead(w: nat, f: nat)
      requires w < |schedule| && f < |fibers|
      modifies `schedule
      ensures schedule == old(schedule)[w := Inserted(old(schedule)[w], f, fibers[f], true)]
    {
      if fibers[f].scheduleable {
        var q := schedule[w].queues;
        q := q.(prioQueue := q.prioQueue + [f]);
        schedule := schedule[w := schedule[w].(queues := q)];
        if schedule[w].waiting {
          schedule := schedule[w := schedule[w].(signals := schedule[w].signals + 1)];
        }
      }
    }

    /** Takes the whole queue when the popped list is empty, then the first of the list. */
    method TryPopQueue(queue0: seq<nat>, popped0: seq<nat>)
      returns (queue: seq<nat>, popped: seq<nat>, ret: Option<nat>)
      ensures (popped, queue, ret) == TryPop(popped0, queue0)
    {
      queue, popped, ret := queue0, popped0, None;
      if popped == [] {
        popped, queue := queue, [];
      }
      if popped != [] {
        ret := Some(popped[0]);
        popped := popped[1..];
      }
    }

    method ActiveQueueRemove(w: nat) returns (ret: Option<nat>)
      requires w < |schedule|
      modifies `schedule
      ensures ret == Remove(old(schedule)[w].queues).1
      ensures schedule == old(schedule)[w := old(schedule)[w].(queues := Remove(old(schedule)[w].queues).0)]
    {
      var q := schedule[w].queues;
      var queue, popped;
      queue, popped, ret := TryPopQueue(q.prioQueue, q.prioPopped);
      q := q.(prioQueue := queue, prioPopped := popped);
      if ret.None? {
        queue, popped, ret := TryPopQueue(q.affQueue, q.affPopped);
        q := q.(affQueue := queue, affPopped := popped);
      }
      schedule := schedule[w := schedule[w].(queues := q)];
    }

    // ---- Fibers ----

    /** The caller's own worker if the fiber may run there, else any that it may run on. */
    method PickFiberWorker(f: nat, own: Option<nat>, drawn: nat) returns (choice: nat)
      requires f < |fibers| && drawn in fibers[f].affinity
      ensures choice in fibers[f].affinity
      ensures choice == if own.Some? && own.value in fibers[f].affinity then own.value else drawn
    {
      choice := drawn;
      if own.Some? && own.value in fibers[f].affinity { choice := own.value; }
    }

    /** A new fiber, which may run where the caller says and nowhere else, joins the end of a worker's line. */
    method LaunchFiber(affinity: set<nat>, own: Option<nat>, drawn: nat) returns (f: nat, choice: nat)
      requires drawn in affinity && drawn < |schedule| && (own.Some? ==> own.value < |schedule|)
      modifies this
      ensures Enabled(old(Now()), Launch(affinity, choice))
      ensures var s := Step(old(Now()), Launch(affinity, choice));
        Enabled(s, Look(choice)) && Now() == Step(s, Look(choice))
      ensures f == |old(fibers)| && |fibers| == f + 1 && fibers[..f] == old(fibers)
      ensures fibers[f].affinity == affinity && fibers[f].scheduleable && !fibers[f].descheduled && !fibers[f].terminate
      ensures choice in affinity && |schedule| == |old(schedule)|
      ensures Line(schedule[choice].queues) == Line(old(schedule)[choice].queues) + [f]
    {
      f := |fibers|;
      fibers := fibers + [Fiber(affinity, false, false, true, false, None, Free)];
      choice := PickFiberWorker(f, own, drawn);
      EnqueueLine(schedule[choice].queues, f, false);
      ActiveQueueInsertTail(choice, f);
    }

    /** On its way back to the root loop, and at its start. The flag goes up before the lock is taken. */
    method ReturnToRoot(w: nat)
      requires Enabled(Now(), RaiseFlag(w))
      modifies this
      ensures var s := Step(old(Now()), RaiseFlag(w)); Enabled(s, TakeLock(w)) && Now() == Step(s, TakeLock(w))
    {
      schedule := schedule[w := schedule[w].(waiting := true)];
      schedule := schedule[w := schedule[w].(pc := Checking)];
    }

    /** The root loop's turn: look at the queues, and sleep if there is nothing, else let go of the lock
        and clear the flag. */
    method RootLoopTurn(w: nat)
      requires Enabled(Now(), BaseRemove(w))
      modifies this
      ensures var s := Step(old(Now()), BaseRemove(w));
        if s.workers[w].pc.Asleep? then Now() == s
        else Enabled(s, ReleaseLock(w)) && var t := Step(s, ReleaseLock(w));
          Enabled(t, LowerFlag(w)) && Now() == Step(t, LowerFlag(w))
    {
      var next := ActiveQueueRemove(w);
      schedule := schedule[w := schedule[w].(hand := next)];
      if next.Some? {
        schedule := schedule[w := schedule[w].(pc := Departing)];
        schedule := schedule[w := schedule[w].(waiting := false)];
      } else {
        schedule := schedule[w := schedule[w].(pc := Asleep)];
      }
    }

    method Yield(w: nat)
      requires Enabled(Now(), YieldPop(w))
      modifies this
      ensures Now() == Step(old(Now()), YieldPop(w))
    {
      var next := ActiveQueueRemove(w);
      schedule := schedule[w := schedule[w].(hand := next, pc := Yielding)];
    }

    /** yield_to up to the context switch, from the root stack or from a fiber. */
    method SwitchTo(w: nat)
      requires Enabled(Now(), YieldTo(w)) || Enabled(Now(), BaseSwitch(w))
      modifies this
      ensures Now() == Step(old(Now()), if old(schedule)[w].pc.Departing? then BaseSwitch(w) else YieldTo(w))
    {
      var t := schedule[w];
      var next := t.hand;
      if next.Some? {
        fibers := fibers[next.value := fibers[next.value].(priority := false)];
        t := t.(prev := t.cur);
        t := t.(cur := next, hand := None);
        t := t.(pc := if t.prev.Some? then Settling else Running);
      } else if t.cur.Some? && (fibers[t.cur.value].terminate || fibers[t.cur.value].descheduled) {
        t := t.(prev := t.cur);
        t := t.(cur := None, pc := Settling);
      } else {
        t := t.(pc := Running);
      }
      schedule := schedule[w := t];
    }

    method Reinsert(w: nat, f: nat)
      requires w < |schedule| && f < |fibers|
      modifies `schedule
      ensures schedule == old(schedule)[w := Inserted(old(schedule)[w], f, fibers[f], fibers[f].priority)]
    {
      if !fibers[f].priority { ActiveQueueInsertTail(w, f); } else { ActiveQueueInsertHead(w, f); }
    }

    /** The fiber is off the CPU: its flags change over and its mutex is released. */
    method CompleteDeschedule(f: nat)
      requires f < |fibers| && (fibers[f].lock.Some? ==> fibers[f].lock.value < |events|)
      modifies `fibers, `events
      ensures fibers == old(fibers)[f := old(fibers)[f].(descheduled := false, scheduleable := false, lock := None)]
      ensures events == match old(fibers)[f].lock case None => old(events) case Some(e) =>
        old(events)[e := old(events)[e].(holder := Nobody)]
    {
      fibers := fibers[f := fibers[f].(descheduled := false)];
      fibers := fibers[f := fibers[f].(scheduleable := false)];
      var lock := fibers[f].lock;
      if lock.Some? {
        events := events[lock.value := events[lock.value].(holder := Nobody)];
      }
      fibers := fibers[f := fibers[f].(lock := None)];
    }

    /** A fiber that goes on joins a queue; one that has descheduled itself is taken off; a dead one is gone. */
    method RescheduleFiber(w: nat, f: nat)
      requires w < |schedule| && f < |fibers|
      requires fibers[f].descheduled && fibers[f].lock.Some? ==> fibers[f].lock.value < |events|
      modifies `schedule, `fibers, `events
      ensures var fib := old(fibers)[f];
        if !fib.terminate && !fib.descheduled
        then schedule == old(schedule)[w := Inserted(old(schedule)[w], f, fib, fib.priority)]
        else schedule == old(schedule)
      ensures var fib := old(fibers)[f];
        if fib.descheduled
        then fibers == old(fibers)[f := fib.(descheduled := false, scheduleable := false, lock := None)]
          && events == match fib.lock case None => old(events) case Some(e) =>
            old(events)[e := old(events)[e].(holder := Nobody)]
        else fibers == old(fibers) && events == old(events)
    {
      if !fibers[f].terminate && !fibers[f].descheduled {
        Reinsert(w, f);
      } else if fibers[f].descheduled {
        CompleteDeschedule(f);
      }
    }

    /** What the code does with the fiber just left: reschedule_fiber, then prev_fiber = NULL. With
        nobody in between it is the model's Settle, followed by its Requeue if the fiber goes on. */
    method AfterSwitch(w: nat)
      requires Enabled(Now(), Settle(w))
      modifies this
      ensures var s := Step(old(Now()), Settle(w));
        Now() == if s.workers[w].pc.Requeueing? then Step(s, Requeue(w)) else s
    {
      hide Enqueue, Remove, TryPop;
      RescheduleFiber(w, schedule[w].prev.value);
      schedule := schedule[w := schedule[w].(prev := None)];
      schedule := schedule[w := schedule[w].(pc := if schedule[w].cur.Some? then Running else Returning)];
    }

    /** Up to its yield. */
    method DescheduleCurrent(w: nat)
      requires Enabled(Now(), DescheduleSelf(w))
      modifies this
      ensures Now() == Step(old(Now()), DescheduleSelf(w))
    {
      var f := schedule[w].cur.value;
      var lock := fibers[f].user.e;
      fibers := fibers[f := fibers[f].(lock := Some(lock))];
      fibers := fibers[f := fibers[f].(descheduled := true, user := Away(lock))];
      schedule := schedule[w := schedule[w].(pc := Leaving)];
    }

    /** schedule_tid by a waker that holds the mutex: with nobody in between, the model's ScheduleTid and, if the
        fiber was blocked, its EnqueueWoken on the worker picked, up to the signal it may owe. */
    method WakeWaiter(k: nat, choice: nat, priority: bool)
      requires Enabled(Now(), ScheduleTid(k, priority))
      requires var s := Step(Now(), ScheduleTid(k, priority));
        s.wakers[k].Carries? ==> Enabled(s, EnqueueWoken(k, choice))
      modifies this
      ensures var s := Step(old(Now()), ScheduleTid(k, priority));
        if !s.wakers[k].Carries? then Now() == s
        else
          var t := Step(s, EnqueueWoken(k, choice));
          if s.fibers[s.wakers[k].f].terminate then Now() == t
          else Enabled(t, Look(choice)) && Now() == Step(t, Look(choice))
    {
      hide Enqueue, Remove, TryPop;
      var e := wakers[k].e;
      var waiter := events[e].waiter;
      if waiter.Some? && !fibers[waiter.value].scheduleable {
        var f := waiter.value;
        fibers := fibers[f := fibers[f].(descheduled := false)];
        fibers := fibers[f := fibers[f].(scheduleable := true)];
        fibers := fibers[f := fibers[f].(priority := priority)];
        RescheduleFiber(choice, f);
      }
      wakers := wakers[k := Holds(e, false)];
    }
  }
}

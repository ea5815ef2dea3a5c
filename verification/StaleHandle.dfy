/** Why a handle must not be used after its fiber has gone on: the fiber may be on its way off the CPU for
    another event by then, and the assertion of schedule_tid fails. */
module StaleHandle {
  import opened Options
  import opened FiberControl
  import opened FiberControlProof
  import opened FiberControlTheorems

  lemma {:induction false} Extend(c: Conf, run: seq<Action>, a: Action)
    requires Legal(c, run) && Enabled(After(c, run).s, a)
    ensures Legal(c, run + [a]) && After(c, run + [a]) == ConfStep(After(c, run), a)
    decreases |run|
  {
    if run == [] {
      assert [a][1..] == [] && [] + [a] == [a];
    } else {
      assert (run + [a])[1..] == run[1..] + [a];
      Extend(ConfStep(c, run[0]), run[1..], a);
    }
  }

  lemma Follow(run: seq<Action>, a: Action) returns (longer: seq<Action>)
    requires Legal(Initial(1, 2, 1), run) && Enabled(After(Initial(1, 2, 1), run).s, a)
    ensures Legal(Initial(1, 2, 1), longer)
      && After(Initial(1, 2, 1), longer).s == Step(After(Initial(1, 2, 1), run).s, a)
  {
    Extend(Initial(1, 2, 1), run, a);
    longer := run + [a];
  }

  /** One worker, one fiber, two events, one waker. */
  function One(fiber: Fiber, worker: Worker, first: Event, second: Event, waker: Waker): State {
    State([fiber], [worker], [first, second], [waker])
  }

  function Fib(descheduled: bool, scheduleable: bool, priority: bool, lock: Option<nat>, user: User): Fiber {
    Fiber({0}, descheduled, false, scheduleable, priority, lock, user)
  }

  const EMPTY: Queues := Queues([], [], [], [])
  const UNUSED: Event := Event(Nobody, false, None)

  function At(pc: Pc, cur: Option<nat>, looks: nat): Worker {
    Worker(EMPTY, cur, None, None, pc, false, looks, 0)
  }

  ghost predicate Goes(s: State, a: Action, t: State) {
    Enabled(s, a) && Step(s, a) == t
  }

  lemma Then(run: seq<Action>, s: State, a: Action, t: State) returns (longer: seq<Action>)
    requires Legal(Initial(1, 2, 1), run) && After(Initial(1, 2, 1), run).s == s && Goes(s, a, t)
    ensures Legal(Initial(1, 2, 1), longer) && After(Initial(1, 2, 1), longer).s == t
  {
    hide Step, Enabled, Legal, After, Initial;
    longer := Follow(run, a);
  }

  // ---- The stages of the run ----

  const FIRST: Event := Event(Nobody, false, Some(0))
  const READY: Event := Event(Nobody, true, Some(0))
  const AFFINE: Queues := Queues([], [], [], [0])
  const PRIORITY: Queues := Queues([], [0], [], [])

  function Fresh(): Fiber { Fib(false, true, false, None, Free) }

  function Off(): Fiber { Fib(false, false, false, None, Away(0)) }

  function Back(priority: bool): Fiber { Fib(false, true, priority, None, Away(0)) }

  function Leaver(): Fiber { Fib(true, true, false, Some(0), Away(0)) }

  /** In the root loop with the fiber queued, and with the fiber in hand. */
  function Rooted(q: Queues, pc: Pc, looks: nat): Worker {
    Worker(q, None, None, None, pc, !pc.Returning?, looks, 0)
  }

  function Queued(q: Queues, looks: nat): Worker { Rooted(q, Returning, looks) }

  function Picked(pc: Pc, looks: nat): Worker {
    Worker(EMPTY, None, None, Some(0), pc, !pc.Departing?, looks, 0)
  }

  lemma Launches()
    ensures Goes(Initial(1, 2, 1).s, Launch({0}, 0), One(Fresh(), Queued(AFFINE, 1), UNUSED, UNUSED, Idle))
  {
    assert [] + [0] == [0];
  }

  /** Round the root loop: flag, lock, queues, lock, flag, switch. */
  lemma Looks(fiber: Fiber, q: Queues, looks: nat, first: Event)
    requires q == AFFINE || q == PRIORITY
    ensures Goes(With(fiber, Queued(q, looks), first), RaiseFlag(0), With(fiber, Rooted(q, Locking, looks), first))
    ensures Goes(With(fiber, Rooted(q, Locking, looks), first), TakeLock(0),
      With(fiber, Rooted(q, Checking, looks), first))
    ensures Goes(With(fiber, Rooted(q, Checking, looks), first), BaseRemove(0),
      With(fiber, Picked(Chosen, looks), first))
  {
    assert [0][1..] == [];
  }

  lemma Switches(fiber: Fiber, looks: nat, first: Event)
    ensures Goes(With(fiber, Picked(Chosen, looks), first), ReleaseLock(0), With(fiber, Picked(Released, looks), first))
    ensures Goes(With(fiber, Picked(Released, looks), first), LowerFlag(0),
      With(fiber, Picked(Departing, looks), first))
    ensures Goes(With(fiber, Picked(Departing, looks), first), BaseSwitch(0),
                 With(fiber.(priority := false), At(Running, Some(0), looks), first))
  {
  }

  /** The worker with nobody else about. */
  function With(fiber: Fiber, worker: Worker, first: Event): State {
    One(fiber, worker, first, UNUSED, Idle)
  }

  lemma TakeUp(run: seq<Action>, fiber: Fiber, q: Queues, looks: nat, first: Event) returns (longer: seq<Action>)
    requires Legal(Initial(1, 2, 1), run) && (q == AFFINE || q == PRIORITY)
    requires After(Initial(1, 2, 1), run).s == With(fiber, Queued(q, looks), first)
    ensures Legal(Initial(1, 2, 1), longer)
    ensures After(Initial(1, 2, 1), longer).s == With(fiber.(priority := false), At(Running, Some(0), looks), first)
  {
    hide Goes, Step, Enabled, Legal, After, Initial;
    Looks(fiber, q, looks, first);
    Switches(fiber, looks, first);
    longer := Then(run, With(fiber, Queued(q, looks), first), RaiseFlag(0),
      With(fiber, Rooted(q, Locking, looks), first));
    longer := Then(longer, With(fiber, Rooted(q, Locking, looks), first), TakeLock(0),
                   With(fiber, Rooted(q, Checking, looks), first));
    longer := Then(longer, With(fiber, Rooted(q, Checking, looks), first), BaseRemove(0),
                   With(fiber, Picked(Chosen, looks), first));
    longer := Then(longer, With(fiber, Picked(Chosen, looks), first), ReleaseLock(0),
                   With(fiber, Picked(Released, looks), first));
    longer := Then(longer, With(fiber, Picked(Released, looks), first), LowerFlag(0),
                   With(fiber, Picked(Departing, looks), first));
    longer := Then(longer, With(fiber, Picked(Departing, looks), first), BaseSwitch(0),
                   With(fiber.(priority := false), At(Running, Some(0), looks), first));
  }

  lemma Waits(looks: nat)
    ensures Goes(One(Fresh(), At(Running, Some(0), looks), UNUSED, UNUSED, Idle), LockEvent(0, 0),
                 One(Fib(false, true, false, None, Holding(0)), At(Running, Some(0), looks),
                   Event(ByFiber(0), false, Some(0)), UNUSED, Idle))
    ensures Goes(One(Fib(false, true, false, None, Holding(0)), At(Running, Some(0), looks),
      Event(ByFiber(0), false, Some(0)), UNUSED, Idle), DescheduleSelf(0),
                 One(Leaver(), At(Leaving, Some(0), looks), Event(ByFiber(0), false, Some(0)), UNUSED, Idle))
  {
  }

  lemma LeavesCpu(looks: nat)
    ensures Goes(One(Leaver(), At(Leaving, Some(0), looks), Event(ByFiber(0), false, Some(0)), UNUSED, Idle),
      YieldPop(0),
                 One(Leaver(), At(Yielding, Some(0), looks), Event(ByFiber(0), false, Some(0)), UNUSED, Idle))
    ensures Goes(One(Leaver(), At(Yielding, Some(0), looks), Event(ByFiber(0), false, Some(0)), UNUSED, Idle),
      YieldTo(0),
                 One(Leaver(), Worker(EMPTY, None, Some(0), None, Settling, false, looks, 0),
                   Event(ByFiber(0), false, Some(0)), UNUSED, Idle))
    ensures Goes(One(Leaver(), Worker(EMPTY, None, Some(0), None, Settling, false, looks, 0),
      Event(ByFiber(0), false, Some(0)), UNUSED, Idle), Settle(0),
                 One(Off(), At(Returning, None, looks), FIRST, UNUSED, Idle))
  {
  }

  lemma Wakes(looks: nat)
    ensures Goes(One(Off(), At(Returning, None, looks), FIRST, UNUSED, Idle), WakerLock(0, 0),
                 One(Off(), At(Returning, None, looks), Event(ByWaker(0), false, Some(0)), UNUSED, Holds(0, false)))
    ensures Goes(One(Off(), At(Returning, None, looks), Event(ByWaker(0), false, Some(0)), UNUSED, Holds(0, false)),
      SetReady(0),
                 One(Off(), At(Returning, None, looks), Event(ByWaker(0), true, Some(0)), UNUSED, Holds(0, true)))
    ensures Goes(One(Off(), At(Returning, None, looks), Event(ByWaker(0), true, Some(0)), UNUSED, Holds(0, true)),
      ScheduleTid(0, true),
                 One(Back(true), At(Returning, None, looks), Event(ByWaker(0), true, Some(0)), UNUSED, Carries(0, 0)))
  {
  }

  lemma PutsBack(looks: nat)
    ensures Goes(One(Back(true), At(Returning, None, looks), Event(ByWaker(0), true, Some(0)), UNUSED, Carries(0, 0)),
      EnqueueWoken(0, 0),
                 One(Back(true), Queued(PRIORITY, looks + 1), Event(ByWaker(0), true, Some(0)), UNUSED,
                   Holds(0, false)))
    ensures Goes(One(Back(true), Queued(PRIORITY, looks + 1), Event(ByWaker(0), true, Some(0)), UNUSED,
      Holds(0, false)), WakerUnlock(0),
                 One(Back(true), Queued(PRIORITY, looks + 1), READY, UNUSED, Idle))
  {
    assert [] + [0] == [0];
  }

  /** The fiber goes on, and waits on the second event. */
  lemma GoesOn(looks: nat)
    ensures Goes(One(Back(false), At(Running, Some(0), looks), READY, UNUSED, Idle), GoOn(0),
                 One(Fresh(), At(Running, Some(0), looks), Event(Nobody, true, None), UNUSED, Idle))
    ensures Goes(One(Fresh(), At(Running, Some(0), looks), Event(Nobody, true, None), UNUSED, Idle), LockEvent(0, 1),
                 One(Fib(false, true, false, None, Holding(1)), At(Running, Some(0), looks), Event(Nobody, true, None),
                   Event(ByFiber(0), false, Some(0)), Idle))
  {
  }

  lemma LeavesAgain(looks: nat)
    ensures Goes(One(Fib(false, true, false, None, Holding(1)), At(Running, Some(0), looks), Event(Nobody, true, None),
      Event(ByFiber(0), false, Some(0)), Idle), DescheduleSelf(0),
                 One(Fib(true, true, false, Some(1), Away(1)), At(Leaving, Some(0), looks), Event(Nobody, true, None),
                   Event(ByFiber(0), false, Some(0)), Idle))
  {
  }

  /** A fiber waits on one event, is woken, goes on without the mutex, and waits on a second event: a waker that
      still used the handle of the first would call schedule_tid on a fiber flagged descheduled. */
  lemma StaleHandleFails() returns (c: Conf)
    ensures Reachable(1, 2, 1, c)
    ensures c.s.fibers == [Fib(true, true, false, Some(1), Away(1))] && |c.s.events| == 2
      && c.s.events[0] == Event(Nobody, true, None)
  {
    hide Goes, Step, Enabled, Legal, After, Initial;
    var run := FirstRound();
    GoesOn(2);
    LeavesAgain(2);
    run := TakeUp(run, Back(true), PRIORITY, 2, READY);
    var gone := Event(Nobody, true, None);
    var mine := Event(ByFiber(0), false, Some(0));
    var holding := Fib(false, true, false, None, Holding(1));
    run := Then(run, One(Back(false), At(Running, Some(0), 2), READY, UNUSED, Idle), GoOn(0),
      One(Fresh(), At(Running, Some(0), 2), gone, UNUSED, Idle));
    run := Then(run, One(Fresh(), At(Running, Some(0), 2), gone, UNUSED, Idle), LockEvent(0, 1),
      One(holding, At(Running, Some(0), 2), gone, mine, Idle));
    run := Then(run, One(holding, At(Running, Some(0), 2), gone, mine, Idle), DescheduleSelf(0),
                One(Fib(true, true, false, Some(1), Away(1)), At(Leaving, Some(0), 2), gone, mine, Idle));
    c := After(Initial(1, 2, 1), run);
    assert Reachable(1, 2, 1, c);
  }

  /** From the start to the fiber queued again after its first wait. */
  lemma FirstRound() returns (run: seq<Action>)
    ensures Legal(Initial(1, 2, 1), run)
    ensures After(Initial(1, 2, 1), run).s == One(Back(true), Queued(PRIORITY, 2), READY, UNUSED, Idle)
  {
    run := ToFirstWait();
    hide Goes, Step, Enabled, Legal, After, Initial;
    LeavesCpu(1);
    Wakes(1);
    PutsBack(1);
    var off, mine := Worker(EMPTY, None, Some(0), None, Settling, false, 1, 0), Event(ByFiber(0), false, Some(0));
    run := Then(run, One(Leaver(), At(Leaving, Some(0), 1), mine, UNUSED, Idle), YieldPop(0),
      One(Leaver(), At(Yielding, Some(0), 1), mine, UNUSED, Idle));
    run := Then(run, One(Leaver(), At(Yielding, Some(0), 1), mine, UNUSED, Idle), YieldTo(0),
      One(Leaver(), off, mine, UNUSED, Idle));
    run := Then(run, One(Leaver(), off, mine, UNUSED, Idle), Settle(0),
      One(Off(), At(Returning, None, 1), FIRST, UNUSED, Idle));
    var idle, his := At(Returning, None, 1), Event(ByWaker(0), true, Some(0));
    run := Then(run, One(Off(), idle, FIRST, UNUSED, Idle), WakerLock(0, 0),
      One(Off(), idle, Event(ByWaker(0), false, Some(0)), UNUSED, Holds(0, false)));
    run := Then(run, One(Off(), idle, Event(ByWaker(0), false, Some(0)), UNUSED, Holds(0, false)), SetReady(0),
      One(Off(), idle, his, UNUSED, Holds(0, true)));
    run := Then(run, One(Off(), idle, his, UNUSED, Holds(0, true)), ScheduleTid(0, true),
      One(Back(true), idle, his, UNUSED, Carries(0, 0)));
    run := Then(run, One(Back(true), idle, his, UNUSED, Carries(0, 0)), EnqueueWoken(0, 0),
      One(Back(true), Queued(PRIORITY, 2), his, UNUSED, Holds(0, false)));
    run := Then(run, One(Back(true), Queued(PRIORITY, 2), his, UNUSED, Holds(0, false)), WakerUnlock(0),
      One(Back(true), Queued(PRIORITY, 2), READY, UNUSED, Idle));
  }

  lemma ToFirstWait() returns (run: seq<Action>)
    ensures Legal(Initial(1, 2, 1), run)
    ensures After(Initial(1, 2, 1), run).s ==
      One(Leaver(), At(Leaving, Some(0), 1), Event(ByFiber(0), false, Some(0)), UNUSED, Idle)
  {
    run := [];
    var first := Initial(1, 2, 1).s;
    assert Legal(Initial(1, 2, 1), run) && After(Initial(1, 2, 1), run).s == first;
    Launches();
    Waits(1);
    hide Goes, Step, Enabled, Legal, After, Initial;
    var running, holding, mine := At(Running, Some(0), 1), Fib(false, true, false, None, Holding(0)),
      Event(ByFiber(0), false, Some(0));
    run := Then(run, first, Launch({0}, 0), One(Fresh(), Queued(AFFINE, 1), UNUSED, UNUSED, Idle));
    run := TakeUp(run, Fresh(), AFFINE, 1, UNUSED);
    run := Then(run, One(Fresh(), running, UNUSED, UNUSED, Idle), LockEvent(0, 0),
      One(holding, running, mine, UNUSED, Idle));
    run := Then(run, One(holding, running, mine, UNUSED, Idle), DescheduleSelf(0),
      One(Leaver(), At(Leaving, Some(0), 1), mine, UNUSED, Idle));
  }
}

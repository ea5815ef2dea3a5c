/** The M:N fiber scheduler of fiber_control, as interleaved steps of its workers, of the fibers
    they run and of threads that wake fibers.

    Each worker has a priority queue and an affinity queue, each with a list of fibers already
    taken off it, and passes control from `prev` to `cur` across a context switch. A fiber waits
    by the documented protocol: it takes a mutex, leaves its handle, and deschedules itself while
    holding the mutex, which the worker releases only when the fiber is off the CPU. */
module FiberControl {
  import opened Options

  datatype Fiber = Fiber(
    affinity: set<nat>, descheduled: bool, terminate: bool,
    scheduleable: bool, priority: bool, lock: Option<nat>, user: User)

  /** Where a fiber's own code is in the waiting protocol. */
  datatype User =
    | Free
    | Holding(e: nat)  // has the mutex of e, handle left there
    | Away(e: nat)     // descheduled itself on e; when it runs it takes the mutex again, or goes on without it

  datatype Event = Event(holder: Holder, ready: bool, waiter: Option<nat>)

  datatype Holder = Nobody | ByFiber(f: nat) | ByWaker(k: nat)

  datatype Pc =
    | Returning          // root stack, about to set `waiting`
    | Locking            // root stack, about to take active_lock
    | Checking           // root stack, active_lock held, about to look at the queues
    | Asleep             // root stack, waiting on active_cond
    | Chosen             // root stack, active_lock held, a fiber in hand
    | Released           // root stack, a fiber in hand, about to clear `waiting`
    | Departing          // root stack, a fiber in hand, about to switch to it
    | Running            // cur runs its own code
    | Leaving            // cur has flagged itself descheduled or terminated, and must yield
    | Yielding           // yield has looked at the queues; the fiber found, if any, is in hand
    | Settling           // switched; prev is still to be dealt with
    | Requeueing         // prev found schedulable, its lock released, not yet enqueued

  /** The two queues, each with the list already taken off it. */
  datatype Queues = Queues(prioPopped: seq<nat>, prioQueue: seq<nat>, affPopped: seq<nat>, affQueue: seq<nat>)

  /** `looks` counts the enqueuers that have yet to read `waiting`, which they do without a lock; `signals`
      those that found it set and have yet to take active_lock and signal. */
  datatype Worker = Worker(
    queues: Queues, cur: Option<nat>, prev: Option<nat>, hand: Option<nat>, pc: Pc,
    waiting: bool, looks: nat, signals: nat)

  datatype Waker = Idle | Holds(e: nat, owes: bool) | Carries(e: nat, f: nat)

  datatype State = State(fibers: seq<Fiber>, workers: seq<Worker>, events: seq<Event>, wakers: seq<Waker>)

  datatype Action =
    | Launch(affinity: set<nat>, choice: nat)
    | RaiseFlag(w: nat) | TakeLock(w: nat) | BaseRemove(w: nat) | SpuriousWake(w: nat)
    | ReleaseLock(w: nat) | LowerFlag(w: nat) | BaseSwitch(w: nat)
    | Look(w: nat) | Signal(w: nat)
    | YieldPop(w: nat) | YieldTo(w: nat) | Settle(w: nat) | Requeue(w: nat)
    | LockEvent(w: nat, e: nat) | Unregister(w: nat) | GoOn(w: nat) | DescheduleSelf(w: nat) | Exit(w: nat)
    | WakerLock(k: nat, e: nat) | SetReady(k: nat) | ClearReady(k: nat) | ScheduleTid(k: nat, priority: bool)
      | EnqueueWoken(k: nat, choice: nat) | WakerUnlock(k: nat)

  // ---- Queues ----

  function TryPop(popped: seq<nat>, queue: seq<nat>): (r: (seq<nat>, seq<nat>, Option<nat>)) {
    var list := if popped == [] then queue else popped;
    var rest := if popped == [] then [] else queue;
    if list == [] then (list, rest, None) else (list[1..], rest, Some(list[0]))
  }

  /** active_queue_remove: the priority queue first. */
  function Remove(q: Queues): (Queues, Option<nat>) {
    var (pp, pq, f) := TryPop(q.prioPopped, q.prioQueue);
    if f.Some? then (q.(prioPopped := pp, prioQueue := pq), f)
    else
      var (ap, aq, g) := TryPop(q.affPopped, q.affQueue);
      (Queues(pp, pq, ap, aq), g)
  }

  /** active_queue_insert_head or _tail: nothing happens to a fiber that is not schedulable. */
  function Insert(wk: Worker, f: nat, fib: Fiber, head: bool): Worker {
    if !fib.scheduleable then wk
    else wk.(queues := Enqueue(wk.queues, f, head), looks := wk.looks + 1)
  }

  /** An enqueuer reads `waiting`, and owes a signal if it is set. */
  function Looked(wk: Worker): Worker
    requires wk.looks > 0
  {
    wk.(looks := wk.looks - 1, signals := if wk.waiting then wk.signals + 1 else wk.signals)
  }

  /** A worker's insertion into its own queue, up to the signal it might owe itself: nobody else writes
      `waiting`, so it does not matter when it is read. */
  function InsertOwn(wk: Worker, f: nat, fib: Fiber): Worker {
    var grown := Insert(wk, f, fib, fib.priority);
    if grown.looks > wk.looks then Looked(grown) else grown
  }

  function Enqueue(q: Queues, f: nat, head: bool): Queues {
    if head then q.(prioQueue := q.prioQueue + [f]) else q.(affQueue := q.affQueue + [f])
  }

  /** Everything queued at a worker, in the order it will be taken. */
  function Line(q: Queues): seq<nat> {
    (q.prioPopped + q.prioQueue) + (q.affPopped + q.affQueue)
  }

  /** How many times fiber f is queued. */
  function Count(q: Queues, f: nat): nat {
    multiset(q.prioPopped)[f] + multiset(q.prioQueue)[f] + multiset(q.affPopped)[f] + multiset(q.affQueue)[f]
  }

  predicate NoneQueued(q: Queues) {
    q == Queues([], [], [], [])
  }

  lemma TryPopLine(popped: seq<nat>, queue: seq<nat>)
    ensures var (p, q, f) := TryPop(popped, queue); popped + queue == (if f.Some? then [f.value] else []) + (p + q)
    ensures TryPop(popped, queue).2.None? <==> popped + queue == []
  {
    var list := if popped == [] then queue else popped;
    if list != [] { assert list == [list[0]] + list[1..]; }
  }

  /** Removing takes the first of the line: priority fibers first, each queue in arrival order. */
  lemma RemoveLine(q: Queues)
    ensures var (q', f) := Remove(q);
      Line(q) == (if f.Some? then [f.value] else []) + Line(q') && (f.None? <==> Line(q) == [])
  {
    TryPopLine(q.prioPopped, q.prioQueue);
    TryPopLine(q.affPopped, q.affQueue);
    var (pp, pq, f) := TryPop(q.prioPopped, q.prioQueue);
    if f.Some? {
      assert Line(q) == ([f.value] + (pp + pq)) + (q.affPopped + q.affQueue) == [f.value] + Line(Remove(q).0);
    } else {
      assert pp + pq == [] && Line(q) == q.affPopped + q.affQueue;
    }
  }

  /** A fiber put at the head overtakes the affinity queue but not earlier priority fibers. */
  lemma EnqueueLine(q: Queues, f: nat, head: bool)
    ensures !head ==> Line(Enqueue(q, f, head)) == Line(q) + [f]
    ensures head ==> Line(Enqueue(q, f, head)) == (q.prioPopped + q.prioQueue) + [f] + (q.affPopped + q.affQueue)
  {
    if head { assert q.prioPopped + (q.prioQueue + [f]) == (q.prioPopped + q.prioQueue) + [f]; }
    else { assert (q.prioPopped + q.prioQueue) + (q.affPopped + (q.affQueue + [f])) == Line(q) + [f]; }
  }

  lemma TryPopCount(popped: seq<nat>, queue: seq<nat>, g: nat)
    ensures var (p, q, f) := TryPop(popped, queue);
      multiset(popped)[g] + multiset(queue)[g] == multiset(p)[g] + multiset(q)[g] + (if f == Some(g) then 1 else 0)
  {
    var list := if popped == [] then queue else popped;
    if list != [] {
      assert list == [list[0]] + list[1..];
      assert multiset(list) == multiset{list[0]} + multiset(list[1..]);
    }
  }

  lemma RemoveCount(q: Queues, g: nat)
    ensures Count(q, g) == Count(Remove(q).0, g) + (if Remove(q).1 == Some(g) then 1 else 0)
    ensures Remove(q).1.None? ==> NoneQueued(Remove(q).0)
  {
    TryPopCount(q.prioPopped, q.prioQueue, g);
    TryPopCount(q.affPopped, q.affQueue, g);
  }

  lemma EnqueueCount(q: Queues, f: nat, head: bool, g: nat)
    ensures Count(Enqueue(q, f, head), g) == Count(q, g) + (if f == g then 1 else 0)
  {
    var l := if head then q.prioQueue else q.affQueue;
    assert multiset(l + [f]) == multiset(l) + multiset{f};
  }

  // ---- Steps ----

  predicate RunsAt(s: State, w: nat, pc: Pc) {
    w < |s.workers| && s.workers[w].pc == pc && s.workers[w].cur.Some? && s.workers[w].cur.value < |s.fibers|
  }

  /** The worker itself holds its active_lock; enqueuers take it for the one signal only. */
  predicate HasLock(pc: Pc) { pc.Checking? || pc.Chosen? }

  function Cur(s: State, w: nat): nat
    requires w < |s.workers| && s.workers[w].cur.Some?
  {
    s.workers[w].cur.value
  }

  predicate HandFits(s: State, w: nat) {
    w < |s.workers| && (s.workers[w].hand.Some? ==> s.workers[w].hand.value < |s.fibers|)
  }

  predicate PrevFits(s: State, w: nat) {
    w < |s.workers| && s.workers[w].prev.Some? && s.workers[w].prev.value < |s.fibers|
  }

  predicate Enabled(s: State, a: Action) {
    match a
    case Launch(aff, w) => w < |s.workers| && w in aff
    case RaiseFlag(w) => w < |s.workers| && s.workers[w].pc.Returning?
    case TakeLock(w) => w < |s.workers| && s.workers[w].pc.Locking?
    case BaseRemove(w) => w < |s.workers| && s.workers[w].pc.Checking?
    case SpuriousWake(w) => w < |s.workers| && s.workers[w].pc.Asleep?
    case ReleaseLock(w) => w < |s.workers| && s.workers[w].pc.Chosen?
    case LowerFlag(w) => w < |s.workers| && s.workers[w].pc.Released?
    case BaseSwitch(w) => HandFits(s, w) && s.workers[w].pc.Departing? && s.workers[w].hand.Some?
    case Look(w) => w < |s.workers| && s.workers[w].looks > 0
    case Signal(w) => w < |s.workers| && s.workers[w].signals > 0 && !HasLock(s.workers[w].pc)
    case YieldPop(w) => (RunsAt(s, w, Running) && s.fibers[Cur(s, w)].user.Free?) || RunsAt(s, w, Leaving)
    case YieldTo(w) => RunsAt(s, w, Yielding) && HandFits(s, w)
    case Settle(w) => PrevFits(s, w) && s.workers[w].pc.Settling? &&
      (s.fibers[s.workers[w].prev.value].lock.Some? ==> s.fibers[s.workers[w].prev.value].lock.value < |s.events|)
    case Requeue(w) => PrevFits(s, w) && s.workers[w].pc.Requeueing?
    case LockEvent(w, e) => RunsAt(s, w, Running) && e < |s.events| && s.events[e].holder.Nobody? &&
      ((s.fibers[Cur(s, w)].user.Free? && s.events[e].waiter.None?) || s.fibers[Cur(s, w)].user == Away(e))
    case Unregister(w) => RunsAt(s, w, Running) && s.fibers[Cur(s, w)].user.Holding?
      && s.fibers[Cur(s, w)].user.e < |s.events|
    case GoOn(w) => RunsAt(s, w, Running) && s.fibers[Cur(s, w)].user.Away? && s.fibers[Cur(s, w)].user.e < |s.events|
    case DescheduleSelf(w) => RunsAt(s, w, Running) && s.fibers[Cur(s, w)].user.Holding? &&
      s.fibers[Cur(s, w)].user.e < |s.events| && !s.events[s.fibers[Cur(s, w)].user.e].ready
    case Exit(w) => RunsAt(s, w, Running) && s.fibers[Cur(s, w)].user.Free?
    case WakerLock(k, e) => k < |s.wakers| && s.wakers[k].Idle? && e < |s.events| && s.events[e].holder.Nobody?
    case SetReady(k) => k < |s.wakers| && s.wakers[k].Holds? && s.wakers[k].e < |s.events|
    case ClearReady(k) => k < |s.wakers| && s.wakers[k].Holds? && s.wakers[k].e < |s.events|
    case ScheduleTid(k, _) => k < |s.wakers| && s.wakers[k].Holds? && s.wakers[k].e < |s.events| &&
      (s.events[s.wakers[k].e].waiter.Some? ==> s.events[s.wakers[k].e].waiter.value < |s.fibers|)
    case EnqueueWoken(k, w) => k < |s.wakers| && s.wakers[k].Carries? && s.wakers[k].f < |s.fibers| &&
      w < |s.workers| && w in s.fibers[s.wakers[k].f].affinity
    case WakerUnlock(k) => k < |s.wakers| && s.wakers[k].Holds? && !s.wakers[k].owes && s.wakers[k].e < |s.events|
  }

  function SetFiber(s: State, f: nat, fib: Fiber): seq<Fiber>
    requires f < |s.fibers|
  { s.fibers[f := fib] }

  function SetWorker(s: State, w: nat, wk: Worker): seq<Worker>
    requires w < |s.workers|
  { s.workers[w := wk] }

  function SetEvent(s: State, e: nat, ev: Event): seq<Event>
    requires e < |s.events|
  { s.events[e := ev] }

  /** Where the worker goes once prev is dealt with: on with cur, or back to its root loop. */
  function Onward(wk: Worker): Worker {
    wk.(prev := None, pc := if wk.cur.Some? then Running else Returning)
  }

  function NewFiber(affinity: set<nat>): Fiber {
    Fiber(affinity, false, false, true, false, None, Free)
  }

  /** The root loop of a worker, and what enqueuers do about its flag and lock. */
  predicate OfRoot(a: Action) {
    || a.RaiseFlag? || a.TakeLock? || a.BaseRemove? || a.SpuriousWake? || a.ReleaseLock? || a.LowerFlag?
      || a.BaseSwitch?
    || a.Look? || a.Signal?
  }

  predicate OfWaker(a: Action) {
    a.WakerLock? || a.SetReady? || a.ClearReady? || a.ScheduleTid? || a.EnqueueWoken? || a.WakerUnlock?
  }

  function RootStep(s: State, a: Action): State
    requires Enabled(s, a) && OfRoot(a)
  {
    match a
    case RaiseFlag(w) => s.(workers := SetWorker(s, w, s.workers[w].(pc := Locking, waiting := true)))
    case TakeLock(w) => s.(workers := SetWorker(s, w, s.workers[w].(pc := Checking)))
    case BaseRemove(w) =>
      var (q, f) := Remove(s.workers[w].queues);
      s.(workers := SetWorker(s, w, s.workers[w].(queues := q, hand := f, pc := if f.Some? then Chosen else Asleep)))
    case SpuriousWake(w) => s.(workers := SetWorker(s, w, s.workers[w].(pc := Locking)))
    case ReleaseLock(w) => s.(workers := SetWorker(s, w, s.workers[w].(pc := Released)))
    case LowerFlag(w) => s.(workers := SetWorker(s, w, s.workers[w].(pc := Departing, waiting := false)))
    case BaseSwitch(w) =>
      var wk := s.workers[w];
      s.(fibers := SetFiber(s, wk.hand.value, s.fibers[wk.hand.value].(priority := false)),
         workers := SetWorker(s, w,
           wk.(prev := wk.cur, cur := wk.hand, hand := None, pc := if wk.cur.Some? then Settling else Running)))
    case Look(w) => s.(workers := SetWorker(s, w, Looked(s.workers[w])))
    case Signal(w) =>
      var wk := s.workers[w];
      s.(workers := SetWorker(s, w, wk.(signals := wk.signals - 1, pc := if wk.pc.Asleep? then Locking else wk.pc)))
  }

  function WakerStep(s: State, a: Action): State
    requires Enabled(s, a) && OfWaker(a)
  {
    match a
    case WakerLock(k, e) =>
      s.(wakers := s.wakers[k := Holds(e, false)], events := SetEvent(s, e, s.events[e].(holder := ByWaker(k))))
    case SetReady(k) =>
      s.(wakers := s.wakers[k := Holds(s.wakers[k].e, true)],
        events := SetEvent(s, s.wakers[k].e, s.events[s.wakers[k].e].(ready := true)))
    case ClearReady(k) => s.(events := SetEvent(s, s.wakers[k].e, s.events[s.wakers[k].e].(ready := false)))
    case ScheduleTid(k, priority) =>
      var e := s.wakers[k].e;
      if s.events[e].waiter.Some? && !s.fibers[s.events[e].waiter.value].scheduleable then
        var f := s.events[e].waiter.value;
        s.(fibers := SetFiber(s, f, s.fibers[f].(descheduled := false, scheduleable := true, priority := priority)),
          wakers := s.wakers[k := Carries(e, f)])
      else s.(wakers := s.wakers[k := Holds(e, false)])
    case EnqueueWoken(k, w) =>
      // reschedule_fiber called by the waker: it enqueues only a fiber with neither flag set
      var f := s.wakers[k].f;
      var fib := s.fibers[f];
      s.(wakers := s.wakers[k := Holds(s.wakers[k].e, false)],
         workers := if !fib.terminate && !fib.descheduled
           then SetWorker(s, w, Insert(s.workers[w], f, fib, fib.priority)) else s.workers)
    case WakerUnlock(k) =>
      s.(wakers := s.wakers[k := Idle],
        events := SetEvent(s, s.wakers[k].e, s.events[s.wakers[k].e].(holder := Nobody)))
  }

  function Step(s: State, a: Action): State
    requires Enabled(s, a)
  {
    if OfRoot(a) then RootStep(s, a) else if OfWaker(a) then WakerStep(s, a) else
    match a
    case Launch(aff, w) =>
      s.(fibers := s.fibers + [NewFiber(aff)],
         workers := SetWorker(s, w, Insert(s.workers[w], |s.fibers|, NewFiber(aff), false)))
    case YieldPop(w) =>
      var (q, f) := Remove(s.workers[w].queues);
      s.(workers := SetWorker(s, w, s.workers[w].(queues := q, hand := f, pc := Yielding)))
    case YieldTo(w) =>
      var wk := s.workers[w];
      if wk.hand.Some? then
        s.(fibers := SetFiber(s, wk.hand.value, s.fibers[wk.hand.value].(priority := false)),
           workers := SetWorker(s, w, wk.(prev := wk.cur, cur := wk.hand, hand := None, pc := Settling)))
      else if s.fibers[wk.cur.value].terminate || s.fibers[wk.cur.value].descheduled then
        s.(workers := SetWorker(s, w, wk.(prev := wk.cur, cur := None, pc := Settling)))
      else s.(workers := SetWorker(s, w, wk.(pc := Running)))
    case Settle(w) =>
      var wk := s.workers[w];
      var f := wk.prev.value;
      var fib := s.fibers[f];
      if !fib.terminate && !fib.descheduled then s.(workers := SetWorker(s, w, wk.(pc := Requeueing)))
      else if fib.descheduled then
        s.(fibers := SetFiber(s, f, fib.(descheduled := false, scheduleable := false, lock := None)),
           events := if fib.lock.Some? then SetEvent(s, fib.lock.value, s.events[fib.lock.value].(holder := Nobody))
             else s.events,
           workers := SetWorker(s, w, Onward(wk)))
      else s.(workers := SetWorker(s, w, Onward(wk)))
    case Requeue(w) =>
      var wk := s.workers[w];
      s.(workers := SetWorker(s, w, Onward(InsertOwn(wk, wk.prev.value, s.fibers[wk.prev.value]))))
    case LockEvent(w, e) =>
      s.(fibers := SetFiber(s, Cur(s, w), s.fibers[Cur(s, w)].(user := Holding(e))),
         events := SetEvent(s, e, s.events[e].(holder := ByFiber(Cur(s, w)), waiter := Some(Cur(s, w)))))
    case Unregister(w) =>
      var e := s.fibers[Cur(s, w)].user.e;
      s.(fibers := SetFiber(s, Cur(s, w), s.fibers[Cur(s, w)].(user := Free)),
         events := SetEvent(s, e, s.events[e].(holder := Nobody, waiter := None)))
    case GoOn(w) =>
      // a woken fiber that does not take the mutex again; its handle is not used any more
      var e := s.fibers[Cur(s, w)].user.e;
      s.(fibers := SetFiber(s, Cur(s, w), s.fibers[Cur(s, w)].(user := Free)),
         events := SetEvent(s, e, s.events[e].(waiter := None)))
    case DescheduleSelf(w) =>
      var fib := s.fibers[Cur(s, w)];
      s.(fibers := SetFiber(s, Cur(s, w),
        fib.(descheduled := true, lock := Some(fib.user.e), user := Away(fib.user.e))),
         workers := SetWorker(s, w, s.workers[w].(pc := Leaving)))
    case Exit(w) =>
      s.(fibers := SetFiber(s, Cur(s, w), s.fibers[Cur(s, w)].(terminate := true)),
         workers := SetWorker(s, w, s.workers[w].(pc := Leaving)))
  }

  function Start(workers: nat, events: nat, wakers: nat): State {
    State([], seq(workers, _ => Worker(Queues([], [], [], []), None, None, None, Returning, false, 0, 0)),
          seq(events, _ => Event(Nobody, false, None)), seq(wakers, _ => Idle))
  }
}

/** Every fiber is in one place, and no wake-up is lost. */
module FiberControlProof {
  import opened Options
  import opened FiberControl

  /** The places a fiber can be. */
  datatype Loc = InQueue(w: nat) | InHand(w: nat) | Current(w: nat) | Previous(w: nat) | InTransit(k: nat) | Blocked
    | Dead

  /** Bookkeeping the program does not have: each fiber's place, how often it has been taken off
      the CPU by a deschedule, and how often a waker has put it back on a queue. */
  datatype Hist = Hist(locs: seq<Loc>, blocks: seq<nat>, wakes: seq<nat>)

  datatype Conf = Conf(s: State, h: Hist)

  function Move(h: Hist, f: nat, l: Loc): Hist {
    if f < |h.locs| then h.(locs := h.locs[f := l]) else h
  }

  function MoveOpt(h: Hist, f: Option<nat>, l: Loc): Hist {
    if f.Some? then Move(h, f.value, l) else h
  }

  function HistStep(c: Conf, a: Action): Hist
    requires Enabled(c.s, a)
  {
    var s, h := c.s, c.h;
    match a
    case Launch(_, w) => Hist(h.locs + [InQueue(w)], h.blocks + [0], h.wakes + [0])
    case BaseRemove(w) => MoveOpt(h, Remove(s.workers[w].queues).1, InHand(w))
    case YieldPop(w) => MoveOpt(h, Remove(s.workers[w].queues).1, InHand(w))
    case BaseSwitch(w) => MoveOpt(h, s.workers[w].hand, Current(w))
    case YieldTo(w) =>
      var wk := s.workers[w];
      var leaves := wk.hand.Some? || s.fibers[wk.cur.value].terminate || s.fibers[wk.cur.value].descheduled;
      MoveOpt(if leaves then MoveOpt(h, wk.cur, Previous(w)) else h, wk.hand, Current(w))
    case Settle(w) =>
      var f := s.workers[w].prev.value;
      if s.fibers[f].descheduled then
        Move(h, f, Blocked).(blocks := if f < |h.blocks| then h.blocks[f := h.blocks[f] + 1] else h.blocks)
      else if s.fibers[f].terminate then Move(h, f, Dead)
      else h
    case Requeue(w) => MoveOpt(h, s.workers[w].prev, InQueue(w))
    case ScheduleTid(k, _) =>
      var e := s.wakers[k].e;
      if s.events[e].waiter.Some? && !s.fibers[s.events[e].waiter.value].scheduleable
      then Move(h, s.events[e].waiter.value, InTransit(k)) else h
    case EnqueueWoken(k, w) =>
      var f := s.wakers[k].f;
      Move(h, f, InQueue(w)).(wakes := if f < |h.wakes| then h.wakes[f := h.wakes[f] + 1] else h.wakes)
    case _ => h
  }

  function ConfStep(c: Conf, a: Action): Conf
    requires Enabled(c.s, a)
  {
    Conf(Step(c.s, a), HistStep(c, a))
  }

  // ---- The invariant ----

  ghost predicate At(c: Conf, f: nat, l: Loc) {
    f < |c.h.locs| && c.h.locs[f] == l
  }

  predicate Flagged(fib: Fiber) { fib.descheduled || fib.terminate }

  ghost predicate PcOk(s: State, w: nat)
    requires w < |s.workers|
  {
    var wk := s.workers[w];
    && (wk.waiting <==> wk.pc.Locking? || wk.pc.Checking? || wk.pc.Asleep? || wk.pc.Chosen? || wk.pc.Released?)
    && match wk.pc
    case Returning => wk.cur.None? && wk.prev.None? && wk.hand.None?
    case Locking => wk.cur.None? && wk.prev.None? && wk.hand.None?
    case Checking => wk.cur.None? && wk.prev.None? && wk.hand.None?
    case Asleep => wk.cur.None? && wk.prev.None? && wk.hand.None?
      && (NoneQueued(wk.queues) || wk.looks + wk.signals > 0)
    case Chosen => wk.cur.None? && wk.prev.None? && wk.hand.Some?
    case Released => wk.cur.None? && wk.prev.None? && wk.hand.Some?
    case Departing => wk.cur.None? && wk.prev.None? && wk.hand.Some?
    case Running => wk.cur.Some? && wk.prev.None? && wk.hand.None? && wk.cur.value < |s.fibers|
      && !Flagged(s.fibers[wk.cur.value])
    case Leaving => wk.cur.Some? && wk.prev.None? && wk.hand.None? && wk.cur.value < |s.fibers|
      && Flagged(s.fibers[wk.cur.value])
    case Yielding => wk.cur.Some? && wk.prev.None? && wk.cur.value < |s.fibers|
      && (s.fibers[wk.cur.value].user.Holding? ==> false)
    case Settling => wk.prev.Some? && wk.hand.None?
      && (wk.cur.Some? ==> wk.cur.value < |s.fibers| && !Flagged(s.fibers[wk.cur.value]))
    case Requeueing =>
      (wk.prev.Some? && wk.hand.None? && wk.prev.value < |s.fibers| && !Flagged(s.fibers[wk.prev.value]) &&
       (wk.cur.Some? ==> wk.cur.value < |s.fibers| && !Flagged(s.fibers[wk.cur.value])))
  }

  ghost predicate WorkerOk(c: Conf, w: nat)
    requires w < |c.s.workers|
  {
    var wk := c.s.workers[w];
    && (forall f: nat :: Count(wk.queues, f) == if At(c, f, InQueue(w)) then 1 else 0)
    && (wk.hand.Some? ==> At(c, wk.hand.value, InHand(w)))
    && (wk.cur.Some? ==> At(c, wk.cur.value, Current(w)))
    && (wk.prev.Some? ==> At(c, wk.prev.value, Previous(w)))
    && PcOk(c.s, w)
  }

  /** The fiber is where its place says, on a worker it may run on, with flags that fit. */
  ghost predicate PlaceOk(c: Conf, f: nat)
    requires f < |c.s.fibers| && f < |c.h.locs|
  {
    var s, fib := c.s, c.s.fibers[f];
    match c.h.locs[f]
    case InQueue(w) => w < |s.workers| && w in fib.affinity && !Flagged(fib) && fib.scheduleable
    case InHand(w) => w < |s.workers| && w in fib.affinity && !Flagged(fib) && fib.scheduleable
      && s.workers[w].hand == Some(f)
    case Current(w) => w < |s.workers| && w in fib.affinity && fib.scheduleable && !fib.priority
      && s.workers[w].cur == Some(f)
    case Previous(w) => w < |s.workers| && w in fib.affinity && fib.scheduleable && !fib.priority
      && s.workers[w].prev == Some(f)
    case InTransit(k) => !Flagged(fib) && fib.scheduleable && fib.user.Away? && k < |s.wakers|
      && s.wakers[k] == Carries(fib.user.e, f)
    case Blocked => !Flagged(fib) && !fib.scheduleable && fib.user.Away?
    case Dead => fib.terminate && !fib.descheduled && fib.scheduleable && fib.user.Free?
  }

  /** The waiting protocol, seen from the fiber. */
  ghost predicate WaitOk(c: Conf, f: nat)
    requires f < |c.s.fibers| && f < |c.h.locs|
  {
    var s, fib := c.s, c.s.fibers[f];
    && (fib.terminate ==> fib.user.Free? && !fib.descheduled)
    && (fib.lock.Some? <==> fib.descheduled)
    && (fib.user.Holding? ==>
      fib.user.e < |s.events| && s.events[fib.user.e].holder == ByFiber(f) && s.events[fib.user.e].waiter == Some(f)
      && !fib.descheduled)
    && (fib.user.Away? ==> fib.user.e < |s.events| && s.events[fib.user.e].waiter == Some(f))
    && (fib.descheduled ==>
      fib.user.Away? && fib.lock == Some(fib.user.e) && s.events[fib.user.e].holder == ByFiber(f) &&
      !s.events[fib.user.e].ready)
    && (c.h.locs[f] == Blocked && fib.user.Away? && s.events[fib.user.e].ready ==>
          exists k :: 0 <= k < |s.wakers| && s.wakers[k] == Holds(fib.user.e, true))
  }

  ghost predicate EventOk(c: Conf, e: nat)
    requires e < |c.s.events|
  {
    var s, ev := c.s, c.s.events[e];
    && (ev.holder.ByFiber? ==>
      ev.holder.f < |s.fibers|
      && (s.fibers[ev.holder.f].user == Holding(e)
      || (s.fibers[ev.holder.f].user == Away(e) && s.fibers[ev.holder.f].descheduled)))
    && (ev.holder.ByWaker? ==> ev.holder.k < |s.wakers| && !s.wakers[ev.holder.k].Idle? && s.wakers[ev.holder.k].e == e)
    && (ev.waiter.Some? ==>
      ev.waiter.value < |s.fibers| &&
      (s.fibers[ev.waiter.value].user == Holding(e) || s.fibers[ev.waiter.value].user == Away(e)))
  }

  ghost predicate WakerOk(c: Conf, k: nat)
    requires k < |c.s.wakers|
  {
    var s, wa := c.s, c.s.wakers[k];
    && (!wa.Idle? ==> wa.e < |s.events| && s.events[wa.e].holder == ByWaker(k))
    && (wa.Carries? ==> At(c, wa.f, InTransit(k)))
  }

  ghost predicate CountOk(c: Conf, f: nat)
    requires f < |c.h.locs| == |c.h.blocks| == |c.h.wakes|
  {
    c.h.blocks[f] == c.h.wakes[f] + (if c.h.locs[f].Blocked? || c.h.locs[f].InTransit? then 1 else 0)
  }

  ghost predicate Sized(c: Conf) {
    |c.h.locs| == |c.h.blocks| == |c.h.wakes| == |c.s.fibers|
  }

  ghost predicate Inv(c: Conf) {
    && Sized(c)
    && (forall w :: 0 <= w < |c.s.workers| ==> WorkerOk(c, w))
    && (forall f :: 0 <= f < |c.s.fibers| ==> PlaceOk(c, f) && WaitOk(c, f) && CountOk(c, f))
    && (forall e :: 0 <= e < |c.s.events| ==> EventOk(c, e))
    && (forall k :: 0 <= k < |c.s.wakers| ==> WakerOk(c, k))
  }

  // ---- Steps of one worker that move fibers among its own places ----

  predicate SameButPriority(a: Fiber, b: Fiber) {
    b == a.(priority := b.priority)
  }

  /** On worker w, in one of the pointers rather than a queue. */
  predicate Pointed(l: Loc, w: nat) {
    l == InHand(w) || l == Current(w) || l == Previous(w)
  }

  predicate OnWorker(l: Loc, w: nat) {
    Pointed(l, w) || l == InQueue(w)
  }

  ghost predicate OwnMove(c: Conf, d: Conf, w: nat, moved: set<nat>)
    requires Sized(c)
  {
    && w < |c.s.workers| == |d.s.workers| && Sized(d) && |d.s.fibers| == |c.s.fibers|
    && d.s.events == c.s.events && d.s.wakers == c.s.wakers
    && d.s.workers == c.s.workers[w := d.s.workers[w]]
    && d.h.blocks == c.h.blocks && d.h.wakes == c.h.wakes
    && (forall f :: 0 <= f < |c.s.fibers| ==> SameButPriority(c.s.fibers[f], d.s.fibers[f]))
    && (forall f :: 0 <= f < |c.s.fibers| && f !in moved ==>
      d.h.locs[f] == c.h.locs[f] && d.s.fibers[f] == c.s.fibers[f])
    && (forall f :: f in moved ==> f < |c.s.fibers| && OnWorker(c.h.locs[f], w) && OnWorker(d.h.locs[f], w))
  }

  lemma OwnMoveKeeps(c: Conf, d: Conf, w: nat, moved: set<nat>)
    requires Inv(c) && OwnMove(c, d, w, moved) && WorkerOk(d, w)
    requires forall f :: 0 <= f < |c.s.fibers| && (f in moved || Pointed(c.h.locs[f], w)) ==> PlaceOk(d, f)
    ensures Inv(d)
  {
    forall v | 0 <= v < |d.s.workers| && v != w ensures WorkerOk(d, v) { OtherWorker(c, d, w, moved, v); }
    forall f | 0 <= f < |d.s.fibers| ensures PlaceOk(d, f) && WaitOk(d, f) && CountOk(d, f) {
      assert PlaceOk(c, f) && WaitOk(c, f) && CountOk(c, f) && SameButPriority(c.s.fibers[f], d.s.fibers[f]);
    }
    forall e | 0 <= e < |d.s.events| ensures EventOk(d, e) { assert EventOk(c, e); }
    forall k | 0 <= k < |d.s.wakers| ensures WakerOk(d, k) { assert WakerOk(c, k); }
  }

  lemma OtherWorker(c: Conf, d: Conf, w: nat, moved: set<nat>, v: nat)
    requires Inv(c) && OwnMove(c, d, w, moved) && v < |c.s.workers| && v != w
    ensures WorkerOk(d, v)
  {
    assert WorkerOk(c, v);
    forall f: nat ensures At(d, f, InQueue(v)) == At(c, f, InQueue(v)) {}
    forall f: nat | At(c, f, InHand(v)) || At(c, f, Current(v)) || At(c, f, Previous(v)) ensures f !in moved {}
  }

  function Popped(c: Conf, w: nat, pc: Pc): Conf
    requires w < |c.s.workers|
  {
    var (q, f) := Remove(c.s.workers[w].queues);
    Conf(c.s.(workers := SetWorker(c.s, w, c.s.workers[w].(queues := q, hand := f, pc := pc))),
      MoveOpt(c.h, f, InHand(w)))
  }

  /** What active_queue_remove takes was queued here, and nothing else leaves the line. */
  lemma RemoveFacts(c: Conf, w: nat)
    requires Inv(c) && w < |c.s.workers|
    ensures var (q, f) := Remove(c.s.workers[w].queues);
      && (f.Some? ==> At(c, f.value, InQueue(w)))
      && (f.None? ==> NoneQueued(q))
      && (forall g: nat :: Count(q, g) == if At(c, g, InQueue(w)) && f != Some(g) then 1 else 0)
  {
    assert WorkerOk(c, w);
    var (q, f) := Remove(c.s.workers[w].queues);
    if f.Some? { RemoveCount(c.s.workers[w].queues, f.value); } else { RemoveCount(c.s.workers[w].queues, 0); }
    forall g: nat ensures Count(q, g) == if At(c, g, InQueue(w)) && f != Some(g) then 1 else 0 {
      RemoveCount(c.s.workers[w].queues, g);
    }
  }

  lemma PoppedWorker(c: Conf, w: nat, pc: Pc)
    requires Inv(c) && w < |c.s.workers| && c.s.workers[w].hand.None?
    requires PcOk(Popped(c, w, pc).s, w)
    ensures WorkerOk(Popped(c, w, pc), w)
  {
    var d := Popped(c, w, pc);
    RemoveFacts(c, w);
    var f := Remove(c.s.workers[w].queues).1;
    assert WorkerOk(c, w);
    forall g: nat ensures At(d, g, InQueue(w)) <==> At(c, g, InQueue(w)) && f != Some(g) {}
  }

  lemma PoppedInv(c: Conf, w: nat, pc: Pc)
    requires Inv(c) && w < |c.s.workers| && c.s.workers[w].hand.None?
    requires PcOk(Popped(c, w, pc).s, w)
    ensures Inv(Popped(c, w, pc))
  {
    hide Count;
    var d := Popped(c, w, pc);
    PoppedWorker(c, w, pc);
    RemoveFacts(c, w);
    var f := Remove(c.s.workers[w].queues).1;
    var moved := if f.Some? then {f.value} else {};
    forall g | 0 <= g < |c.s.fibers| && (g in moved || Pointed(c.h.locs[g], w))
      ensures PlaceOk(d, g)
    {
      assert PlaceOk(c, g);
    }
    OwnMoveKeeps(c, d, w, moved);
  }

  lemma BaseRemoveStep(c: Conf, w: nat)
    requires Inv(c) && Enabled(c.s, BaseRemove(w))
    ensures Inv(ConfStep(c, BaseRemove(w)))
  {
    assert WorkerOk(c, w);
    RemoveFacts(c, w);
    var pc := if Remove(c.s.workers[w].queues).1.Some? then Chosen else Asleep;
    assert ConfStep(c, BaseRemove(w)) == Popped(c, w, pc);
    PoppedInv(c, w, pc);
  }

  lemma YieldPopStep(c: Conf, w: nat)
    requires Inv(c) && Enabled(c.s, YieldPop(w))
    ensures Inv(ConfStep(c, YieldPop(w)))
  {
    assert WorkerOk(c, w);
    assert WaitOk(c, c.s.workers[w].cur.value);
    assert ConfStep(c, YieldPop(w)) == Popped(c, w, Yielding);
    PoppedInv(c, w, Yielding);
  }

  /** The root loop's lock and flag, and what enqueuers do about them. */
  lemma RootLoopStep(c: Conf, a: Action)
    requires Inv(c) && Enabled(c.s, a) && OfRoot(a) && !a.BaseRemove? && !a.BaseSwitch?
    ensures Inv(ConfStep(c, a))
  {
    var d := ConfStep(c, a);
    assert WorkerOk(c, a.w);
    assert forall g: nat :: At(d, g, InQueue(a.w)) <==> At(c, g, InQueue(a.w));
    forall g | 0 <= g < |c.s.fibers| && Pointed(c.h.locs[g], a.w) ensures PlaceOk(d, g) { assert PlaceOk(c, g); }
    OwnMoveKeeps(c, d, a.w, {});
  }

  lemma BaseSwitchStep(c: Conf, w: nat)
    requires Inv(c) && Enabled(c.s, BaseSwitch(w))
    ensures Inv(ConfStep(c, BaseSwitch(w)))
  {
    hide Count;
    var d := ConfStep(c, BaseSwitch(w));
    assert WorkerOk(c, w);
    var f := c.s.workers[w].hand.value;
    assert PlaceOk(c, f);
    assert forall g: nat :: At(d, g, InQueue(w)) <==> At(c, g, InQueue(w));
    assert WorkerOk(d, w);
    forall g | 0 <= g < |c.s.fibers| && (g == f || Pointed(c.h.locs[g], w))
      ensures PlaceOk(d, g)
    {
      assert PlaceOk(c, g);
    }
    OwnMoveKeeps(c, d, w, {f});
  }

  function Switched(c: Conf, w: nat): Conf
    requires w < |c.s.workers| && c.s.workers[w].hand.Some? && c.s.workers[w].cur.Some?
    requires c.s.workers[w].hand.value < |c.s.fibers|
  {
    var wk := c.s.workers[w];
    Conf(c.s.(fibers := SetFiber(c.s, wk.hand.value, c.s.fibers[wk.hand.value].(priority := false)),
              workers := SetWorker(c.s, w, wk.(prev := wk.cur, cur := wk.hand, hand := None, pc := Settling))),
         Move(Move(c.h, wk.cur.value, Previous(w)), wk.hand.value, Current(w)))
  }

  lemma SwitchedWorker(c: Conf, w: nat)
    requires Inv(c) && Enabled(c.s, YieldTo(w)) && c.s.workers[w].hand.Some?
    ensures WorkerOk(Switched(c, w), w)
  {
    var d := Switched(c, w);
    assert WorkerOk(c, w);
    assert PlaceOk(c, c.s.workers[w].hand.value);
    assert forall g: nat :: At(d, g, InQueue(w)) <==> At(c, g, InQueue(w));
  }

  lemma SwitchedInv(c: Conf, w: nat)
    requires Inv(c) && Enabled(c.s, YieldTo(w)) && c.s.workers[w].hand.Some?
    ensures Inv(Switched(c, w))
  {
    hide Count;
    var d := Switched(c, w);
    assert WorkerOk(c, w);
    var f, g := c.s.workers[w].hand.value, c.s.workers[w].cur.value;
    SwitchedWorker(c, w);
    forall k | 0 <= k < |c.s.fibers| && (k == f || k == g || Pointed(c.h.locs[k], w))
      ensures PlaceOk(d, k)
    {
      assert PlaceOk(c, k);
    }
    OwnMoveKeeps(c, d, w, {f, g});
  }

  function Left(c: Conf, w: nat): Conf
    requires w < |c.s.workers| && c.s.workers[w].cur.Some?
  {
    var wk := c.s.workers[w];
    Conf(c.s.(workers := SetWorker(c.s, w, wk.(prev := wk.cur, cur := None, pc := Settling))),
      Move(c.h, wk.cur.value, Previous(w)))
  }

  lemma LeftInv(c: Conf, w: nat)
    requires Inv(c) && Enabled(c.s, YieldTo(w)) && c.s.workers[w].hand.None?
    ensures Inv(Left(c, w))
  {
    hide Count;
    var d := Left(c, w);
    assert WorkerOk(c, w);
    var g := c.s.workers[w].cur.value;
    assert forall k: nat :: At(d, k, InQueue(w)) <==> At(c, k, InQueue(w));
    assert WorkerOk(d, w);
    forall k | 0 <= k < |c.s.fibers| && (k == g || Pointed(c.h.locs[k], w))
      ensures PlaceOk(d, k)
    {
      assert PlaceOk(c, k);
    }
    OwnMoveKeeps(c, d, w, {g});
  }

  /** A change of one worker's program counter alone. */
  lemma PcInv(c: Conf, w: nat, pc: Pc)
    requires Inv(c) && w < |c.s.workers|
    requires PcOk(c.s.(workers := SetWorker(c.s, w, c.s.workers[w].(pc := pc))), w)
    ensures Inv(Conf(c.s.(workers := SetWorker(c.s, w, c.s.workers[w].(pc := pc))), c.h))
  {
    var d := Conf(c.s.(workers := SetWorker(c.s, w, c.s.workers[w].(pc := pc))), c.h);
    assert WorkerOk(c, w);
    assert WorkerOk(d, w);
    forall k | 0 <= k < |c.s.fibers| && Pointed(c.h.locs[k], w) ensures PlaceOk(d, k) { assert PlaceOk(c, k); }
    OwnMoveKeeps(c, d, w, {});
  }

  lemma YieldToStep(c: Conf, w: nat)
    requires Inv(c) && Enabled(c.s, YieldTo(w))
    ensures Inv(ConfStep(c, YieldTo(w)))
  {
    assert WorkerOk(c, w);
    var wk := c.s.workers[w];
    if wk.hand.Some? {
      SwitchedInv(c, w);
      assert ConfStep(c, YieldTo(w)) == Switched(c, w);
    } else if Flagged(c.s.fibers[wk.cur.value]) {
      LeftInv(c, w);
      assert ConfStep(c, YieldTo(w)) == Left(c, w);
    } else {
      PcInv(c, w, Running);
      assert ConfStep(c, YieldTo(w)) == Conf(c.s.(workers := SetWorker(c.s, w, wk.(pc := Running))), c.h);
    }
  }

  function Requeued(c: Conf, w: nat): Conf
    requires w < |c.s.workers| && c.s.workers[w].prev.Some? && c.s.workers[w].prev.value < |c.s.fibers|
  {
    var wk := c.s.workers[w];
    var f := wk.prev.value;
    Conf(c.s.(workers := SetWorker(c.s, w, Onward(InsertOwn(wk, f, c.s.fibers[f])))), Move(c.h, f, InQueue(w)))
  }

  lemma RequeuedWorker(c: Conf, w: nat)
    requires Inv(c) && Enabled(c.s, Requeue(w))
    ensures WorkerOk(Requeued(c, w), w)
  {
    hide WaitOk, CountOk, EventOk, Count;
    var d := Requeued(c, w);
    assert WorkerOk(c, w);
    var f := c.s.workers[w].prev.value;
    assert PlaceOk(c, f);
    forall g: nat ensures Count(d.s.workers[w].queues, g) == if At(d, g, InQueue(w)) then 1 else 0 {
      EnqueueCount(c.s.workers[w].queues, f, c.s.fibers[f].priority, g);
    }
  }

  lemma RequeueStep(c: Conf, w: nat)
    requires Inv(c) && Enabled(c.s, Requeue(w))
    ensures Inv(ConfStep(c, Requeue(w)))
  {
    hide Count;
    var d := Requeued(c, w);
    assert WorkerOk(c, w);
    var f := c.s.workers[w].prev.value;
    RequeuedWorker(c, w);
    forall k | 0 <= k < |c.s.fibers| && (k == f || Pointed(c.h.locs[k], w))
      ensures PlaceOk(d, k)
    {
      assert PlaceOk(c, k);
    }
    OwnMoveKeeps(c, d, w, {f});
    assert ConfStep(c, Requeue(w)) == d;
  }

  // ---- Steps that leave every fiber where it is ----

  /** Workers see a fiber only through its place, its affinity and its flags. */
  ghost predicate Stays(c: Conf, d: Conf)
    requires Sized(c)
  {
    && d.h == c.h && |d.s.fibers| == |c.s.fibers| && |d.s.workers| == |c.s.workers|
    && |d.s.events| == |c.s.events| && |d.s.wakers| == |c.s.wakers|
    && (forall w :: 0 <= w < |c.s.workers| ==> d.s.workers[w] == c.s.workers[w].(pc := d.s.workers[w].pc))
    && (forall f :: 0 <= f < |c.s.fibers| ==>
      d.s.fibers[f].affinity == c.s.fibers[f].affinity && d.s.fibers[f].scheduleable == c.s.fibers[f].scheduleable)
  }

  lemma StaysKeeps(c: Conf, d: Conf)
    requires Inv(c) && Stays(c, d)
    requires forall w :: 0 <= w < |c.s.workers| ==> PcOk(d.s, w)
    requires forall f :: 0 <= f < |c.s.fibers| ==> PlaceOk(d, f) && WaitOk(d, f)
    requires forall e :: 0 <= e < |d.s.events| ==> EventOk(d, e)
    requires forall k :: 0 <= k < |d.s.wakers| ==> WakerOk(d, k)
    ensures Inv(d)
  {
    forall w | 0 <= w < |d.s.workers| ensures WorkerOk(d, w) { assert WorkerOk(c, w); }
    forall f | 0 <= f < |d.s.fibers| ensures CountOk(d, f) { assert CountOk(c, f); }
  }

  lemma LockEventStep(c: Conf, w: nat, e: nat)
    requires Inv(c) && Enabled(c.s, LockEvent(w, e))
    ensures Inv(ConfStep(c, LockEvent(w, e)))
  {
    hide Count;
    var d := ConfStep(c, LockEvent(w, e));
    assert WorkerOk(c, w) && PlaceOk(c, Cur(c.s, w)) && WaitOk(c, Cur(c.s, w)) && EventOk(c, e);
    forall v | 0 <= v < |c.s.workers| ensures PcOk(d.s, v) { assert WorkerOk(c, v); }
    forall f | 0 <= f < |c.s.fibers| ensures PlaceOk(d, f) && WaitOk(d, f) { assert PlaceOk(c, f) && WaitOk(c, f); }
    forall x | 0 <= x < |d.s.events| ensures EventOk(d, x) { assert EventOk(c, x); }
    forall k | 0 <= k < |d.s.wakers| ensures WakerOk(d, k) { assert WakerOk(c, k); }
    StaysKeeps(c, d);
  }

  lemma UnregisterStep(c: Conf, w: nat)
    requires Inv(c) && Enabled(c.s, Unregister(w))
    ensures Inv(ConfStep(c, Unregister(w)))
  {
    hide Count;
    var d := ConfStep(c, Unregister(w));
    assert WorkerOk(c, w) && PlaceOk(c, Cur(c.s, w)) && WaitOk(c, Cur(c.s, w));
    forall v | 0 <= v < |c.s.workers| ensures PcOk(d.s, v) { assert WorkerOk(c, v); }
    forall f | 0 <= f < |c.s.fibers| ensures PlaceOk(d, f) && WaitOk(d, f) { assert PlaceOk(c, f) && WaitOk(c, f); }
    forall x | 0 <= x < |d.s.events| ensures EventOk(d, x) { assert EventOk(c, x); }
    forall k | 0 <= k < |d.s.wakers| ensures WakerOk(d, k) { assert WakerOk(c, k); }
    StaysKeeps(c, d);
  }

  lemma GoOnStep(c: Conf, w: nat)
    requires Inv(c) && Enabled(c.s, GoOn(w))
    ensures Inv(ConfStep(c, GoOn(w)))
  {
    hide Count;
    var d := ConfStep(c, GoOn(w));
    assert WorkerOk(c, w) && PlaceOk(c, Cur(c.s, w)) && WaitOk(c, Cur(c.s, w));
    forall v | 0 <= v < |c.s.workers| ensures PcOk(d.s, v) { assert WorkerOk(c, v); }
    forall f | 0 <= f < |c.s.fibers| ensures PlaceOk(d, f) && WaitOk(d, f) { assert PlaceOk(c, f) && WaitOk(c, f); }
    forall x | 0 <= x < |d.s.events| ensures EventOk(d, x) { assert EventOk(c, x); }
    forall k | 0 <= k < |d.s.wakers| ensures WakerOk(d, k) { assert WakerOk(c, k); }
    StaysKeeps(c, d);
  }

  lemma DescheduleSelfStep(c: Conf, w: nat)
    requires Inv(c) && Enabled(c.s, DescheduleSelf(w))
    ensures Inv(ConfStep(c, DescheduleSelf(w)))
  {
    hide Count;
    var d := ConfStep(c, DescheduleSelf(w));
    assert WorkerOk(c, w) && PlaceOk(c, Cur(c.s, w)) && WaitOk(c, Cur(c.s, w));
    forall v | 0 <= v < |c.s.workers| ensures PcOk(d.s, v) { assert WorkerOk(c, v); }
    forall f | 0 <= f < |c.s.fibers| ensures PlaceOk(d, f) && WaitOk(d, f) { assert PlaceOk(c, f) && WaitOk(c, f); }
    forall x | 0 <= x < |d.s.events| ensures EventOk(d, x) { assert EventOk(c, x); }
    forall k | 0 <= k < |d.s.wakers| ensures WakerOk(d, k) { assert WakerOk(c, k); }
    StaysKeeps(c, d);
  }

  lemma ExitStep(c: Conf, w: nat)
    requires Inv(c) && Enabled(c.s, Exit(w))
    ensures Inv(ConfStep(c, Exit(w)))
  {
    hide Count;
    var d := ConfStep(c, Exit(w));
    assert WorkerOk(c, w) && PlaceOk(c, Cur(c.s, w)) && WaitOk(c, Cur(c.s, w));
    forall v | 0 <= v < |c.s.workers| ensures PcOk(d.s, v) { assert WorkerOk(c, v); }
    forall f | 0 <= f < |c.s.fibers| ensures PlaceOk(d, f) && WaitOk(d, f) { assert PlaceOk(c, f) && WaitOk(c, f); }
    forall x | 0 <= x < |d.s.events| ensures EventOk(d, x) { assert EventOk(c, x); }
    forall k | 0 <= k < |d.s.wakers| ensures WakerOk(d, k) { assert WakerOk(c, k); }
    StaysKeeps(c, d);
  }

  lemma WakerMutexStep(c: Conf, a: Action)
    requires Inv(c) && Enabled(c.s, a) && (a.WakerLock? || a.WakerUnlock?)
    ensures Inv(ConfStep(c, a))
  {
    hide Count;
    var d := ConfStep(c, a);
    assert WakerOk(c, a.k);
    forall v | 0 <= v < |c.s.workers| ensures PcOk(d.s, v) { assert WorkerOk(c, v); }
    forall f | 0 <= f < |c.s.fibers|
      ensures PlaceOk(d, f) && WaitOk(d, f)
    {
      assert PlaceOk(c, f) && WaitOk(c, f);
      WaiterKept(c, d, f, a.k);
    }
    forall x | 0 <= x < |d.s.events| ensures EventOk(d, x) { assert EventOk(c, x); }
    forall k | 0 <= k < |d.s.wakers| ensures WakerOk(d, k) { assert WakerOk(c, k); }
    StaysKeeps(c, d);
  }

  /** The waker that owes a blocked fiber its wake-up is still there when another waker has moved. */
  lemma WaiterKept(c: Conf, d: Conf, f: nat, k: nat)
    requires Inv(c) && f < |c.s.fibers| && k < |c.s.wakers| == |d.s.wakers|
    requires d.s.wakers == c.s.wakers[k := d.s.wakers[k]]
    requires c.s.wakers[k].Holds? && c.s.wakers[k].owes ==> d.s.wakers[k] == c.s.wakers[k]
    ensures var u := c.s.fibers[f].user;
      u.Away? && u.e < |c.s.events| && c.h.locs[f] == Blocked && c.s.events[u.e].ready ==>
      exists j :: 0 <= j < |d.s.wakers| && d.s.wakers[j] == Holds(u.e, true)
  {
    assert WaitOk(c, f);
    var u := c.s.fibers[f].user;
    if u.Away? && u.e < |c.s.events| && c.h.locs[f] == Blocked && c.s.events[u.e].ready {
      var j :| 0 <= j < |c.s.wakers| && c.s.wakers[j] == Holds(u.e, true);
      assert d.s.wakers[j] == Holds(u.e, true);
    }
  }

  lemma ReadyStep(c: Conf, a: Action)
    requires Inv(c) && Enabled(c.s, a) && (a.SetReady? || a.ClearReady?)
    ensures Inv(ConfStep(c, a))
  {
    hide Count;
    var d := ConfStep(c, a);
    assert WakerOk(c, a.k);
    assert a.SetReady? ==> d.s.wakers[a.k] == Holds(c.s.wakers[a.k].e, true);
    forall v | 0 <= v < |c.s.workers| ensures PcOk(d.s, v) { assert WorkerOk(c, v); }
    forall f | 0 <= f < |c.s.fibers| ensures PlaceOk(d, f) && WaitOk(d, f) {
      assert PlaceOk(c, f) && WaitOk(c, f);
      WaiterKept(c, d, f, a.k);
    }
    forall x | 0 <= x < |d.s.events| ensures EventOk(d, x) { assert EventOk(c, x); }
    forall k | 0 <= k < |d.s.wakers| ensures WakerOk(d, k) { assert WakerOk(c, k); }
    StaysKeeps(c, d);
  }

  // ---- Steps that take a fiber off its worker, or bring it back ----

  /** Only fiber f's place changes, and worker w is the only worker that gains, loses or changes anything. */
  ghost predicate Relocates(c: Conf, d: Conf, w: nat, f: nat)
    requires Sized(c)
  {
    && Sized(d) && f < |c.s.fibers| == |d.s.fibers| && |d.s.workers| == |c.s.workers|
    && d.h.locs == c.h.locs[f := d.h.locs[f]]
    && d.s.fibers == c.s.fibers[f := d.s.fibers[f]]
    && (forall v :: 0 <= v < |c.s.workers| && v != w ==>
      d.s.workers[v] == c.s.workers[v] && !OnWorker(c.h.locs[f], v) && !OnWorker(d.h.locs[f], v))
  }

  lemma RelocatesElsewhere(c: Conf, d: Conf, w: nat, f: nat, v: nat)
    requires Inv(c) && Relocates(c, d, w, f) && v < |c.s.workers| && v != w
    ensures WorkerOk(d, v)
  {
    assert WorkerOk(c, v);
    forall g: nat ensures At(d, g, InQueue(v)) == At(c, g, InQueue(v)) {}
    var wk := c.s.workers[v];
    assert wk.cur.Some? ==> wk.cur.value != f;
    assert wk.prev.Some? ==> wk.prev.value != f;
  }

  function SettledAway(c: Conf, w: nat): Conf
    requires Enabled(c.s, Settle(w)) && c.s.workers[w].prev.value < |c.h.locs|
  {
    var f := c.s.workers[w].prev.value;
    var fib := c.s.fibers[f];
    Conf(c.s.(fibers := SetFiber(c.s, f, fib.(descheduled := false, scheduleable := false, lock := None)),
              events := if fib.lock.Some?
                then SetEvent(c.s, fib.lock.value, c.s.events[fib.lock.value].(holder := Nobody)) else c.s.events,
              workers := SetWorker(c.s, w, Onward(c.s.workers[w]))),
         Move(c.h, f, Blocked).(blocks := if f < |c.h.blocks| then c.h.blocks[f := c.h.blocks[f] + 1] else c.h.blocks))
  }

  lemma SettledWorker(c: Conf, w: nat, d: Conf)
    requires Inv(c) && Enabled(c.s, Settle(w)) && w < |d.s.workers|
    requires d.s.workers[w] == Onward(c.s.workers[w]) && |d.s.fibers| == |c.s.fibers| && |d.h.locs| == |c.h.locs|
    requires var f := c.s.workers[w].prev.value;
      f < |c.h.locs| && !OnWorker(d.h.locs[f], w) && d.h.locs == c.h.locs[f := d.h.locs[f]]
      && d.s.fibers == c.s.fibers[f := d.s.fibers[f]]
    ensures WorkerOk(d, w)
  {
    assert WorkerOk(c, w);
    var f := c.s.workers[w].prev.value;
    forall g: nat ensures At(d, g, InQueue(w)) == At(c, g, InQueue(w)) {}
    assert c.s.workers[w].cur != Some(f);
  }

  lemma SettledAwayFiber(c: Conf, w: nat, g: nat)
    requires Inv(c) && Enabled(c.s, Settle(w)) && c.s.workers[w].prev.value < |c.h.locs|
      && c.s.fibers[c.s.workers[w].prev.value].descheduled && g < |c.s.fibers|
    ensures var d := SettledAway(c, w);
      Sized(d) && g < |d.s.fibers| && PlaceOk(d, g) && WaitOk(d, g) && CountOk(d, g)
  {
    hide Count;
    assert WorkerOk(c, w);
    var f := c.s.workers[w].prev.value;
    assert PlaceOk(c, f) && WaitOk(c, f) && CountOk(c, f);
    assert PlaceOk(c, g) && WaitOk(c, g) && CountOk(c, g);
  }

  lemma SettledAwayInv(c: Conf, w: nat)
    requires Inv(c) && Enabled(c.s, Settle(w)) && c.s.workers[w].prev.value < |c.h.locs|
      && c.s.fibers[c.s.workers[w].prev.value].descheduled
    ensures Inv(SettledAway(c, w))
  {
    hide Count, CountOk;
    var d := SettledAway(c, w);
    var f := c.s.workers[w].prev.value;
    assert WorkerOk(c, w) && PlaceOk(c, f) && WaitOk(c, f);
    SettledWorker(c, w, d);
    forall v | 0 <= v < |d.s.workers| ensures WorkerOk(d, v) { if v != w { RelocatesElsewhere(c, d, w, f, v); } }
    forall g | 0 <= g < |d.s.fibers| ensures PlaceOk(d, g) && WaitOk(d, g) && CountOk(d, g) {
      SettledAwayFiber(c, w, g);
    }
    forall e | 0 <= e < |d.s.events| ensures EventOk(d, e) { assert EventOk(c, e); }
    forall k | 0 <= k < |d.s.wakers| ensures WakerOk(d, k) { assert WakerOk(c, k); }
  }

  function SettledDead(c: Conf, w: nat): Conf
    requires Enabled(c.s, Settle(w))
  {
    Conf(c.s.(workers := SetWorker(c.s, w, Onward(c.s.workers[w]))), Move(c.h, c.s.workers[w].prev.value, Dead))
  }

  lemma SettledDeadInv(c: Conf, w: nat)
    requires Inv(c) && Enabled(c.s, Settle(w))
    requires c.s.fibers[c.s.workers[w].prev.value].terminate && !c.s.fibers[c.s.workers[w].prev.value].descheduled
    ensures Inv(SettledDead(c, w))
  {
    var d := SettledDead(c, w);
    var f := c.s.workers[w].prev.value;
    assert WorkerOk(c, w) && PlaceOk(c, f) && WaitOk(c, f) && CountOk(c, f);
    SettledWorker(c, w, d);
    forall v | 0 <= v < |d.s.workers| ensures WorkerOk(d, v) { if v != w { RelocatesElsewhere(c, d, w, f, v); } }
    forall g | 0 <= g < |d.s.fibers|
      ensures PlaceOk(d, g) && WaitOk(d, g) && CountOk(d, g)
    {
      assert PlaceOk(c, g) && WaitOk(c, g) && CountOk(c, g);
    }
    forall e | 0 <= e < |d.s.events| ensures EventOk(d, e) { assert EventOk(c, e); }
    forall k | 0 <= k < |d.s.wakers| ensures WakerOk(d, k) { assert WakerOk(c, k); }
  }

  lemma SettleStep(c: Conf, w: nat)
    requires Inv(c) && Enabled(c.s, Settle(w))
    ensures Inv(ConfStep(c, Settle(w)))
  {
    assert WorkerOk(c, w);
    var fib := c.s.fibers[c.s.workers[w].prev.value];
    if fib.descheduled {
      assert ConfStep(c, Settle(w)) == SettledAway(c, w);
      SettledAwayInv(c, w);
    } else if fib.terminate {
      assert ConfStep(c, Settle(w)) == SettledDead(c, w);
      SettledDeadInv(c, w);
    } else {
      assert ConfStep(c, Settle(w)) == Conf(c.s.(workers := SetWorker(c.s, w, c.s.workers[w].(pc := Requeueing))), c.h);
      PcInv(c, w, Requeueing);
    }
  }

  function Carried(c: Conf, k: nat, e: nat, f: nat, priority: bool): Conf
    requires k < |c.s.wakers| && f < |c.s.fibers|
  {
    Conf(c.s.(fibers := SetFiber(c.s, f,
      c.s.fibers[f].(descheduled := false, scheduleable := true, priority := priority)),
              wakers := c.s.wakers[k := Carries(e, f)]),
         Move(c.h, f, InTransit(k)))
  }

  /** schedule_tid finds its fiber blocked and takes it in hand. */
  lemma CarriedInv(c: Conf, k: nat, e: nat, f: nat, priority: bool)
    requires Inv(c) && Enabled(c.s, ScheduleTid(k, priority)) && e == c.s.wakers[k].e && c.s.events[e].waiter == Some(f)
      && !c.s.fibers[f].scheduleable
    ensures Inv(Carried(c, k, e, f, priority))
  {
    hide Count;
    var d := Carried(c, k, e, f, priority);
    assert WakerOk(c, k) && EventOk(c, e) && PlaceOk(c, f) && WaitOk(c, f) && CountOk(c, f);
    forall v | 0 <= v < |d.s.workers| ensures WorkerOk(d, v) { RelocatesElsewhere(c, d, |c.s.workers|, f, v); }
    forall g | 0 <= g < |d.s.fibers| ensures PlaceOk(d, g) && WaitOk(d, g) && CountOk(d, g) {
      assert PlaceOk(c, g) && WaitOk(c, g) && CountOk(c, g);
      if g != f { OtherWaiter(c, d, g, k, e); }
    }
    forall x | 0 <= x < |d.s.events| ensures EventOk(d, x) { assert EventOk(c, x); }
    forall j | 0 <= j < |d.s.wakers| ensures WakerOk(d, j) { assert WakerOk(c, j); }
  }

  /** A waker at work on event e owes nothing to the waiter of any other event. */
  lemma OtherWaiter(c: Conf, d: Conf, g: nat, k: nat, e: nat)
    requires Inv(c) && g < |c.s.fibers| && k < |c.s.wakers| == |d.s.wakers|
    requires d.s.wakers == c.s.wakers[k := d.s.wakers[k]] && !c.s.wakers[k].Idle? && c.s.wakers[k].e == e
    ensures var u := c.s.fibers[g].user;
      u.Away? && u.e != e && u.e < |c.s.events| && c.h.locs[g] == Blocked && c.s.events[u.e].ready ==>
      exists j :: 0 <= j < |d.s.wakers| && d.s.wakers[j] == Holds(u.e, true)
  {
    assert WaitOk(c, g);
    var u := c.s.fibers[g].user;
    if u.Away? && u.e != e && u.e < |c.s.events| && c.h.locs[g] == Blocked && c.s.events[u.e].ready {
      var j :| 0 <= j < |c.s.wakers| && c.s.wakers[j] == Holds(u.e, true);
      assert d.s.wakers[j] == Holds(u.e, true);
    }
  }

  lemma NothingToCarry(c: Conf, k: nat, e: nat, priority: bool)
    requires Inv(c) && Enabled(c.s, ScheduleTid(k, priority)) && e == c.s.wakers[k].e
    requires c.s.events[e].waiter.Some? ==> c.s.fibers[c.s.events[e].waiter.value].scheduleable
    ensures Inv(Conf(c.s.(wakers := c.s.wakers[k := Holds(e, false)]), c.h))
  {
    hide Count;
    var d := Conf(c.s.(wakers := c.s.wakers[k := Holds(e, false)]), c.h);
    assert WakerOk(c, k) && EventOk(c, e);
    forall v | 0 <= v < |c.s.workers| ensures PcOk(d.s, v) { assert WorkerOk(c, v); }
    forall f | 0 <= f < |c.s.fibers| ensures PlaceOk(d, f) && WaitOk(d, f) {
      assert PlaceOk(c, f) && WaitOk(c, f);
      OtherWaiter(c, d, f, k, e);
    }
    forall x | 0 <= x < |d.s.events| ensures EventOk(d, x) { assert EventOk(c, x); }
    forall j | 0 <= j < |d.s.wakers| ensures WakerOk(d, j) { assert WakerOk(c, j); }
    StaysKeeps(c, d);
  }

  lemma ScheduleTidStep(c: Conf, k: nat, priority: bool)
    requires Inv(c) && Enabled(c.s, ScheduleTid(k, priority))
    ensures Inv(ConfStep(c, ScheduleTid(k, priority)))
  {
    var e := c.s.wakers[k].e;
    if c.s.events[e].waiter.Some? && !c.s.fibers[c.s.events[e].waiter.value].scheduleable {
      CarriedInv(c, k, e, c.s.events[e].waiter.value, priority);
    } else {
      NothingToCarry(c, k, e, priority);
    }
  }

  lemma EnqueuedWorker(c: Conf, k: nat, w: nat)
    requires Inv(c) && Enabled(c.s, EnqueueWoken(k, w))
    ensures w < |ConfStep(c, EnqueueWoken(k, w)).s.workers| && WorkerOk(ConfStep(c, EnqueueWoken(k, w)), w)
  {
    hide WaitOk, CountOk, EventOk, Count;
    var d := ConfStep(c, EnqueueWoken(k, w));
    var f := c.s.wakers[k].f;
    assert WakerOk(c, k) && PlaceOk(c, f) && WorkerOk(c, w);
    forall g: nat ensures Count(d.s.workers[w].queues, g) == if At(d, g, InQueue(w)) then 1 else 0 {
      EnqueueCount(c.s.workers[w].queues, f, c.s.fibers[f].priority, g);
    }
  }

  lemma EnqueuedFibers(c: Conf, k: nat, w: nat, g: nat)
    requires Inv(c) && Enabled(c.s, EnqueueWoken(k, w)) && g < |c.s.fibers|
    ensures var d := ConfStep(c, EnqueueWoken(k, w));
      Sized(d) && g < |d.s.fibers| && PlaceOk(d, g) && WaitOk(d, g) && CountOk(d, g)
  {
    hide Count;
    var d := ConfStep(c, EnqueueWoken(k, w));
    var f := c.s.wakers[k].f;
    assert WakerOk(c, k) && PlaceOk(c, f);
    assert PlaceOk(c, g) && WaitOk(c, g) && CountOk(c, g);
    WaiterKept(c, d, g, k);
  }

  lemma EnqueueWokenStep(c: Conf, k: nat, w: nat)
    requires Inv(c) && Enabled(c.s, EnqueueWoken(k, w))
    ensures Inv(ConfStep(c, EnqueueWoken(k, w)))
  {
    hide Count, PlaceOk, WaitOk, CountOk;
    var d := ConfStep(c, EnqueueWoken(k, w));
    var f := c.s.wakers[k].f;
    WokenFits(c, k, w);
    EnqueuedWorker(c, k, w);
    forall v | 0 <= v < |d.s.workers| ensures WorkerOk(d, v) { if v != w { RelocatesElsewhere(c, d, w, f, v); } }
    forall g | 0 <= g < |d.s.fibers|
      ensures PlaceOk(d, g) && WaitOk(d, g) && CountOk(d, g)
    {
      EnqueuedFibers(c, k, w, g);
    }
    forall x | 0 <= x < |d.s.events| ensures EventOk(d, x) { assert EventOk(c, x); }
    forall j | 0 <= j < |d.s.wakers| ensures WakerOk(d, j) { assert WakerOk(c, j); }
  }

  /** The fiber in the waker's hand is on its way, with neither flag set. */
  lemma WokenFits(c: Conf, k: nat, w: nat)
    requires Inv(c) && Enabled(c.s, EnqueueWoken(k, w))
    ensures At(c, c.s.wakers[k].f, InTransit(k)) && !Flagged(c.s.fibers[c.s.wakers[k].f])
  {
    assert WakerOk(c, k) && PlaceOk(c, c.s.wakers[k].f);
  }

  lemma LaunchStep(c: Conf, aff: set<nat>, w: nat)
    requires Inv(c) && Enabled(c.s, Launch(aff, w))
    ensures Inv(ConfStep(c, Launch(aff, w)))
  {
    var d := ConfStep(c, Launch(aff, w));
    LaunchedWorkers(c, aff, w);
    forall f | 0 <= f < |d.s.fibers| ensures PlaceOk(d, f) && WaitOk(d, f) && CountOk(d, f) {
      if f < |c.s.fibers| { assert PlaceOk(c, f) && WaitOk(c, f) && CountOk(c, f); }
    }
    forall e | 0 <= e < |d.s.events| ensures EventOk(d, e) { assert EventOk(c, e); }
    forall k | 0 <= k < |d.s.wakers| ensures WakerOk(d, k) { assert WakerOk(c, k); }
  }

  lemma LaunchedWorkers(c: Conf, aff: set<nat>, w: nat)
    requires Inv(c) && Enabled(c.s, Launch(aff, w))
    ensures var d := ConfStep(c, Launch(aff, w)); forall v :: 0 <= v < |d.s.workers| ==> WorkerOk(d, v)
  {
    var d := ConfStep(c, Launch(aff, w));
    forall v | 0 <= v < |d.s.workers| ensures WorkerOk(d, v) {
      assert WorkerOk(c, v);
      forall g: nat ensures Count(d.s.workers[v].queues, g) == if At(d, g, InQueue(v)) then 1 else 0 {
        if v == w { EnqueueCount(c.s.workers[w].queues, |c.s.fibers|, false, g); }
        assert At(c, g, InQueue(v)) ==> g < |c.s.fibers|;
      }
    }
  }

  lemma InvStep(c: Conf, a: Action)
    requires Inv(c) && Enabled(c.s, a)
    ensures Inv(ConfStep(c, a))
  {
    hide Inv, Step, HistStep;
    match a
    case Launch(aff, w) => LaunchStep(c, aff, w);
    case BaseRemove(w) => BaseRemoveStep(c, w);
    case SpuriousWake(_) => RootLoopStep(c, a);
    case RaiseFlag(_) => RootLoopStep(c, a);
    case TakeLock(_) => RootLoopStep(c, a);
    case ReleaseLock(_) => RootLoopStep(c, a);
    case LowerFlag(_) => RootLoopStep(c, a);
    case Look(_) => RootLoopStep(c, a);
    case Signal(_) => RootLoopStep(c, a);
    case BaseSwitch(w) => BaseSwitchStep(c, w);
    case YieldPop(w) => YieldPopStep(c, w);
    case YieldTo(w) => YieldToStep(c, w);
    case Settle(w) => SettleStep(c, w);
    case Requeue(w) => RequeueStep(c, w);
    case LockEvent(w, e) => LockEventStep(c, w, e);
    case Unregister(w) => UnregisterStep(c, w);
    case DescheduleSelf(w) => DescheduleSelfStep(c, w);
    case Exit(w) => ExitStep(c, w);
    case WakerLock(_, _) => WakerMutexStep(c, a);
    case WakerUnlock(_) => WakerMutexStep(c, a);
    case SetReady(_) => ReadyStep(c, a);
    case ClearReady(_) => ReadyStep(c, a);
    case ScheduleTid(k, priority) => ScheduleTidStep(c, k, priority);
    case GoOn(w) => GoOnStep(c, w);
    case EnqueueWoken(k, w) => EnqueueWokenStep(c, k, w);
  }
}

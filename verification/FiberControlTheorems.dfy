/** What holds in every run of the fiber scheduler. */
module FiberControlTheorems {
  import opened Options
  import opened FiberControl
  import opened FiberControlProof

  ghost predicate Legal(c: Conf, run: seq<Action>)
    decreases |run|
  {
    run == [] || (Enabled(c.s, run[0]) && Legal(ConfStep(c, run[0]), run[1..]))
  }

  ghost function After(c: Conf, run: seq<Action>): Conf
    requires Legal(c, run)
    decreases |run|
  {
    if run == [] then c else After(ConfStep(c, run[0]), run[1..])
  }

  function Initial(workers: nat, events: nat, wakers: nat): Conf {
    Conf(Start(workers, events, wakers), Hist([], [], []))
  }

  ghost predicate Reachable(workers: nat, events: nat, wakers: nat, c: Conf) {
    exists run :: Legal(Initial(workers, events, wakers), run) && After(Initial(workers, events, wakers), run) == c
  }

  lemma InitialInv(workers: nat, events: nat, wakers: nat)
    ensures Inv(Initial(workers, events, wakers))
  {
  }

  lemma {:induction false} InvRun(c: Conf, run: seq<Action>)
    requires Inv(c) && Legal(c, run)
    ensures Inv(After(c, run))
    decreases |run|
  {
    if run != [] {
      InvStep(c, run[0]);
      InvRun(ConfStep(c, run[0]), run[1..]);
    }
  }

  lemma ReachableInv(workers: nat, events: nat, wakers: nat, c: Conf)
    requires Reachable(workers, events, wakers, c)
    ensures Inv(c)
  {
    var run :| Legal(Initial(workers, events, wakers), run) && After(Initial(workers, events, wakers), run) == c;
    InitialInv(workers, events, wakers);
    InvRun(Initial(workers, events, wakers), run);
  }

  /** The program state itself shows fiber f in place l. */
  predicate Found(s: State, f: nat, l: Loc)
    requires f < |s.fibers|
  {
    match l
    case InQueue(w) => w < |s.workers| && Count(s.workers[w].queues, f) > 0
    case InHand(w) => w < |s.workers| && s.workers[w].hand == Some(f)
    case Current(w) => w < |s.workers| && s.workers[w].cur == Some(f)
    case Previous(w) => w < |s.workers| && s.workers[w].prev == Some(f)
    case InTransit(k) => k < |s.wakers| && s.wakers[k].Carries? && s.wakers[k].f == f
    case Blocked => !s.fibers[f].scheduleable
    case Dead => false
  }

  // ---- Affinity ----

  /** The affinity sets asked for by the launches of a run, in order. */
  function Asked(run: seq<Action>): seq<set<nat>> {
    if run == [] then [] else (if run[0].Launch? then [run[0].affinity] else []) + Asked(run[1..])
  }

  function Affinities(s: State): seq<set<nat>> {
    seq(|s.fibers|, f requires 0 <= f < |s.fibers| => s.fibers[f].affinity)
  }

  /** A launch adds a fiber with the set it asks for, and no step changes any fiber's set. */
  lemma StepAffinity(s: State, a: Action)
    requires Enabled(s, a)
    ensures Affinities(Step(s, a)) == Affinities(s) + if a.Launch? then [a.affinity] else []
  {
  }

  lemma {:induction false} AffinityAsAsked(c: Conf, run: seq<Action>)
    requires Legal(c, run)
    ensures Affinities(After(c, run).s) == Affinities(c.s) + Asked(run)
    decreases |run|
  {
    if run != [] {
      StepAffinity(c.s, run[0]);
      hide Step, Enabled;
      AffinityAsAsked(ConfStep(c, run[0]), run[1..]);
    }
  }

  /** Single ownership: whatever the interleaving, the program state shows each fiber in exactly the
      one place its history says, queued at most once, and only on workers of the affinity set it was
      launched with. A fiber that has been destroyed is shown nowhere. */
  lemma SingleOwnership(workers: nat, events: nat, wakers: nat, run: seq<Action>, f: nat, l: Loc)
    requires Legal(Initial(workers, events, wakers), run)
    requires f < |After(Initial(workers, events, wakers), run).s.fibers|
    ensures var c := After(Initial(workers, events, wakers), run);
      && |Asked(run)| == |c.s.fibers|
      && ((l.InQueue? || l.InHand? || l.Current? || l.Previous?) && Found(c.s, f, l) ==> l.w in Asked(run)[f])
      && f < |c.h.locs| && (Found(c.s, f, l) <==> c.h.locs[f] == l && !l.Dead?)
      && (l.InQueue? && Found(c.s, f, l) ==> Count(c.s.workers[l.w].queues, f) == 1)
  {
    var c := After(Initial(workers, events, wakers), run);
    AffinityAsAsked(Initial(workers, events, wakers), run);
    assert Reachable(workers, events, wakers, c);
    InOnePlace(workers, events, wakers, c, f, l);
    assert Affinities(c.s)[f] == Asked(run)[f];
  }

  lemma InOnePlace(workers: nat, events: nat, wakers: nat, c: Conf, f: nat, l: Loc)
    requires Reachable(workers, events, wakers, c) && f < |c.s.fibers|
    ensures f < |c.h.locs|
    ensures Found(c.s, f, l) <==> c.h.locs[f] == l && !l.Dead?
    ensures l.InQueue? && Found(c.s, f, l) ==> Count(c.s.workers[l.w].queues, f) == 1
    ensures (l.InQueue? || l.InHand? || l.Current? || l.Previous?) && Found(c.s, f, l) ==> l.w in c.s.fibers[f].affinity
  {
    ReachableInv(workers, events, wakers, c);
    assert PlaceOk(c, f);
    if (l.InQueue? || l.InHand? || l.Current? || l.Previous?) && l.w < |c.s.workers| { assert WorkerOk(c, l.w); }
    if l.InTransit? && l.k < |c.s.wakers| { assert WakerOk(c, l.k); }
  }

  /** No fiber runs on two workers. */
  lemma NeverOnTwoWorkers(workers: nat, events: nat, wakers: nat, c: Conf, v: nat, w: nat)
    requires Reachable(workers, events, wakers, c) && v < |c.s.workers| && w < |c.s.workers|
    requires c.s.workers[v].cur.Some? && c.s.workers[v].cur == c.s.workers[w].cur
    ensures v == w
  {
    ReachableInv(workers, events, wakers, c);
    assert WorkerOk(c, v) && WorkerOk(c, w);
  }

  /** The assertions of schedule_tid and deschedule_self cannot fail, and a waker that takes a
      blocked fiber in hand always enqueues it. */
  lemma AssertionsHold(workers: nat, events: nat, wakers: nat, c: Conf, a: Action)
    requires Reachable(workers, events, wakers, c) && Enabled(c.s, a)
    ensures a.ScheduleTid? && c.s.events[c.s.wakers[a.k].e].waiter.Some? ==>
      !c.s.fibers[c.s.events[c.s.wakers[a.k].e].waiter.value].descheduled
    ensures a.DescheduleSelf? ==> !c.s.fibers[Cur(c.s, a.w)].descheduled && c.s.fibers[Cur(c.s, a.w)].scheduleable
    ensures a.EnqueueWoken? ==> !Flagged(c.s.fibers[c.s.wakers[a.k].f]) && c.s.fibers[c.s.wakers[a.k].f].scheduleable
    ensures a.Requeue? ==>
      !Flagged(c.s.fibers[c.s.workers[a.w].prev.value]) && c.s.fibers[c.s.workers[a.w].prev.value].scheduleable
  {
    ReachableInv(workers, events, wakers, c);
    match a {
      case ScheduleTid(k, _) =>
        assert WakerOk(c, k) && EventOk(c, c.s.wakers[k].e);
        if c.s.events[c.s.wakers[k].e].waiter.Some? { assert WaitOk(c, c.s.events[c.s.wakers[k].e].waiter.value); }
      case DescheduleSelf(w) => assert WorkerOk(c, w) && PlaceOk(c, Cur(c.s, w)) && WaitOk(c, Cur(c.s, w));
      case EnqueueWoken(k, _) => assert WakerOk(c, k) && PlaceOk(c, c.s.wakers[k].f);
      case Requeue(w) => assert WorkerOk(c, w) && PlaceOk(c, c.s.workers[w].prev.value);
      case _ =>
    }
  }

  /** No lost wake-up: with the condition set and the mutex free, the fiber that left its handle is not blocked. */
  lemma NoLostWakeup(workers: nat, events: nat, wakers: nat, c: Conf, e: nat)
    requires Reachable(workers, events, wakers, c) && e < |c.s.events|
    requires c.s.events[e].ready && c.s.events[e].holder.Nobody? && c.s.events[e].waiter.Some?
    ensures c.s.events[e].waiter.value < |c.s.fibers| && c.s.fibers[c.s.events[e].waiter.value].scheduleable
  {
    ReachableInv(workers, events, wakers, c);
    assert EventOk(c, e);
    var f := c.s.events[e].waiter.value;
    assert PlaceOk(c, f) && WaitOk(c, f);
    forall k | 0 <= k < |c.s.wakers| ensures c.s.wakers[k] != Holds(e, true) { assert WakerOk(c, k); }
  }

  /** Every blocked fiber has left its handle where a waker will find it, and its mutex is released
      only once the scheduler is through with taking it off the CPU. */
  lemma BlockedCanBeFound(workers: nat, events: nat, wakers: nat, c: Conf, f: nat)
    requires Reachable(workers, events, wakers, c) && f < |c.s.fibers|
    ensures !c.s.fibers[f].scheduleable ==>
      c.s.fibers[f].user.Away? && c.s.fibers[f].user.e < |c.s.events|
      && c.s.events[c.s.fibers[f].user.e].waiter == Some(f)
    ensures c.s.fibers[f].descheduled ==>
      c.s.fibers[f].user.Away? && c.s.fibers[f].user.e < |c.s.events|
      && c.s.events[c.s.fibers[f].user.e].holder == ByFiber(f)
  {
    ReachableInv(workers, events, wakers, c);
    assert PlaceOk(c, f) && WaitOk(c, f);
  }

  /** Each time a fiber is taken off the CPU, wakers put it back on a queue exactly once. */
  lemma WokenOncePerBlock(workers: nat, events: nat, wakers: nat, c: Conf, f: nat)
    requires Reachable(workers, events, wakers, c) && f < |c.s.fibers|
    ensures f < |c.h.locs| == |c.h.blocks| == |c.h.wakes|
    ensures c.h.blocks[f] == c.h.wakes[f] + (if c.h.locs[f].Blocked? || c.h.locs[f].InTransit? then 1 else 0)
  {
    ReachableInv(workers, events, wakers, c);
    assert CountOk(c, f);
  }

  /** A worker asleep on its condition variable has nothing queued, or an enqueuer that has yet to read its
      `waiting` flag or to signal. The flag is set, so an enqueuer that reads it now will signal, and whoever
      signals wakes the worker: with every enqueuer through, nothing is queued at a sleeping worker. */
  lemma NoWorkerOversleeps(workers: nat, events: nat, wakers: nat, c: Conf, w: nat)
    requires Reachable(workers, events, wakers, c) && w < |c.s.workers| && c.s.workers[w].pc.Asleep?
    ensures var wk := c.s.workers[w];
      && (NoneQueued(wk.queues) || wk.looks > 0 || wk.signals > 0)
      && (wk.looks > 0 ==>
        Enabled(c.s, Look(w)) && Step(c.s, Look(w)).workers[w] == wk.(looks := wk.looks - 1, signals := wk.signals + 1))
      && (wk.signals > 0 ==>
        Enabled(c.s, Signal(w)) && Step(c.s, Signal(w)).workers[w] == wk.(signals := wk.signals - 1, pc := Locking))
  {
    ReachableInv(workers, events, wakers, c);
    assert WorkerOk(c, w);
  }
}

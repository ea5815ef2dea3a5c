/** The order in which a worker runs its fibers: in turn, whoever yields going behind all the others, with woken
    fibers let in before the queue if the waker asks for it. */
module FiberOrder {
  import opened Options
  import opened FiberControl
  import opened FiberControlProof

  /** A fiber with a worker's CPU that may yield. */
  ghost predicate MayYield(s: State, w: nat) {
    RunsAt(s, w, Running) && s.fibers[Cur(s, w)].user.Free?
  }

  ghost predicate Goes(s: State, a: Action, t: State) {
    Enabled(s, a) && Step(s, a) == t
  }

  /** With nothing else queued a yield changes nothing: the fiber keeps its CPU. */
  lemma LoneYield(c: Conf, w: nat) returns (t: State)
    requires Inv(c) && MayYield(c.s, w) && Line(c.s.workers[w].queues) == []
    ensures Goes(c.s, YieldPop(w), t) && Goes(t, YieldTo(w), c.s)
  {
    t := Step(c.s, YieldPop(w));
    var q := c.s.workers[w].queues;
    assert WorkerOk(c, w);
    assert q == Queues([], [], [], []);
    assert Step(t, YieldTo(w)).workers == c.s.workers;
  }

  // ---- One turn ----

  /** The worker f yields at, with g the first of its line. */
  ghost predicate Turning(s: State, w: nat, f: nat, q: Queues, g: nat) {
    && RunsAt(s, w, Running) && Cur(s, w) == f && f != g && g < |s.fibers|
    && s.fibers[f].user.Free? && !Flagged(s.fibers[f]) && s.fibers[f].scheduleable && !s.fibers[f].priority
    && !s.workers[w].waiting && s.workers[w].prev.None? && s.workers[w].hand.None?
    && Remove(s.workers[w].queues) == (q, Some(g))
  }

  function Popped(s: State, w: nat, q: Queues, g: nat): State
    requires w < |s.workers|
  {
    s.(workers := s.workers[w := s.workers[w].(queues := q, hand := Some(g), pc := Yielding)])
  }

  function Switched(s: State, w: nat, f: nat, q: Queues, g: nat, pc: Pc): State
    requires w < |s.workers| && g < |s.fibers|
  {
    s.(fibers := s.fibers[g := s.fibers[g].(priority := false)],
       workers := s.workers[w := s.workers[w].(queues := q, prev := Some(f), cur := Some(g), hand := None, pc := pc)])
  }

  /** After the turn: g has the CPU and f is at the end of the affinity queue. */
  function Turned(s: State, w: nat, f: nat, q: Queues, g: nat): State
    requires w < |s.workers| && g < |s.fibers|
  {
    s.(fibers := s.fibers[g := s.fibers[g].(priority := false)],
       workers := s.workers[w := s.workers[w].(queues := q.(affQueue := q.affQueue + [f]), cur := Some(g))])
  }

  lemma TurnPops(s: State, w: nat, f: nat, q: Queues, g: nat)
    requires Turning(s, w, f, q, g)
    ensures Goes(s, YieldPop(w), Popped(s, w, q, g))
    ensures Goes(Popped(s, w, q, g), YieldTo(w), Switched(s, w, f, q, g, Settling))
  {
    hide Remove;
  }

  lemma TurnSettles(s: State, w: nat, f: nat, q: Queues, g: nat)
    requires Turning(s, w, f, q, g) && s.fibers[f].lock.None?
    ensures Goes(Switched(s, w, f, q, g, Settling), Settle(w), Switched(s, w, f, q, g, Requeueing))
    ensures Goes(Switched(s, w, f, q, g, Requeueing), Requeue(w), Turned(s, w, f, q, g))
  {
    hide Remove;
  }

  lemma TurnBegins(c: Conf, w: nat) returns (q: Queues, g: nat)
    requires Inv(c) && MayYield(c.s, w) && Line(c.s.workers[w].queues) != []
    ensures Turning(c.s, w, Cur(c.s, w), q, g) && c.s.fibers[Cur(c.s, w)].lock.None?
    ensures Line(c.s.workers[w].queues) == [g] + Line(q)
  {
    var f := Cur(c.s, w);
    assert WorkerOk(c, w) && PlaceOk(c, f) && WaitOk(c, f);
    RemoveFacts(c, w);
    RemoveLine(c.s.workers[w].queues);
    q, g := Remove(c.s.workers[w].queues).0, Remove(c.s.workers[w].queues).1.value;
  }

  /** Otherwise the first of the line gets the CPU, and the fiber that yielded goes to its end. */
  lemma YieldTakesTurns(c: Conf, w: nat) returns (d: Conf)
    requires Inv(c) && MayYield(c.s, w) && Line(c.s.workers[w].queues) != []
    ensures Follows(c, [YieldPop(w), YieldTo(w), Settle(w), Requeue(w)], d) && Inv(d)
    ensures |d.s.workers| == |c.s.workers| && |d.s.fibers| == |c.s.fibers| && RunsAt(d.s, w, Running)
    ensures Cur(d.s, w) == Line(c.s.workers[w].queues)[0]
    ensures Line(d.s.workers[w].queues) == Line(c.s.workers[w].queues)[1..] + [Cur(c.s, w)]
    ensures forall f :: 0 <= f < |c.s.fibers| ==> SameButPriority(c.s.fibers[f], d.s.fibers[f])
    ensures d.s == c.s.(fibers := d.s.fibers, workers := c.s.workers[w := d.s.workers[w]])
  {
    var f := Cur(c.s, w);
    var q, g := TurnBegins(c, w);
    TurnPops(c.s, w, f, q, g);
    TurnSettles(c.s, w, f, q, g);
    EnqueueLine(q, f, false);
    hide Inv, Step, Enabled, Line;
    d := Four(c, YieldPop(w), YieldTo(w), Settle(w), Requeue(w), Popped(c.s, w, q, g),
      Switched(c.s, w, f, q, g, Settling),
              Switched(c.s, w, f, q, g, Requeueing), Turned(c.s, w, f, q, g));
  }

  /** One step after the other, with nothing in between. */
  ghost predicate Follows(c: Conf, run: seq<Action>, d: Conf)
    decreases |run|
  {
    if run == [] then c == d else Enabled(c.s, run[0]) && Follows(ConfStep(c, run[0]), run[1..], d)
  }

  lemma Four(c: Conf, a1: Action, a2: Action, a3: Action, a4: Action, t: State, u: State, v: State, x: State)
    returns (d: Conf)
    requires Inv(c) && Goes(c.s, a1, t) && Goes(t, a2, u) && Goes(u, a3, v) && Goes(v, a4, x)
    ensures Follows(c, [a1, a2, a3, a4], d) && Inv(d) && d.s == x
  {
    hide Inv, Step, Enabled;
    InvStep(c, a1);
    var c1 := ConfStep(c, a1);
    InvStep(c1, a2);
    var c2 := ConfStep(c1, a2);
    InvStep(c2, a3);
    var c3 := ConfStep(c2, a3);
    InvStep(c3, a4);
    d := ConfStep(c3, a4);
    assert [a1, a2, a3, a4][1..] == [a2, a3, a4] && [a2, a3, a4][1..] == [a3, a4] && [a3, a4][1..] == [a4]
      && [a4][1..] == [];
    assert Follows(c3, [a4], d) && Follows(c2, [a3, a4], d);
  }

  // ---- Round robin ----

  /** The fiber running at w and those in line behind it, none of them waiting for anything. */
  ghost function Round(s: State, w: nat): seq<nat>
    requires RunsAt(s, w, Running)
  {
    [Cur(s, w)] + Line(s.workers[w].queues)
  }

  ghost predicate AllFree(s: State, fs: seq<nat>) {
    forall i :: 0 <= i < |fs| ==> fs[i] < |s.fibers| && s.fibers[fs[i]].user.Free?
  }

  function Rotated(fs: seq<nat>, turns: nat): seq<nat>
    decreases turns
  {
    if turns == 0 || fs == [] then fs else Rotated(fs[1..] + [fs[0]], turns - 1)
  }

  lemma OneTurn(c: Conf, w: nat) returns (d: Conf)
    requires Inv(c) && RunsAt(c.s, w, Running) && Line(c.s.workers[w].queues) != [] && AllFree(c.s, Round(c.s, w))
    ensures Follows(c, [YieldPop(w), YieldTo(w), Settle(w), Requeue(w)], d) && Inv(d) && RunsAt(d.s, w, Running)
    ensures Round(d.s, w) == Round(c.s, w)[1..] + [Round(c.s, w)[0]]
    ensures Line(d.s.workers[w].queues) != [] && AllFree(d.s, Round(d.s, w))
  {
    hide Inv, Line, Follows;
    var r := Round(c.s, w);
    assert r[0] == Cur(c.s, w);
    d := YieldTakesTurns(c, w);
    var q := Round(d.s, w);
    assert q == r[1..] + [r[0]];
    forall i | 0 <= i < |q| ensures q[i] < |d.s.fibers| && d.s.fibers[q[i]].user.Free? {
      assert q[i] == r[if i + 1 < |r| then i + 1 else 0];
      assert SameButPriority(c.s.fibers[q[i]], d.s.fibers[q[i]]);
    }
  }

  /** One fiber after the other: with nobody interfering, each yield moves the round on by one. */
  lemma {:induction false} RoundRobin(c: Conf, w: nat, turns: nat) returns (run: seq<Action>, d: Conf)
    requires Inv(c) && RunsAt(c.s, w, Running) && Line(c.s.workers[w].queues) != [] && AllFree(c.s, Round(c.s, w))
    ensures Follows(c, run, d) && Inv(d) && RunsAt(d.s, w, Running) && |run| == 4 * turns
    ensures Round(d.s, w) == Rotated(Round(c.s, w), turns)
    decreases turns
  {
    hide Inv, Line, Step, Enabled, AllFree, RunsAt;
    run, d := [], c;
    if turns > 0 {
      var e := OneTurn(c, w);
      var rest;
      rest, d := RoundRobin(e, w, turns - 1);
      var first := [YieldPop(w), YieldTo(w), Settle(w), Requeue(w)];
      FollowsJoin(c, first, e, rest, d);
      run := first + rest;
    }
  }

  lemma {:induction false} FollowsJoin(c: Conf, run: seq<Action>, d: Conf, more: seq<Action>, e: Conf)
    requires Follows(c, run, d) && Follows(d, more, e)
    ensures Follows(c, run + more, e)
    decreases |run|
  {
    hide Step, Enabled;
    if run == [] {
      assert run + more == more;
    } else {
      assert (run + more)[1..] == run[1..] + more;
      FollowsJoin(ConfStep(c, run[0]), run[1..], d, more, e);
    }
  }

  /** So everyone in line gets the CPU, the i-th after i turns, and after a full round all is as it was. */
  lemma {:induction false} RotatedIs(fs: seq<nat>, turns: nat)
    requires turns <= |fs|
    ensures Rotated(fs, turns) == fs[turns..] + fs[..turns]
    decreases turns
  {
    if turns > 0 {
      var next := fs[1..] + [fs[0]];
      RotatedIs(next, turns - 1);
      assert next[turns - 1..] == fs[turns..] + [fs[0]] && next[..turns - 1] == fs[1..turns];
      assert [fs[0]] + fs[1..turns] == fs[..turns];
    }
  }

  // ---- Where the others come in ----

  /** A launched fiber goes behind everyone at its worker. */
  lemma LaunchJoins(s: State, affinity: set<nat>, w: nat)
    requires Enabled(s, Launch(affinity, w))
    ensures var t := Step(s, Launch(affinity, w));
      |t.workers| == |s.workers| && Line(t.workers[w].queues) == Line(s.workers[w].queues) + [|s.fibers|]
  {
    EnqueueLine(s.workers[w].queues, |s.fibers|, false);
  }

  /** A woken fiber goes before the affinity queue if its waker asks for it, and behind everyone if not. */
  lemma WokenJoins(c: Conf, k: nat, priority: bool, w: nat) returns (d: Conf, e: Conf)
    requires Inv(c) && Enabled(c.s, ScheduleTid(k, priority))
    requires Blocked(c.s, k) && w < |c.s.workers| && w in c.s.fibers[c.s.events[c.s.wakers[k].e].waiter.value].affinity
    ensures d == ConfStep(c, ScheduleTid(k, priority)) && Enabled(d.s, EnqueueWoken(k, w))
    ensures e == ConfStep(d, EnqueueWoken(k, w)) && |e.s.workers| == |c.s.workers|
    ensures var q, f := c.s.workers[w].queues, c.s.events[c.s.wakers[k].e].waiter.value;
      Line(e.s.workers[w].queues) ==
        if priority then (q.prioPopped + q.prioQueue) + [f] + (q.affPopped + q.affQueue) else Line(q) + [f]
  {
    var q, f := c.s.workers[w].queues, c.s.events[c.s.wakers[k].e].waiter.value;
    assert WakerOk(c, k) && EventOk(c, c.s.wakers[k].e) && PlaceOk(c, f);
    hide Inv, Line;
    d := ConfStep(c, ScheduleTid(k, priority));
    e := ConfStep(d, EnqueueWoken(k, w));
    EnqueueLine(q, f, priority);
  }

  /** The waker's event has a waiter, and that is off the CPU. */
  predicate Blocked(s: State, k: nat) {
    && k < |s.wakers| && !s.wakers[k].Idle? && s.wakers[k].e < |s.events| && s.events[s.wakers[k].e].waiter.Some?
    && s.events[s.wakers[k].e].waiter.value < |s.fibers|
    && !s.fibers[s.events[s.wakers[k].e].waiter.value].scheduleable
  }
}

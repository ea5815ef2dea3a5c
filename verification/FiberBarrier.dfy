/** fiber_barrier: a sense-reversing barrier for a fixed number of fibers. */
module FiberBarrier {
  import opened Counting
  import opened Numbers

  // ---- The barrier's fields, and its two critical sections ----

  datatype Barrier = Barrier(needed: nat, called: nat, sense: bool, release: bool, handles: seq<nat>)

  datatype Entry = Entry(barrier: Barrier, listeningOn: bool, closed: bool, wake: seq<nat>)

  /** wait() from the first lock: take a place, and close the round if it is the last one. */
  function Enter(b: Barrier, tid: nat): Entry
    requires b.called < |b.handles|
  {
    var handles := b.handles[b.called := tid];
    if b.called + 1 == b.needed then
      Entry(b.(handles := handles, called := 0, release := b.sense, sense := !b.sense), b.sense, true,
        handles[..|handles| - 1])
    else
      Entry(b.(handles := handles, called := b.called + 1), b.sense, false, [])
  }

  class FiberBarrier {
    var needed: nat
    var called: nat
    var barrierSense: bool
    var barrierRelease: bool
    var fiberHandles: seq<nat>

    constructor (n: nat)
      ensures View() == Barrier(n, 0, false, true, fiberHandles) && |fiberHandles| == n
    {
      needed, called, barrierSense, barrierRelease := n, 0, false, true;
      fiberHandles := seq(n, _ => 0);
    }

    function View(): Barrier
      reads this
    {
      Barrier(needed, called, barrierSense, barrierRelease, fiberHandles)
    }

    /** The fibers to schedule are handed out in order; mustWait says the fiber goes to sleep. */
    method EnterWait(tid: nat) returns (listeningOn: bool, mustWait: bool, scheduled: seq<nat>)
      requires called < |fiberHandles|
      modifies this
      ensures View() == Enter(old(View()), tid).barrier
      ensures scheduled == Enter(old(View()), tid).wake && listeningOn == Enter(old(View()), tid).listeningOn
      ensures mustWait <==> !Enter(old(View()), tid).closed && barrierRelease != listeningOn
      ensures listeningOn == old(barrierSense) && fiberHandles == old(fiberHandles)[old(called) := tid]
      ensures var closes := old(called) + 1 == old(needed);
        && needed == old(needed) && called == (if closes then 0 else old(called) + 1)
        && barrierSense == (old(barrierSense) != closes)
        && barrierRelease == (if closes then old(barrierSense) else old(barrierRelease))
        && scheduled == (if closes then fiberHandles[..|fiberHandles| - 1] else [])
    {
      fiberHandles := fiberHandles[called := tid];
      called := called + 1;
      listeningOn := barrierSense;
      scheduled := [];
      mustWait := false;
      if called == needed {
        var toWake := fiberHandles;
        called := 0;
        barrierRelease := barrierSense;
        barrierSense := !barrierSense;
        for i := 0 to |toWake| - 1
          invariant scheduled == toWake[..i]
        {
          scheduled := scheduled + [toWake[i]];
        }
      } else {
        mustWait := barrierRelease != listeningOn;
      }
    }
  }

  // ---- Fibers calling wait() again and again ----

  /** A fiber outside, asleep in the barrier, or scheduled again but not yet back in it. */
  datatype Place = Outside | Asleep(listeningOn: bool) | Scheduled(listeningOn: bool)

  datatype Fiber = Fiber(place: Place, entered: nat, left: nat)

  datatype Sys = Sys(barrier: Barrier, fibers: seq<Fiber>)

  datatype Action = CallWait(f: nat) | Resume(f: nat)

  function Start(n: nat): Sys {
    Sys(Barrier(n, 0, false, true, seq(n, _ => 0)), seq(n, _ => Fiber(Outside, 0, 0)))
  }

  predicate Enabled(s: Sys, a: Action) {
    && a.f < |s.fibers|
    && (a.CallWait? ==> s.fibers[a.f].place.Outside?)
    && (a.Resume? ==> s.fibers[a.f].place.Scheduled?)
  }

  /** What schedule_tid does to the fibers named. */
  function Woken(f: Fiber): Fiber {
    if f.place.Asleep? then f.(place := Scheduled(f.place.listeningOn)) else f
  }

  function WakeAll(fibers: seq<Fiber>, wake: seq<nat>): seq<Fiber> {
    seq(|fibers|, i requires 0 <= i < |fibers| => if i in wake then Woken(fibers[i]) else fibers[i])
  }

  function Step(s: Sys, a: Action): Sys
    requires Enabled(s, a) && s.barrier.called < |s.barrier.handles|
  {
    var f := s.fibers[a.f];
    match a
    case CallWait(i) =>
      var e := Enter(s.barrier, i);
      var in' := f.entered + 1;
      if e.closed then Sys(e.barrier, WakeAll(s.fibers, e.wake)[i := Fiber(Outside, in', f.left + 1)])
      else if e.barrier.release != e.listeningOn
        then Sys(e.barrier, s.fibers[i := Fiber(Asleep(e.listeningOn), in', f.left)])
      else Sys(e.barrier, s.fibers[i := Fiber(Outside, in', f.left + 1)])
    case Resume(i) =>
      if s.barrier.release != f.place.listeningOn
        then s.(fibers := s.fibers[i := f.(place := Asleep(f.place.listeningOn))])
      else s.(fibers := s.fibers[i := Fiber(Outside, f.entered, f.left + 1)])
  }

  // ---- What holds after r closed rounds ----

  ghost predicate FiberRight(b: Barrier, r: nat, i: nat, f: Fiber) {
    match f.place
    case Outside => f.entered == r && f.left == r
    case Asleep(l) => f.entered == r + 1 && f.left == r && l == b.sense && i in b.handles[..Min(b.called, |b.handles|)]
    case Scheduled(l) => f.entered == r && f.left + 1 == r && l == b.release
  }

  ghost predicate Inv(s: Sys, r: nat) {
    var b := s.barrier;
    && b.needed == |b.handles| == |s.fibers| && b.called < b.needed && b.release == !b.sense
    && (forall i :: 0 <= i < |s.fibers| ==> FiberRight(b, r, i, s.fibers[i]))
    && Distinct(b.handles[..b.called])
    && (forall k :: 0 <= k < b.called ==> b.handles[k] < |s.fibers| && s.fibers[b.handles[k]].place.Asleep?)
  }

  lemma WaitKeeps(s: Sys, r: nat, i: nat) returns (r': nat)
    requires Inv(s, r) && Enabled(s, CallWait(i))
    ensures Inv(Step(s, CallWait(i)), r')
    ensures r' == r + if s.barrier.called + 1 == s.barrier.needed then 1 else 0
  {
    var b := s.barrier;
    assert FiberRight(b, r, i, s.fibers[i]);
    assert i !in b.handles[..b.called];
    if b.called + 1 == b.needed {
      r' := r + 1;
      CloseKeeps(s, r, i);
    } else {
      r' := r;
      SleepKeeps(s, r, i);
    }
  }

  lemma SleepKeeps(s: Sys, r: nat, i: nat)
    requires Inv(s, r) && Enabled(s, CallWait(i)) && s.barrier.called + 1 < s.barrier.needed
    requires i !in s.barrier.handles[..s.barrier.called]
    ensures Inv(Step(s, CallWait(i)), r)
  {
    var b, s' := s.barrier, Step(s, CallWait(i));
    var b' := s'.barrier;
    assert b'.handles[..b'.called] == b.handles[..b.called] + [i];
    assert s'.fibers == s.fibers[i := Fiber(Asleep(b.sense), s.fibers[i].entered + 1, s.fibers[i].left)];
    forall j | 0 <= j < |s'.fibers| ensures FiberRight(b', r, j, s'.fibers[j]) {
      assert FiberRight(b, r, j, s.fibers[j]);
    }
  }

  lemma CloseKeeps(s: Sys, r: nat, i: nat)
    requires Inv(s, r) && Enabled(s, CallWait(i)) && s.barrier.called + 1 == s.barrier.needed
    requires i !in s.barrier.handles[..s.barrier.called]
    ensures Inv(Step(s, CallWait(i)), r + 1)
  {
    var b, s' := s.barrier, Step(s, CallWait(i));
    var wake := Enter(b, i).wake;
    assert wake == b.handles[..b.called];
    Pigeonhole(wake, b.needed, i);
    forall j | 0 <= j < |s'.fibers| ensures FiberRight(s'.barrier, r + 1, j, s'.fibers[j]) {
      assert FiberRight(b, r, j, s.fibers[j]);
      if j != i {
        assert j in wake;
        var k :| 0 <= k < |wake| && wake[k] == j;
        assert s.fibers[b.handles[k]].place.Asleep?;
      }
    }
  }

  lemma ResumeKeeps(s: Sys, r: nat, i: nat)
    requires Inv(s, r) && Enabled(s, Resume(i))
    ensures Inv(Step(s, Resume(i)), r) && Step(s, Resume(i)).fibers[i].place.Outside?
  {
  }

  ghost predicate Reachable(n: nat, s: Sys, run: seq<Action>)
    decreases |run|
  {
    if run == [] then s == Start(n) else
      var earlier := run[..|run| - 1];
      exists before :: Reachable(n, before, earlier) && Leads(before, run[|run| - 1], s)
  }

  ghost predicate Leads(s: Sys, a: Action, s': Sys) {
    Enabled(s, a) && s.barrier.called < |s.barrier.handles| && s' == Step(s, a)
  }

  lemma {:induction false} ReachableInv(n: nat, s: Sys, run: seq<Action>) returns (r: nat)
    requires n >= 1 && Reachable(n, s, run)
    ensures Inv(s, r) && |s.fibers| == n
    decreases |run|
  {
    r := 0;
    if run != [] {
      var a := run[|run| - 1];
      var before :| Reachable(n, before, run[..|run| - 1]) && Leads(before, a, s);
      r := ReachableInv(n, before, run[..|run| - 1]);
      if a.CallWait? { r := WaitKeeps(before, r, a.f); } else { ResumeKeeps(before, r, a.f); }
    }
  }

  // ---- The rounds ----

  /** No fiber leaves its k-th wait before all have entered their k-th, so rounds differ by at most one. */
  lemma NobodyLeavesEarly(n: nat, s: Sys, run: seq<Action>, f: nat, g: nat)
    requires n >= 1 && Reachable(n, s, run) && f < |s.fibers| && g < |s.fibers|
    ensures s.fibers[f].left <= s.fibers[g].entered
    ensures s.fibers[f].entered <= s.fibers[g].entered + 1
  {
    var r := ReachableInv(n, s, run);
    assert FiberRight(s.barrier, r, f, s.fibers[f]) && FiberRight(s.barrier, r, g, s.fibers[g]);
  }

  /** A fiber asleep waits for a round someone has not entered yet: every waiter of a closed round has been woken. */
  lemma ClosedRoundIsWoken(n: nat, s: Sys, run: seq<Action>, f: nat)
    requires n >= 1 && Reachable(n, s, run) && f < |s.fibers| && s.fibers[f].place.Asleep?
    ensures exists g :: 0 <= g < |s.fibers| && s.fibers[g].entered < s.fibers[f].entered
  {
    var r := ReachableInv(n, s, run);
    var b := s.barrier;
    var g := SomeoneMissing(b.handles[..b.called], n);
    assert FiberRight(b, r, g, s.fibers[g]) && FiberRight(b, r, f, s.fibers[f]);
  }

  /** A fiber that was scheduled leaves when it gets the mutex, although the next round may be filling up already. */
  lemma WokenFiberLeaves(n: nat, s: Sys, run: seq<Action>, f: nat)
    requires n >= 1 && Reachable(n, s, run) && Enabled(s, Resume(f))
    ensures s.barrier.called < |s.barrier.handles|
    ensures Step(s, Resume(f)).fibers[f] == Fiber(Outside, s.fibers[f].entered, s.fibers[f].left + 1)
  {
    var r := ReachableInv(n, s, run);
    assert FiberRight(s.barrier, r, f, s.fibers[f]);
  }

  /** The place a fiber takes is always in range, and somebody can always move on. */
  lemma NeverStuck(n: nat, s: Sys, run: seq<Action>) returns (a: Action)
    requires n >= 1 && Reachable(n, s, run)
    ensures s.barrier.called < |s.barrier.handles|
    ensures Enabled(s, a)
  {
    var r := ReachableInv(n, s, run);
    var b := s.barrier;
    var g := SomeoneMissing(b.handles[..b.called], n);
    assert FiberRight(b, r, g, s.fibers[g]);
    a := if s.fibers[g].place.Outside? then CallWait(g) else Resume(g);
  }
}

/** Completion reaches every machine: force_done tells each of the others, its cancel wakes whoever sleeps there,
    and after a bounded number of steps every fiber of the cluster has left its critical section with true. */
module CompletionSpreads {
  import opened Options
  import opened Sums
  import opened Consensus
  import opened TerminationDetection
  import opened TerminationProof
  import opened TerminationTheorems

  /** Every machine says done or is about to be told so, and where it has been told and the cancel after it has
      returned, no waiting fiber is left with its flag set. */
  ghost predicate Told(c: Conf)
    requires Shaped(c.s)
  {
    var s := c.s;
    c.h.completed ==>
      && (forall i :: 0 <= i < Procs(s) ==> (s.ms[i].done <==> i !in s.forced))
      && (forall i :: i in s.forced || i in s.waking ==> i < Procs(s))
      && (forall i :: i in s.waking ==> i !in s.forced)
      && (forall i, k :: 0 <= i < Procs(s) && 0 <= k < |s.pcs[i]| ==> Released(s, i, k))
  }

  ghost predicate Released(s: Sys, i: nat, k: nat)
    requires Shaped(s) && i < Procs(s) && k < |s.pcs[i]|
  {
    s.ms[i].done && i !in s.waking && s.pcs[i][k].Waiting? ==> !s.ms[i].sleeping[k]
  }

  // ---- Every step keeps it ----

  lemma SleeperTells(c: Conf, i: nat, k: nat)
    requires Inv(c) && !c.h.completed && Enabled(c.s, EndDone(i, k)) && Finishing(c.s, EndDone(i, k))
    ensures Shaped(Step(c.s, EndDone(i, k))) && Told(ConfStep(c, EndDone(i, k)))
  {
    hide Sum, CountTrue;
    CompletingPlace(c, EndDone(i, k));
    OthersAreAllButMe(Procs(c.s), i);
    assert Tallied(c.s, i);
    EndDoneShapes(c.s, i, k);
    SleptDoneFlags(c.s.ms[i], k);
  }

  lemma TokenTells(c: Conf)
    requires Inv(c) && !c.h.completed && Enabled(c.s, TakeToken) && Finishing(c.s, TakeToken)
    ensures Shaped(Step(c.s, TakeToken)) && Told(ConfStep(c, TakeToken))
  {
    hide Sum, CountTrue;
    CompletingPlace(c, TakeToken);
    OthersAreAllButMe(Procs(c.s), c.h.pos);
    assert Tallied(c.s, c.h.pos);
    TakeTokenShapes(c.s);
    CompletedFlags(Holding(c.s));
  }

  lemma CompletedFlags(l: Local)
    requires Accounted(l)
    ensures Completed(l).done && forall k :: 0 <= k < |l.sleeping| ==> !Completed(l).sleeping[k]
  {
    CountBounds(l.sleeping);
  }

  lemma SleptDoneFlags(l: Local, c: nat)
    requires Accounted(l) && c < |l.sleeping| && l.numactive == 1
    ensures SleptDone(l, c).done && forall k :: 0 <= k < |l.sleeping| && k != c ==> !SleptDone(l, c).sleeping[k]
  {
    CountBounds(l.sleeping);
  }

  lemma WakesTell(c: Conf, a: Action)
    requires Inv(c) && c.h.completed && Told(c) && Enabled(c.s, a) && (a.RunHandler? || a.LocalWake?)
    ensures Shaped(Step(c.s, a)) && Told(ConfStep(c, a))
  {
    hide Sum, CountTrue;
    var t := Step(c.s, a);
    forall i, k | 0 <= i < Procs(t) && 0 <= k < |t.pcs[i]| ensures Released(t, i, k) { assert Released(c.s, i, k); }
  }

  lemma CancelTells(c: Conf, i: nat)
    requires Inv(c) && c.h.completed && Told(c) && Enabled(c.s, ForceCancel(i))
    ensures Shaped(Step(c.s, ForceCancel(i))) && Told(ConfStep(c, ForceCancel(i)))
  {
    hide Sum, CountTrue;
    assert Tallied(c.s, i);
    WakeAllAccounted(c.s.ms[i]);
    var t := Step(c.s, ForceCancel(i));
    forall j, k | 0 <= j < Procs(t) && 0 <= k < |t.pcs[j]| ensures Released(t, j, k) { assert Released(c.s, j, k); }
  }

  lemma SleepTells(c: Conf, i: nat, k: nat)
    requires Inv(c) && c.h.completed && Told(c) && Enabled(c.s, EndDone(i, k))
    ensures Shaped(Step(c.s, EndDone(i, k))) && Told(ConfStep(c, EndDone(i, k)))
  {
    hide Sum, CountTrue;
    SleepAfterCompletion(c, i, k);
    if !c.s.ms[i].done { EndDoneShapes(c.s, i, k); }
    var t := Step(c.s, EndDone(i, k));
    forall j, m | 0 <= j < Procs(t) && 0 <= m < |t.pcs[j]| ensures Released(t, j, m) { assert Released(c.s, j, m); }
  }

  lemma OthersTell(c: Conf, a: Action)
    requires Inv(c) && c.h.completed && Told(c) && Enabled(c.s, a)
    requires a.Send? || a.Deliver? || a.CountCall? || a.Resume? || a.ForceDone?
    ensures Shaped(Step(c.s, a)) && Told(ConfStep(c, a))
  {
    hide Sum, CountTrue;
    var t := Step(c.s, a);
    forall i, k | 0 <= i < Procs(t) && 0 <= k < |t.pcs[i]| ensures Released(t, i, k) { assert Released(c.s, i, k); }
  }

  lemma ToldStep(c: Conf, a: Action)
    requires Inv(c) && Shaped(c.s) && Told(c) && Enabled(c.s, a)
    ensures Shaped(Step(c.s, a)) && Told(ConfStep(c, a))
  {
    hide Inv, Step, Told;
    if c.h.completed {
      TokenIsGone(c, a);
      match a
      case RunHandler(_, _) => WakesTell(c, a);
      case LocalWake(_, _, _) => WakesTell(c, a);
      case ForceCancel(i) => CancelTells(c, i);
      case EndDone(i, k) => SleepTells(c, i, k);
      case _ => OthersTell(c, a);
    } else if Finishing(c.s, a) {
      if a.EndDone? { SleeperTells(c, a.at, a.cpu); } else { TokenTells(c); }
    } else {
      InvStep(c, a);
      NotYet(c, a);
    }
  }

  lemma NotYet(c: Conf, a: Action)
    requires Inv(c) && !c.h.completed && Enabled(c.s, a) && !Finishing(c.s, a) && Inv(ConfStep(c, a))
    ensures Shaped(Step(c.s, a)) && Told(ConfStep(c, a))
  {
    hide Step;
  }

  lemma {:induction false} ToldRun(c: Conf, run: seq<Action>)
    requires Inv(c) && Shaped(c.s) && Told(c) && Legal(c, run)
    ensures Shaped(After(c, run).s) && Told(After(c, run))
    decreases |run|
  {
    if run != [] {
      ToldStep(c, run[0]);
      InvStep(c, run[0]);
      ToldRun(ConfStep(c, run[0]), run[1..]);
    }
  }

  lemma ReachableTold(cpus: seq<nat>, c: Conf)
    requires Reachable(cpus, c)
    ensures Shaped(c.s) && Told(c)
  {
    var run :| Legal(Initial(cpus), run) && After(Initial(cpus), run) == c;
    InitialInv(cpus);
    ToldRun(Initial(cpus), run);
  }

  /** In every reachable state after a completion, vouched for or not: each machine says done or has force_done
      on its way to it; and once all have been told and their cancels are through, whoever waits can go on at
      once, and quits. */
  lemma NobodyIsForgotten(cpus: seq<nat>, c: Conf)
    requires Reachable(cpus, c) && c.h.completed
    ensures Shaped(c.s) && forall i :: 0 <= i < Procs(c.s) ==>
      c.s.ms[i].done || (i in c.s.forced && Enabled(c.s, ForceDone(i)))
    ensures forall i, k :: 0 <= i < Procs(c.s) && i !in c.s.forced && i !in c.s.waking && Waits(c.s, i, k) ==>
      Enabled(c.s, Resume(i, k)) && Step(c.s, Resume(i, k)).pcs == SetPc(c.s, i, k, Exited)
  {
    ReachableInv(cpus, c);
    ReachableTold(cpus, c);
    forall i, k | 0 <= i < Procs(c.s) && i !in c.s.forced && i !in c.s.waking && Waits(c.s, i, k)
      ensures Enabled(c.s, Resume(i, k)) && Step(c.s, Resume(i, k)).pcs == SetPc(c.s, i, k, Exited)
    {
      assert Released(c.s, i, k);
    }
  }

  predicate Waits(s: Sys, i: nat, k: nat)
    requires i < |s.pcs|
  {
    k < |s.pcs[i]| && s.pcs[i][k].Waiting?
  }

  // ---- How long it takes ----

  function Stays(pcs: seq<Pc>): seq<bool> { seq(|pcs|, k requires 0 <= k < |pcs| => !pcs[k].Exited?) }

  ghost function Staying(s: Sys): seq<nat> {
    seq(|s.pcs|, i requires 0 <= i < |s.pcs| => CountTrue(Stays(s.pcs[i])))
  }

  /** Two steps for each machine still to be told, one for each cancel still to come, one for each fiber that
      has not quit. */
  ghost function Left(s: Sys): nat {
    2 * |s.forced| + |s.waking| + Sum(Staying(s))
  }

  lemma OneExit(s: Sys, i: nat, k: nat)
    requires i < |s.pcs| && k < |s.pcs[i]| && !s.pcs[i][k].Exited?
    ensures Sum(Staying(s.(pcs := SetPc(s, i, k, Exited)))) == Sum(Staying(s)) - 1
  {
    var t := s.(pcs := SetPc(s, i, k, Exited));
    assert Stays(t.pcs[i]) == Stays(s.pcs[i])[k := false];
    CountUpdate(Stays(s.pcs[i]), k, false);
    assert Staying(t) == Staying(s)[i := CountTrue(Stays(t.pcs[i]))];
    SumUpdate(Staying(s), i, CountTrue(Stays(t.pcs[i])));
  }

  ghost predicate Over(c: Conf) {
    Inv(c) && Shaped(c.s) && Told(c) && c.h.completed && Quiescent(c.s)
  }

  /** In a cluster that has terminated and completed, each step brings the end one nearer. */
  lemma OneLess(c: Conf, a: Action)
    requires Over(c) && Enabled(c.s, a)
    ensures Over(ConfStep(c, a)) && Left(ConfStep(c, a).s) == Left(c.s) - 1
  {
    InvStep(c, a);
    ToldStep(c, a);
    QuiescentStep(c, a);
    QuietActions(c, a);
    TokenIsGone(c, a);
    var t := Step(c.s, a);
    if a.Resume? {
      assert !Lively(c.s, a.at, a.cpu);
      OneExit(c.s, a.at, a.cpu);
      assert Staying(t) == Staying(c.s.(pcs := t.pcs));
    } else {
      assert Staying(t) == Staying(c.s);
    }
  }

  lemma {:induction false} CountsDown(c: Conf, run: seq<Action>)
    requires Over(c) && Legal(c, run)
    ensures |run| <= Left(c.s) && Over(After(c, run)) && Left(After(c, run).s) == Left(c.s) - |run|
    decreases |run|
  {
    if run != [] {
      hide Over, Left, Step;
      OneLess(c, run[0]);
      CountsDown(ConfStep(c, run[0]), run[1..]);
    }
  }

  ghost predicate EveryoneQuit(s: Sys) {
    && (forall i :: 0 <= i < |s.ms| ==> s.ms[i].done)
    && (forall i, k :: 0 <= i < |s.pcs| && 0 <= k < |s.pcs[i]| ==> s.pcs[i][k].Exited?)
  }

  /** As long as anybody is still there, some step is enabled. */
  lemma SomeoneMoves(c: Conf) returns (a: Action)
    requires Over(c) && !EveryoneQuit(c.s)
    ensures Enabled(c.s, a)
  {
    if c.s.forced != {} {
      var i :| i in c.s.forced;
      a := ForceDone(i);
    } else if c.s.waking != {} {
      var i :| i in c.s.waking;
      a := ForceCancel(i);
    } else {
      var i, k :| 0 <= i < |c.s.pcs| && 0 <= k < |c.s.pcs[i]| && !c.s.pcs[i][k].Exited?;
      assert !Lively(c.s, i, k) && Released(c.s, i, k);
      a := Resume(i, k);
    }
  }

  /** After a completion by a vouched machine every run ends, within two steps for each other machine and one
      for each fiber, and it can only end when every machine says done and every fiber has quit. */
  lemma EveryMachineFinishes(cpus: seq<nat>, c: Conf, a: Action, run: seq<Action>)
    requires Reachable(cpus, c) && CompletesVouched(c, a) && Legal(ConfStep(c, a), run)
    ensures |run| <= 2 * (|cpus| - 1) + Sum(cpus)
    ensures Shaped(After(ConfStep(c, a), run).s)
    ensures (forall b :: !Enabled(After(ConfStep(c, a), run).s, b)) ==> EveryoneQuit(After(ConfStep(c, a), run).s)
  {
    var d := ConfStep(c, a);
    OverAtCompletion(cpus, c, a);
    CountsDown(d, run);
    var e := After(d, run);
    if !EveryoneQuit(e.s) { var b := SomeoneMoves(e); }
  }

  lemma {:induction false} OthersCount(n: nat, p: nat)
    requires p < n
    ensures |Others(n, p)| == n - 1 && |Members(Others(n, p))| <= n - 1
  {
    OthersLength(n, p);
    SetOfSeq(Others(n, p));
  }

  lemma {:induction false} OthersLength(n: nat, p: nat)
    ensures |Others(n, p)| == if p < n then n - 1 else n
  {
    if n > 0 { OthersLength(n - 1, p); }
  }

  function Members(s: seq<nat>): set<nat> { set x | x in s }

  lemma {:induction false} SetOfSeq(s: seq<nat>)
    ensures |Members(s)| <= |s|
  {
    if s == [] {
      assert Members(s) == {};
    } else {
      var rest := s[1..];
      SetOfSeq(rest);
      assert s == [s[0]] + rest;
      assert Members(s) == Members(rest) + {s[0]};
    }
  }

  lemma TellsOthers(c: Conf, a: Action)
    requires Inv(c) && !c.h.completed && Enabled(c.s, a) && Finishing(c.s, a)
    ensures Step(c.s, a).forced == Members(Others(Procs(c.s), Finisher(c.s, a))) && Step(c.s, a).waking == {}
  {
    hide Sum, CountTrue, Others;
    CompletingPlace(c, a);
    if a.EndDone? { EndDoneShapes(c.s, a.at, a.cpu); } else { TakeTokenShapes(c.s); }
  }

  lemma OverAtCompletion(cpus: seq<nat>, c: Conf, a: Action)
    requires Reachable(cpus, c) && CompletesVouched(c, a)
    ensures Over(ConfStep(c, a)) && Left(ConfStep(c, a).s) <= 2 * (|cpus| - 1) + Sum(cpus)
  {
    hide Inv, Step, Quiescent, Told, Others;
    ReachableInv(cpus, c);
    ReachableTold(cpus, c);
    ToldStep(c, a);
    InvStep(c, a);
    QuiescentAtCompletion(c, a);
    NotTwice(c, a);
    TellsOthers(c, a);
    OthersCount(Procs(c.s), Finisher(c.s, a));
    ReachableFibers(cpus, c);
    StepKeepsFibers(c.s, a);
    var t := Step(c.s, a);
    forall i | 0 <= i < |cpus| ensures Staying(t)[i] <= cpus[i] { CountBounds(Stays(t.pcs[i])); }
    SumBelow(Staying(t), cpus);
  }

  lemma NotTwice(c: Conf, a: Action)
    requires Inv(c) && CompletesVouched(c, a)
    ensures !c.h.completed
  {
    CompletingPlace(c, a);
  }
}

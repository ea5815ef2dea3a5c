/** What a run of the cluster can rely on: the token's accounting, the safety of completion and
    its one gap, the permanence of termination, and how soon it is found. */
module TerminationTheorems {
  import opened Sums
  import opened Consensus
  import opened TerminationDetection
  import opened TerminationProof

  // ---- The invariant holds in every run ----

  function Initial(cpus: seq<nat>): Conf
    requires |cpus| > 0
  {
    Conf(Start(cpus), StartHist(|cpus|))
  }

  ghost predicate Legal(c: Conf, run: seq<Action>)
    decreases |run|
  {
    run == [] || (Shaped(c.s) && Enabled(c.s, run[0]) && Legal(ConfStep(c, run[0]), run[1..]))
  }

  ghost function After(c: Conf, run: seq<Action>): Conf
    requires Legal(c, run)
    decreases |run|
  {
    if run == [] then c else After(ConfStep(c, run[0]), run[1..])
  }

  lemma InitialInv(cpus: seq<nat>)
    requires |cpus| > 0 && forall i :: 0 <= i < |cpus| ==> cpus[i] > 0
    ensures Inv(Initial(cpus))
  {
    var c := Initial(cpus);
    SumZero(c.s.sent);
    SumZero(LastS(c.s)); SumZero(LastR(c.s));
    forall i | 0 <= i < Procs(c.s) ensures Tallied(c.s, i) { CountBounds(c.s.ms[i].sleeping); }
  }

  lemma CompletionHist(c: Conf, a: Action)
    requires Inv(c) && !c.h.completed && Enabled(c.s, a) && Finishing(c.s, a)
    ensures Inv(ConfStep(c, a))
  {
    if a.EndDone? {
      EndDoneBasic(c.s, a.at, a.cpu, c.h.pos);
      EndDoneShapes(c.s, a.at, a.cpu);
    } else {
      TakeTokenBasic(c.s, c.h.pos);
      TakeTokenShapes(c.s);
    }
  }

  lemma SleepAfterCompletion(c: Conf, i: nat, k: nat)
    requires Inv(c) && c.h.completed && Enabled(c.s, EndDone(i, k))
    ensures Inv(ConfStep(c, EndDone(i, k))) && !Finishing(c.s, EndDone(i, k))
  {
    EndDoneBasic(c.s, i, k, c.h.pos);
    if !c.s.ms[i].done { EndDoneShapes(c.s, i, k); }
  }

  lemma CallsAfterCompletion(c: Conf, a: Action)
    requires Inv(c) && c.h.completed && Enabled(c.s, a)
    requires a.Send? || a.Deliver? || a.CountCall? || a.RunHandler?
    ensures Inv(ConfStep(c, a))
  {
    if a.RunHandler? { RunHandlerBasic(c.s, a.at, a.wake, c.h.pos); } else { CallsBasic(c.s, a, c.h.pos); }
  }

  lemma WakesAfterCompletion(c: Conf, a: Action)
    requires Inv(c) && c.h.completed && Enabled(c.s, a) && (a.LocalWake? || a.Resume?)
    ensures Inv(ConfStep(c, a)) && !Finishing(c.s, a)
  {
    hide Sum, CountTrue;
    if a.LocalWake? { LocalWakeBasic(c.s, a, c.h.pos); } else { ResumeBasic(c.s, a.at, a.cpu, c.h.pos); }
  }

  lemma ForcesAfterCompletion(c: Conf, a: Action)
    requires Inv(c) && c.h.completed && Enabled(c.s, a) && (a.ForceDone? || a.ForceCancel?)
    ensures Inv(ConfStep(c, a)) && !Finishing(c.s, a)
  {
    hide Sum, CountTrue;
    if a.ForceDone? { ForceDoneBasic(c.s, a.at, c.h.pos); } else { ForceCancelBasic(c.s, a.at, c.h.pos); }
  }

  lemma TokenIsGone(c: Conf, a: Action)
    requires Inv(c) && c.h.completed && Enabled(c.s, a)
    ensures !a.FinishFold? && !a.TakeToken?
  {
  }

  lemma AfterCompletion(c: Conf, a: Action)
    requires Inv(c) && c.h.completed && Enabled(c.s, a)
    ensures Inv(ConfStep(c, a)) && !Finishing(c.s, a)
  {
    hide Inv, Step, HistStep;
    TokenIsGone(c, a);
    match a
    case EndDone(i, k) => SleepAfterCompletion(c, i, k);
    case LocalWake(_, _, _) => WakesAfterCompletion(c, a);
    case Resume(_, _) => WakesAfterCompletion(c, a);
    case ForceDone(_) => ForcesAfterCompletion(c, a);
    case ForceCancel(_) => ForcesAfterCompletion(c, a);
    case _ => CallsAfterCompletion(c, a);
  }

  lemma InvStep(c: Conf, a: Action)
    requires Inv(c) && Enabled(c.s, a)
    ensures Inv(ConfStep(c, a))
  {
    if c.h.completed { AfterCompletion(c, a); }
    else if Finishing(c.s, a) { CompletionHist(c, a); }
    else {
      match a
      case Send(_, _) => CallsHist(c, a);
      case Deliver(_) => CallsHist(c, a);
      case CountCall(_) => CallsHist(c, a);
      case RunHandler(j, w) => HandlerHist(c, j, w);
      case LocalWake(_, _, _) => LocalWakeHist(c, a);
      case EndDone(i, k) => if LastOut(c.s, i) { BeginByFiber(c, i, k); } else { SleepHist(c, i, k); }
      case FinishFold => FinishHist(c);
      case Resume(i, k) => ResumeHist(c, i, k);
      case TakeToken => if Holding(c.s).numactive > 0 { HoldHist(c); } else { BeginOnArrival(c); }
      case ForceDone(i) => assert false;
      case ForceCancel(i) => assert false;
    }
  }

  lemma {:induction false} InvRun(c: Conf, run: seq<Action>)
    requires Inv(c) && Legal(c, run)
    ensures Inv(After(c, run))
    decreases |run|
  {
    if run != [] {
      InvStep(c, run[0]);
      InvRun(ConfStep(c, run[0]), run[1..]);
    }
  }

  ghost predicate Reachable(cpus: seq<nat>, c: Conf) {
    && |cpus| > 0 && (forall i :: 0 <= i < |cpus| ==> cpus[i] > 0)
    && exists run :: Legal(Initial(cpus), run) && After(Initial(cpus), run) == c
  }

  lemma ReachableInv(cpus: seq<nat>, c: Conf)
    requires Reachable(cpus, c)
    ensures Inv(c) && Procs(c.s) == |cpus|
  {
    var run :| Legal(Initial(cpus), run) && After(Initial(cpus), run) == c;
    InitialInv(cpus);
    InvRun(Initial(cpus), run);
    FibersKept(Initial(cpus), run);
  }

  // ---- Token accounting ----

  /** In every reachable state there is one token, held or in flight; its totals are the sums of
      what each machine last folded in; and with the mutex free numactive plus the sleeping flags is ncpus. */
  lemma TokenAccounting(cpus: seq<nat>, c: Conf)
    requires Reachable(cpus, c)
    ensures Shaped(c.s)
    ensures c.h.pos < Procs(c.s)
    ensures forall i :: 0 <= i < Procs(c.s) ==> (c.s.ms[i].hastoken <==> c.s.token.None? && i == c.h.pos)
    ensures CurToken(c.s, c.h.pos).totalCallsSent == Sum(LastS(c.s))
      && CurToken(c.s, c.h.pos).totalCallsReceived == Sum(LastR(c.s))
    ensures forall i :: 0 <= i < Procs(c.s) && !Locked(c.s, i) ==>
      c.s.ms[i].numactive + CountTrue(c.s.ms[i].sleeping) == |c.s.ms[i].sleeping|
  {
    ReachableInv(cpus, c);
    forall i | 0 <= i < Procs(c.s) && !Locked(c.s, i)
      ensures c.s.ms[i].numactive + CountTrue(c.s.ms[i].sleeping) == |c.s.ms[i].sleeping|
    {
      assert Tallied(c.s, i);
    }
  }

  // ---- The number of fibers never changes ----

  lemma StepKeepsFibers(s: Sys, a: Action)
    requires Shaped(s) && Enabled(s, a)
    ensures Procs(Step(s, a)) == Procs(s)
    ensures forall i :: 0 <= i < Procs(s) ==> |Step(s, a).ms[i].sleeping| == |s.ms[i].sleeping|
  {
  }

  lemma {:induction false} FibersKept(c: Conf, run: seq<Action>)
    requires Inv(c) && Legal(c, run)
    ensures Procs(After(c, run).s) == Procs(c.s)
    ensures forall i :: 0 <= i < Procs(c.s) ==> |After(c, run).s.ms[i].sleeping| == |c.s.ms[i].sleeping|
    decreases |run|
  {
    if run != [] {
      hide Step;
      InvStep(c, run[0]);
      StepKeepsFibers(c.s, run[0]);
      FibersKept(ConfStep(c, run[0]), run[1..]);
    }
  }

  lemma ReachableFibers(cpus: seq<nat>, c: Conf)
    requires Reachable(cpus, c)
    ensures Procs(c.s) == |cpus| && forall i :: 0 <= i < |cpus| ==> |c.s.ms[i].sleeping| == cpus[i]
  {
    var run :| Legal(Initial(cpus), run) && After(Initial(cpus), run) == c;
    InitialInv(cpus);
    FibersKept(Initial(cpus), run);
  }

  lemma StepKeepsProcs(s: Sys, a: Action)
    requires Shaped(s) && Enabled(s, a)
    ensures Procs(Step(s, a)) == Procs(s)
  {
  }

  /** No object says done before the completion branch has run somewhere. */
  lemma DoneMeansCompleted(cpus: seq<nat>, c: Conf, i: nat)
    requires Reachable(cpus, c) && i < Procs(c.s) && c.s.ms[i].done
    ensures c.h.completed
  {
    ReachableInv(cpus, c);
  }

  // ---- Completion is right ----

  /** An idle, unlocked machine: no fiber works, and every waiting fiber's flag is set. */
  lemma IdleMachine(s: Sys, pos: nat, i: nat)
    requires Basic(s, pos) && i < Procs(s) && Idle(s, i) && !Locked(s, i)
    ensures forall k :: 0 <= k < |s.pcs[i]| ==> !s.pcs[i][k].Working? && s.ms[i].sleeping[k]
  {
    assert Tallied(s, i);
    CountBounds(s.ms[i].sleeping);
  }

  /** The completing machine has seen a full round of unchanged counters, or, on the very
      first lap, has sent nothing it has not reported. */
  ghost predicate Vouched(c: Conf, p: nat)
    requires p < |c.s.ms| && p < |c.s.sent|
  {
    p in c.h.passed || c.s.sent[p] == c.s.ms[p].lastSent
  }

  lemma CompletingPlace(c: Conf, a: Action)
    requires Inv(c) && Enabled(c.s, a) && Finishing(c.s, a)
    ensures !c.h.completed && c.s.folding.None?
    ensures Finisher(c.s, a) == c.h.pos == CurToken(c.s, c.h.pos).lastChange
    ensures CurToken(c.s, c.h.pos).totalCallsSent == CurToken(c.s, c.h.pos).totalCallsReceived
    ensures a.TakeToken? ==> Idle(c.s, c.h.pos)
    ensures a.EndDone? ==> c.s.ms[c.h.pos].numactive == 1
  {
    if c.h.completed { AfterCompletion(c, a); }
    if a.EndDone? { WorkerPlace(c.s, c.h.pos, a.at) by { assert HasWorker(c.s.pcs[a.at]); } }
  }

  /** At a vouched completion nothing is in flight and no other machine is active. */
  lemma StillAtCompletion(c: Conf, a: Action)
    requires Inv(c) && Enabled(c.s, a) && Finishing(c.s, a) && Finisher(c.s, a) < Procs(c.s)
      && Vouched(c, Finisher(c.s, a))
    ensures NothingInFlight(c.s)
    ensures forall v :: 0 <= v < Procs(c.s) && v != Finisher(c.s, a) ==> Idle(c.s, v)
  {
    CompletingPlace(c, a);
    var p := c.h.pos;
    if c.h.changed {
      ArcGrows(p, p, Procs(c.s));
      assert forall i :: 0 <= i < Procs(c.s) ==> Visited(c, i);
      FullRound(c);
    } else {
      FirstLapTotals(c);
      assert LastS(c.s)[p] == c.s.ms[p].lastSent && LastR(c.s)[p] == c.s.ms[p].lastReceived;
      assert p !in c.h.passed;
      forall u | 0 <= u < Procs(c.s) && !Visited(c, u) ensures !Moved(c.s, c.h, u) { assert u == p; }
    }
    assert !WillChange(c.s, c.h);
    forall v | 0 <= v < Procs(c.s) && v != p ensures Idle(c.s, v) { assert Visited(c, v); }
  }

  lemma QuiescentAtCompletion(c: Conf, a: Action)
    requires Inv(c) && Enabled(c.s, a) && Finishing(c.s, a) && Finisher(c.s, a) < Procs(c.s)
      && Vouched(c, Finisher(c.s, a))
    ensures Shaped(Step(c.s, a)) && Quiescent(Step(c.s, a))
  {
    StillAtCompletion(c, a);
    QuiescentWhenStill(c, a);
  }

  lemma QuiescentWhenStill(c: Conf, a: Action)
    requires Inv(c) && Enabled(c.s, a) && Finishing(c.s, a) && NothingInFlight(c.s)
    requires forall v :: 0 <= v < Procs(c.s) && v != Finisher(c.s, a) ==> Idle(c.s, v)
    ensures Shaped(Step(c.s, a)) && Quiescent(Step(c.s, a))
  {
    hide Sum, CountTrue, Step;
    CompletingPlace(c, a);
    InvStep(c, a);
    var p := c.h.pos;
    var t := Step(c.s, a);
    forall i, k | 0 <= i < Procs(t) && 0 <= k < |t.pcs[i]| ensures !Lively(t, i, k) {
      if i != p {
        IdleMachine(c.s, p, i);
        ElsewhereUnchanged(c.s, a, i);
      } else {
        FinisherDone(c, a);
      }
    }
    CompletionCounters(c.s, a);
  }

  lemma CompletionCounters(s: Sys, a: Action)
    requires Shaped(s) && Enabled(s, a) && Finishing(s, a)
    ensures SameCounters(s, Step(s, a))
  {
    if a.EndDone? { EndDoneCounters(s, a); }
  }

  lemma ElsewhereUnchanged(s: Sys, a: Action, i: nat)
    requires Shaped(s) && Enabled(s, a) && Finishing(s, a) && s.folding.None? && i < Procs(s) && i != Finisher(s, a)
    ensures Procs(Step(s, a)) == Procs(s) && Step(s, a).ms[i] == s.ms[i] && Step(s, a).pcs[i] == s.pcs[i]
      && Step(s, a).folding == s.folding
  {
    if a.EndDone? { EndDoneShapes(s, a.at, a.cpu); } else { TakeTokenShapes(s); }
  }

  lemma FinisherDone(c: Conf, a: Action)
    requires Inv(c) && Enabled(c.s, a) && Finishing(c.s, a) && c.h.pos == Finisher(c.s, a)
    ensures Procs(Step(c.s, a)) == Procs(c.s) == |Step(c.s, a).pcs| && Step(c.s, a).ms[c.h.pos].done
    ensures forall k :: 0 <= k < |Step(c.s, a).pcs[c.h.pos]| ==> !Step(c.s, a).pcs[c.h.pos][k].Working?
  {
    CompletingPlace(c, a);
    var p := c.h.pos;
    if a.EndDone? {
      EndDoneShapes(c.s, a.at, a.cpu);
      assert Tallied(c.s, p);
      CountUpdate(c.s.ms[p].sleeping, a.cpu, true);
      CountBounds(c.s.ms[p].sleeping[a.cpu := true]);
      forall k | 0 <= k < |c.s.pcs[p]| && k != a.cpu ensures !c.s.pcs[p][k].Working? {
        assert c.s.ms[p].sleeping[a.cpu := true][k];
      }
    } else {
      TakeTokenShapes(c.s);
      IdleMachine(c.s, p, p);
    }
  }

  /** What can still happen once all is quiet: the token moves, sleepers leave, force_done spreads. */
  lemma QuietActions(c: Conf, a: Action)
    requires Inv(c) && Quiescent(c.s) && Enabled(c.s, a)
    ensures a.FinishFold? || a.TakeToken? || a.Resume? || a.ForceDone? || a.ForceCancel?
  {
    forall i, k | 0 <= i < Procs(c.s) && 0 <= k < |c.s.pcs[i]| ensures !c.s.pcs[i][k].Working? {
      assert !Lively(c.s, i, k);
    }
  }

  /** Termination cannot be undone: not by sleepers waking, not by force_done, not by the token. */
  lemma QuiescentStep(c: Conf, a: Action)
    requires Inv(c) && Quiescent(c.s) && Enabled(c.s, a)
    ensures Shaped(Step(c.s, a)) && Quiescent(Step(c.s, a))
  {
    QuietActions(c, a);
    if a.FinishFold? {
      QuietFinish(c);
    } else if a.TakeToken? {
      QuietTake(c);
    } else {
      var s, t := c.s, Step(c.s, a);
      forall j, m | 0 <= j < Procs(t) && 0 <= m < |t.pcs[j]| ensures !Lively(t, j, m) { assert !Lively(s, j, m); }
    }
  }

  lemma QuietFinish(c: Conf)
    requires Inv(c) && Quiescent(c.s) && Enabled(c.s, FinishFold)
    ensures Shaped(Step(c.s, FinishFold)) && Quiescent(Step(c.s, FinishFold))
  {
    var s, t := c.s, Step(c.s, FinishFold);
    forall j, m | 0 <= j < Procs(t) && 0 <= m < |t.pcs[j]| ensures !Lively(t, j, m) { assert !Lively(s, j, m); }
  }

  lemma QuietTake(c: Conf)
    requires Inv(c) && Quiescent(c.s) && Enabled(c.s, TakeToken)
    ensures Shaped(Step(c.s, TakeToken)) && Quiescent(Step(c.s, TakeToken))
  {
    var s, t := c.s, Step(c.s, TakeToken);
    TakeTokenShapes(s);
    forall j, m | 0 <= j < Procs(t) && 0 <= m < |t.pcs[j]| ensures !Lively(t, j, m) { assert !Lively(s, j, m); }
  }

  lemma {:induction false} QuiescentForever(c: Conf, run: seq<Action>)
    requires Inv(c) && Quiescent(c.s) && Legal(c, run)
    ensures Shaped(After(c, run).s) && Quiescent(After(c, run).s)
    decreases |run|
  {
    if run != [] {
      InvStep(c, run[0]);
      QuiescentStep(c, run[0]);
      QuiescentForever(ConfStep(c, run[0]), run[1..]);
    }
  }

  /** Step a runs the completion branch, at a machine that vouches for the totals. */
  ghost predicate CompletesVouched(c: Conf, a: Action) {
    && Shaped(c.s) && Enabled(c.s, a) && Finishing(c.s, a)
    && Finisher(c.s, a) < Procs(c.s) && Vouched(c, Finisher(c.s, a))
  }

  /** The cluster has terminated, and has still terminated after any further run. */
  ghost predicate TerminatedForGood(c: Conf) {
    forall after :: Legal(c, after) ==> Shaped(After(c, after).s) && Quiescent(After(c, after).s)
  }

  /** Completion safety over whole runs: in any reachable state, if the completion branch is taken
      by a vouched machine, the cluster has terminated, and stays so whatever happens next. */
  lemma CompletionIsSafe(cpus: seq<nat>, c: Conf, a: Action)
    requires Reachable(cpus, c) && CompletesVouched(c, a)
    ensures TerminatedForGood(ConfStep(c, a))
  {
    ReachableInv(cpus, c);
    QuiescentAtCompletion(c, a);
    InvStep(c, a);
    var d := ConfStep(c, a);
    forall after | Legal(d, after) ensures Shaped(After(d, after).s) && Quiescent(After(d, after).s) {
      QuiescentForever(d, after);
    }
  }
}

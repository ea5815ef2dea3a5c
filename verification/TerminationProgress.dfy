/** Once the cluster has terminated, the token says so within two rounds. */
module TerminationProgress {
  import opened Sums
  import opened Consensus
  import opened TerminationDetection
  import opened TerminationProof
  import opened TerminationTheorems

  function Dist(a: nat, b: nat, n: nat): nat
    requires a < n && b < n
  {
    if b >= a then b - a else b + n - a
  }

  /** What the machine last folded in is what its counters say. */
  predicate Settled(s: Sys, i: nat)
    requires i < |s.ms| && i < |s.sent| && i < |s.received|
  {
    s.sent[i] == s.ms[i].lastSent && s.received[i] == s.ms[i].lastReceived
  }

  /** A pass in progress has not been overtaken by a call counted since its first read. */
  predicate ReadFresh(s: Sys) {
    s.folding.Some? && s.folding.value.at < |s.received| ==> s.folding.value.received == s.received[s.folding.value.at]
  }

  /** k visits suffice: either all is folded in and the token needs only to come home to
      lastChange, or it first has to fold in machines less than k - n away. */
  ghost predicate Fuel(c: Conf, k: nat)
    requires Shaped(c.s) && c.h.pos < Procs(c.s) && CurToken(c.s, c.h.pos).lastChange < Procs(c.s)
  {
    var n := Procs(c.s);
    || ((forall i :: 0 <= i < n ==> Settled(c.s, i)) && Dist(c.h.pos, CurToken(c.s, c.h.pos).lastChange, n) < k)
    || (k > n && forall i :: 0 <= i < n && Dist(c.h.pos, i, n) >= k - n ==> Settled(c.s, i))
  }

  ghost predicate Quiet(c: Conf) {
    Inv(c) && Quiescent(c.s) && !c.h.completed
  }

  /** In a terminated cluster nothing but the token can move before completion, and the token always can. */
  lemma OnlyTheTokenMoves(c: Conf, a: Action)
    requires Quiet(c) && Enabled(c.s, a)
    ensures a.TakeToken? || a.FinishFold?
  {
    QuietActions(c, a);
    if a.Resume? && Lively(c.s, a.at, a.cpu) { assert false; }
  }

  lemma TokenNeverStuck(c: Conf)
    requires Quiet(c)
    ensures Enabled(c.s, TakeToken) || Enabled(c.s, FinishFold)
  {
    var p := c.h.pos;
    assert Tallied(c.s, p);
    if c.s.token.None? && c.s.folding.None? {
      forall k | 0 <= k < |c.s.pcs[p]| ensures c.s.ms[p].sleeping[k] { assert !Lively(c.s, p, k); }
      CountBounds(c.s.ms[p].sleeping);
      assert false;
    }
  }

  lemma EveryMachineIdle(c: Conf, i: nat)
    requires Quiet(c) && i < Procs(c.s)
    ensures Idle(c.s, i)
  {
    assert Tallied(c.s, i);
    forall k | 0 <= k < |c.s.pcs[i]| && !IsSleeper(c.s, i, k)
      ensures c.s.ms[i].sleeping[k]
    {
      assert !Lively(c.s, i, k);
    }
    if !(Locked(c.s, i)) { CountBounds(c.s.ms[i].sleeping); }
  }

  lemma TakeKeepsFuel(c: Conf, k: nat)
    requires Quiet(c) && Enabled(c.s, TakeToken) && !Finishing(c.s, TakeToken) && Fuel(c, k)
    ensures Quiet(ConfStep(c, TakeToken)) && Fuel(ConfStep(c, TakeToken), k)
    ensures ConfStep(c, TakeToken).s.folding.Some? && ReadFresh(ConfStep(c, TakeToken).s)
  {
    hide Sum, CountTrue, Step;
    InvStep(c, TakeToken);
    QuiescentStep(c, TakeToken);
    EveryMachineIdle(c, c.h.pos);
    TakeTokenShapes(c.s);
    var d := ConfStep(c, TakeToken);
    assert d.h.pos == c.h.pos && CurToken(d.s, d.h.pos) == CurToken(c.s, c.h.pos);
    assert SameCounters(c.s, d.s);
    assert forall i :: 0 <= i < Procs(c.s) ==> (Settled(d.s, i) <==> Settled(c.s, i));
  }

  lemma DistNext(p: nat, i: nat, n: nat)
    requires p < n && i < n
    ensures Next(p, n) < n
    ensures Dist(Next(p, n), i, n) == if i == p then n - 1 else Dist(p, i, n) - 1
  {
    NextIs(p, n);
  }

  /** With nothing in flight and everything folded in, the totals agree. */
  lemma SettledTotals(c: Conf)
    requires Quiet(c) && forall i :: 0 <= i < Procs(c.s) ==> Settled(c.s, i)
    ensures CurToken(c.s, c.h.pos).totalCallsSent == CurToken(c.s, c.h.pos).totalCallsReceived
  {
    forall i | 0 <= i < Procs(c.s) ensures LastS(c.s)[i] == c.s.sent[i] && LastR(c.s)[i] == c.s.received[i] {
      assert Settled(c.s, i);
    }
    assert LastS(c.s) == c.s.sent && LastR(c.s) == c.s.received;
    SumZero(c.s.wire); SumZero(c.s.arrived); SumZero(c.s.ran);
  }

  lemma FinishSettles(c: Conf)
    requires Quiet(c) && Enabled(c.s, FinishFold) && ReadFresh(c.s)
    ensures var d := ConfStep(c, FinishFold);
      && Quiet(d) && d.s.folding.None? && Procs(d.s) == Procs(c.s) && d.h.pos == Next(c.h.pos, Procs(c.s))
      && Settled(d.s, c.h.pos)
      && (forall i :: 0 <= i < Procs(c.s) && i != c.h.pos ==> (Settled(d.s, i) <==> Settled(c.s, i)))
      && CurToken(d.s, d.h.pos).lastChange == if Settled(c.s, c.h.pos) then CurToken(c.s, c.h.pos).lastChange
        else c.h.pos
  {
    InvStep(c, FinishFold);
    QuiescentStep(c, FinishFold);
    FinishForwards(c);
  }

  /** Each visit of the token uses up one unit. */
  lemma FinishBurnsFuel(c: Conf, k: nat)
    requires Quiet(c) && Enabled(c.s, FinishFold) && ReadFresh(c.s) && Fuel(c, k)
    ensures k > 0 && Quiet(ConfStep(c, FinishFold)) && Fuel(ConfStep(c, FinishFold), k - 1)
  {
    FinishSettles(c);
    var d, p, n := ConfStep(c, FinishFold), c.h.pos, Procs(c.s);
    forall i | 0 <= i < n
      ensures Dist(d.h.pos, i, n) == if i == p then n - 1 else Dist(p, i, n) - 1
    {
      DistNext(p, i, n);
    }
    if forall i :: 0 <= i < n ==> Settled(c.s, i) {
      SettledTotals(c);
    }
  }

  /** Visits of the token: passes, and the one that completes. */
  ghost function Visits(c: Conf, run: seq<Action>): nat
    requires Legal(c, run)
    decreases |run|
  {
    if run == [] then 0
    else (if run[0].FinishFold? || Finishing(c.s, run[0]) then 1 else 0) + Visits(ConfStep(c, run[0]), run[1..])
  }

  lemma {:induction false} CompletedStays(c: Conf, run: seq<Action>)
    requires Inv(c) && c.h.completed && Legal(c, run)
    ensures After(c, run).h.completed
    decreases |run|
  {
    if run != [] {
      AfterCompletion(c, run[0]);
      CompletedStays(ConfStep(c, run[0]), run[1..]);
    }
  }

  lemma {:induction false} FuelBound(c: Conf, run: seq<Action>, k: nat)
    requires Quiet(c) && ReadFresh(c.s) && Fuel(c, k) && Legal(c, run)
    requires Visits(c, run) >= k || |run| >= 2 * k - (if c.s.folding.Some? then 2 else 1)
    ensures After(c, run).h.completed
    decreases |run|
  {
    if run != [] {
      var a := run[0];
      OnlyTheTokenMoves(c, a);
      InvStep(c, a);
      var d := ConfStep(c, a);
      if Finishing(c.s, a) {
        CompletedStays(d, run[1..]);
      } else if a.TakeToken? {
        TakeKeepsFuel(c, k);
        FuelBound(d, run[1..], k);
      } else {
        FinishBurnsFuel(c, k);
        FinishSettles(c);
        FuelBound(d, run[1..], k - 1);
      }
    } else if c.s.folding.Some? {
      TokenNeverStuck(c);
      FinishBurnsFuel(c, k);
    }
  }

  /** Every run that goes on for that many visits of the token, or that many steps, has completed. */
  ghost predicate CompletesWithin(c: Conf, visits: nat, steps: nat) {
    forall run :: Legal(c, run) && (Visits(c, run) >= visits || |run| >= steps) ==> After(c, run).h.completed
  }

  /** From any reachable terminated state with no pass half done, completion comes within
      2n visits of the token, and within 4n - 1 steps of any kind. */
  lemma CompletionWithinTwoRounds(cpus: seq<nat>, c: Conf)
    requires Reachable(cpus, c) && Shaped(c.s) && Quiescent(c.s) && ReadFresh(c.s)
    ensures CompletesWithin(c, 2 * |cpus|, 4 * |cpus| - 1)
  {
    ReachableInv(cpus, c);
    forall run | Legal(c, run)
      && (Visits(c, run) >= 2 * |cpus| || |run| >= 4 * |cpus| - 1) ensures After(c, run).h.completed {
      hide Inv, Step, Quiescent, Fuel;
      if c.h.completed { CompletedStays(c, run); } else { FuelBound(c, run, 2 * |cpus|); }
    }
  }

  lemma StaleFinish(c: Conf)
    requires Quiet(c) && Enabled(c.s, FinishFold)
    ensures Quiet(ConfStep(c, FinishFold)) && ReadFresh(ConfStep(c, FinishFold).s)
      && Procs(ConfStep(c, FinishFold).s) == Procs(c.s)
  {
    InvStep(c, FinishFold);
    QuiescentStep(c, FinishFold);
    StepKeepsProcs(c.s, FinishFold);
  }

  /** A pass whose first read is already out of date costs one more visit, whatever the state. */
  lemma CompletionWithinOneMore(cpus: seq<nat>, c: Conf)
    requires Reachable(cpus, c) && Shaped(c.s) && Quiescent(c.s)
    ensures CompletesWithin(c, 2 * |cpus| + 1, 4 * |cpus|)
  {
    forall run | Legal(c, run)
      && (Visits(c, run) >= 2 * |cpus| + 1 || |run| >= 4 * |cpus|) ensures After(c, run).h.completed {
      OneMoreRun(cpus, c, run);
    }
  }

  lemma OneMoreRun(cpus: seq<nat>, c: Conf, run: seq<Action>)
    requires Reachable(cpus, c) && Shaped(c.s) && Quiescent(c.s) && Legal(c, run)
    requires Visits(c, run) >= 2 * |cpus| + 1 || |run| >= 4 * |cpus|
    ensures After(c, run).h.completed
  {
    hide Sum, CountTrue, Step;
    ReachableInv(cpus, c);
    if c.h.completed || ReadFresh(c.s) {
      if c.h.completed { CompletedStays(c, run); } else { FuelBound(c, run, 2 * |cpus|); }
    } else {
      OnlyTheTokenMoves(c, run[0]);
      assert run[0] == FinishFold;
      StaleFinish(c);
      FuelBound(ConfStep(c, FinishFold), run[1..], 2 * |cpus|);
    }
  }
}

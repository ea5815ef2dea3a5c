/** Vouched is the weakest safe test: a machine that completes without being vouched for sees what it also
    sees in a run that has not terminated. The run is built for every such view: the last machine sends what
    it has sent, falls asleep as far as it has, gets the token on its first lap, and receives what it has
    received from machine 0, where one of its own calls is still waiting. */
module WeakestTest {
  import opened Options
  import opened Sums
  import opened Consensus
  import opened TerminationDetection
  import opened TerminationProof
  import opened TerminationTheorems
  import opened LocalTests

  function Last(s: Sys): nat
    requires Procs(s) > 0
  {
    Procs(s) - 1
  }

  function Untouched(n: nat): Token
    requires n > 0
  {
    Token(0, 0, n - 1)
  }

  // ---- What a machine sees that is not vouched for ----

  /** All of a machine's fibers sleep but f, if there is an f. */
  ghost predicate AllBut(l: Local, f: nat) {
    && f <= |l.sleeping| && l.numactive == (if f < |l.sleeping| then 1 else 0)
    && forall j :: 0 <= j < |l.sleeping| ==> l.sleeping[j] == (j != f)
  }

  ghost predicate FirstLapLocal(l: Local, n: nat, f: nat)
    requires n > 0
  {
    && AllBut(l, f) && l.lastSent == 0 && l.lastReceived == 0 && !l.done && l.hastoken && l.token == Untouched(n)
  }

  lemma UnvouchedView(cpus: seq<nat>, c: Conf, a: Action)
    requires Completing(cpus, c, a) && !Vouched(c, Finisher(c.s, a))
    ensures var v := Seen(c, a);
      && v.at == |cpus| - 1 && v.sent > 0 && !v.passed && |v.local.sleeping| == cpus[v.at]
      && FirstLapLocal(v.local, |cpus|, if a.EndDone? then a.cpu else cpus[v.at])
  {
    ReachableInv(cpus, c);
    ReachableFibers(cpus, c);
    CompletingPlace(c, a);
    var p := c.h.pos;
    assert !c.h.changed;
    FirstLapTotals(c);
    assert LastS(c.s)[p] == c.s.ms[p].lastSent && LastR(c.s)[p] == c.s.ms[p].lastReceived;
    assert Tallied(c.s, p);
    var sl := c.s.ms[p].sleeping;
    if a.EndDone? {
      CountUpdate(sl, a.cpu, true);
      CountBounds(sl[a.cpu := true]);
      forall j | 0 <= j < |sl| && j != a.cpu ensures sl[j] { assert sl[a.cpu := true][j]; }
    } else {
      CountBounds(sl);
    }
  }

  // ---- The first lap of the run ----

  /** Machine i's fibers below m sleep, but for f. */
  ghost predicate Dozing(s: Sys, i: nat, m: nat, f: nat)
    requires Shaped(s) && i < Procs(s)
  {
    var l := s.ms[i];
    && m <= |l.sleeping| && l.numactive == |l.sleeping| - (if f < m then m - 1 else m)
    && (forall j :: 0 <= j < |l.sleeping| ==> l.sleeping[j] == (j < m && j != f))
    && (forall j :: 0 <= j < |l.sleeping| ==> s.pcs[i][j] == if j < m && j != f then Waiting else Working)
  }

  /** Nothing is counted here but the calls sent by the last machine. */
  ghost predicate Unreported(s: Sys, i: nat, sent: nat)
    requires Shaped(s) && i < Procs(s)
  {
    var l := s.ms[i];
    && l.lastSent == 0 && l.lastReceived == 0 && !l.done && s.received[i] == 0
    && s.sent[i] == (if i == Last(s) then sent else 0) && s.wire[i] == if i == 0 then sent else 0
  }

  /** The token is at machine k, whose fibers below m sleep; of the last machine all below zm sleep, but for f. */
  ghost predicate Lap(s: Sys, sent: nat, k: nat, m: nat, zm: nat, f: nat) {
    && Shaped(s) && k < Last(s) && s.token.None? && s.folding.None? && s.ms[k].token == Untouched(Procs(s))
    && Dozing(s, Last(s), zm, f)
    && forall i :: 0 <= i < Procs(s) ==> Placed(s, sent, k, m, i) && s.ms[i].hastoken == (i == k)
  }

  ghost predicate Placed(s: Sys, sent: nat, k: nat, m: nat, i: nat)
    requires Shaped(s) && i < Procs(s)
  {
    var len := |s.ms[i].sleeping|;
    && len > 0 && Unreported(s, i, sent)
    && (i != Last(s) ==> Dozing(s, i, if i < k then len else if i == k then m else 0, len))
  }

  /** The token is on its way to machine k. */
  ghost predicate Aloft(s: Sys, sent: nat, k: nat, f: nat) {
    && Shaped(s) && 0 < k < Procs(s) && s.folding.None? && s.token == Some(InFlight(k, Untouched(Procs(s))))
    && Dozing(s, Last(s), |s.ms[Last(s)].sleeping|, f)
    && forall i :: 0 <= i < Procs(s) ==> Placed(s, sent, k, 0, i) && !s.ms[i].hastoken
  }

  lemma Starts(cpus: seq<nat>, f: nat)
    requires |cpus| >= 2 && forall i :: 0 <= i < |cpus| ==> cpus[i] > 0
    ensures Reachable(cpus, Initial(cpus)) && Lap(Initial(cpus).s, 0, 0, 0, 0, f)
  {
    var c := Initial(cpus);
    assert Legal(c, []) && After(c, []) == c;
    forall i | 0 <= i < |cpus| ensures Placed(c.s, 0, 0, 0, i) && c.s.ms[i].hastoken == (i == 0) {
      assert c.s.ms[i] == Fresh(i, |cpus|, cpus[i]);
    }
  }

  lemma SendsOne(s: Sys, sent: nat, f: nat)
    requires Lap(s, sent, 0, 0, 0, f)
    ensures Enabled(s, Send(Last(s), 0)) && Lap(Step(s, Send(Last(s), 0)), sent + 1, 0, 0, 0, f)
  {
    assert Placed(s, sent, 0, 0, Last(s)) && s.pcs[Last(s)][0].Working?;
    var t, more := Step(s, Send(Last(s), 0)), sent + 1;
    forall i | 0 <= i < Procs(s) ensures Placed(t, more, 0, 0, i) && t.ms[i].hastoken == (i == 0) {
      assert Placed(s, sent, 0, 0, i);
    }
  }

  lemma {:induction false} Sends(cpus: seq<nat>, sent: nat, f: nat) returns (c: Conf)
    requires |cpus| >= 2 && forall i :: 0 <= i < |cpus| ==> cpus[i] > 0
    ensures Reachable(cpus, c) && Lap(c.s, sent, 0, 0, 0, f)
  {
    hide Step, Enabled;
    if sent == 0 {
      Starts(cpus, f);
      c := Initial(cpus);
    } else {
      c := Sends(cpus, sent - 1, f);
      SendsOne(c.s, sent - 1, f);
      ReachableNext(cpus, c, Send(Last(c.s), 0));
      c := ConfStep(c, Send(Last(c.s), 0));
    }
  }

  /** One more fiber of machine i falls asleep, and it is not the one to pass the token. */
  lemma Dozes(s: Sys, i: nat, m: nat, f: nat)
    requires Shaped(s) && i < Procs(s) && s.folding.None? && !s.ms[i].done && Dozing(s, i, m, f)
    requires m < |s.ms[i].sleeping| && m != f && !LastOut(s, i)
    ensures Enabled(s, EndDone(i, m)) && Shaped(Step(s, EndDone(i, m))) && Dozing(Step(s, EndDone(i, m)), i, m + 1, f)
    ensures var t := Step(s, EndDone(i, m));
      t == s.(ms := s.ms[i := s.ms[i].(numactive := t.ms[i].numactive, sleeping := t.ms[i].sleeping)],
        pcs := s.pcs[i := t.pcs[i]])
    ensures |Step(s, EndDone(i, m)).ms[i].sleeping| == |s.ms[i].sleeping|
  {
    EndDoneShapes(s, i, m);
  }

  lemma LastDozesOne(s: Sys, sent: nat, m: nat, f: nat)
    requires Lap(s, sent, 0, 0, m, f) && m < |s.ms[Last(s)].sleeping| && m != f
    ensures Enabled(s, EndDone(Last(s), m)) && Lap(Step(s, EndDone(Last(s), m)), sent, 0, 0, m + 1, f)
  {
    assert Placed(s, sent, 0, 0, Last(s));
    Dozes(s, Last(s), m, f);
    hide Step, Dozing;
    var t := Step(s, EndDone(Last(s), m));
    forall i | 0 <= i < Procs(s) ensures Placed(t, sent, 0, 0, i) && t.ms[i].hastoken == (i == 0) {
      assert Placed(s, sent, 0, 0, i);
      SameDozing(s, t, i);
    }
  }

  lemma SameDozing(s: Sys, t: Sys, i: nat)
    requires Shaped(s) && Shaped(t) && i < Procs(s) == Procs(t)
    ensures s.ms[i] == t.ms[i] && s.pcs[i] == t.pcs[i] ==> forall m, f :: Dozing(s, i, m, f) ==> Dozing(t, i, m, f)
  {
  }

  lemma {:induction false} LastDozes(cpus: seq<nat>, sent: nat, zm: nat, f: nat) returns (c: Conf)
    requires |cpus| >= 2 && forall i :: 0 <= i < |cpus| ==> cpus[i] > 0
    requires zm <= cpus[|cpus| - 1]
    ensures Reachable(cpus, c) && Lap(c.s, sent, 0, 0, zm, f)
  {
    hide Step, Enabled;
    if zm == 0 {
      c := Sends(cpus, sent, f);
    } else {
      c := LastDozes(cpus, sent, zm - 1, f);
      ReachableFibers(cpus, c);
      var z := Last(c.s);
      if zm - 1 != f {
        LastDozesOne(c.s, sent, zm - 1, f);
        ReachableNext(cpus, c, EndDone(z, zm - 1));
        c := ConfStep(c, EndDone(z, zm - 1));
      }
    }
  }

  lemma HolderDozesOne(s: Sys, sent: nat, k: nat, m: nat, zm: nat, f: nat)
    requires Lap(s, sent, k, m, zm, f) && m + 1 < |s.ms[k].sleeping|
    ensures Enabled(s, EndDone(k, m)) && Lap(Step(s, EndDone(k, m)), sent, k, m + 1, zm, f)
  {
    assert Placed(s, sent, k, m, k);
    Dozes(s, k, m, |s.ms[k].sleeping|);
    hide Step;
    var t, more := Step(s, EndDone(k, m)), m + 1;
    forall i | 0 <= i < Procs(s) ensures Placed(t, sent, k, more, i) && t.ms[i].hastoken == (i == k) {
      assert Placed(s, sent, k, m, i);
    }
  }

  /** All but the last fiber of machine k fall asleep. */
  lemma {:induction false} HolderDozes(cpus: seq<nat>, sent: nat, k: nat, m: nat, f: nat, first: Conf) returns (c: Conf)
    requires Reachable(cpus, first) && k + 1 < |cpus| && f <= cpus[|cpus| - 1] && m < cpus[k]
    requires Lap(first.s, sent, k, 0, cpus[|cpus| - 1], f)
    ensures Reachable(cpus, c) && Lap(c.s, sent, k, m, cpus[|cpus| - 1], f)
  {
    hide Step, Enabled;
    if m == 0 {
      c := first;
    } else {
      c := HolderDozes(cpus, sent, k, m - 1, f, first);
      ReachableFibers(cpus, c);
      HolderDozesOne(c.s, sent, k, m - 1, cpus[|cpus| - 1], f);
      ReachableNext(cpus, c, EndDone(k, m - 1));
      c := ConfStep(c, EndDone(k, m - 1));
    }
  }

  /** Its last fiber passes the token on, with nothing to add. */
  function PassedOn(s: Sys, k: nat, j: nat): Sys
    requires Shaped(s) && k + 1 < Procs(s) && j < |s.ms[k].sleeping|
  {
    var l := s.ms[k];
    s.(ms := s.ms[k := l.(numactive := 0, hastoken := false, sleeping := l.sleeping[j := true])],
       pcs := s.pcs[k := s.pcs[k][j := Waiting]], token := Some(InFlight(k + 1, l.token)))
  }

  lemma Passes(s: Sys, sent: nat, k: nat, j: nat, zm: nat, f: nat)
    requires Lap(s, sent, k, j, zm, f) && j + 1 == |s.ms[k].sleeping|
    ensures Enabled(s, EndDone(k, j))
    ensures var t := Step(s, EndDone(k, j));
      Shaped(t) && Enabled(t, FinishFold) && Step(t, FinishFold) == PassedOn(s, k, j)
  {
    assert Placed(s, sent, k, j, k);
    EndDoneShapes(s, k, j);
    NextIs(k, Procs(s));
    var u := Step(Step(s, EndDone(k, j)), FinishFold);
    assert u.ms == s.ms[k := u.ms[k]];
  }

  lemma PassedAloft(s: Sys, sent: nat, k: nat, j: nat, f: nat)
    requires Shaped(s) && Procs(s) > 0 && Lap(s, sent, k, j, |s.ms[Last(s)].sleeping|, f) && j + 1 == |s.ms[k].sleeping|
    ensures Aloft(PassedOn(s, k, j), sent, k + 1, f)
  {
    var u, next := PassedOn(s, k, j), k + 1;
    assert Placed(s, sent, k, j, k);
    assert Dozing(u, k, j + 1, j + 1);
    forall i | 0 <= i < Procs(s)
      ensures Placed(u, sent, next, 0, i) && !u.ms[i].hastoken
    {
      assert Placed(s, sent, k, j, i);
    }
  }

  lemma Lands(s: Sys, sent: nat, k: nat, f: nat)
    requires Aloft(s, sent, k, f) && k < Last(s)
    ensures Enabled(s, TakeToken) && Lap(Step(s, TakeToken), sent, k, 0, |s.ms[Last(s)].sleeping|, f)
  {
    assert Placed(s, sent, k, 0, k);
    TakeTokenShapes(s);
    var t := Step(s, TakeToken);
    forall i | 0 <= i < Procs(s) ensures Placed(t, sent, k, 0, i) && t.ms[i].hastoken == (i == k) {
      assert Placed(s, sent, k, 0, i);
    }
  }

  lemma {:induction false} AloftReached(cpus: seq<nat>, sent: nat, k: nat, f: nat) returns (c: Conf)
    requires |cpus| >= 2 && forall i :: 0 <= i < |cpus| ==> cpus[i] > 0
    requires 0 < k < |cpus| && f <= cpus[|cpus| - 1]
    ensures Reachable(cpus, c) && Aloft(c.s, sent, k, f)
  {
    hide Step, Enabled, Lap, Aloft;
    if k == 1 {
      c := LastDozes(cpus, sent, cpus[|cpus| - 1], f);
    } else {
      c := AloftReached(cpus, sent, k - 1, f);
      ReachableFibers(cpus, c);
      AloftShape(c.s, sent, k - 1, f);
      Lands(c.s, sent, k - 1, f);
      ReachableNext(cpus, c, TakeToken);
      c := ConfStep(c, TakeToken);
    }
    c := HolderDozes(cpus, sent, k - 1, cpus[k - 1] - 1, f, c);
    c := OnePass(cpus, sent, k - 1, f, c);
  }

  lemma AloftShape(s: Sys, sent: nat, k: nat, f: nat)
    requires Aloft(s, sent, k, f)
    ensures Shaped(s) && Procs(s) >= 2
  {
  }

  lemma OnePass(cpus: seq<nat>, sent: nat, k: nat, f: nat, first: Conf) returns (c: Conf)
    requires Reachable(cpus, first) && k + 1 < |cpus| && cpus[k] > 0
    requires Lap(first.s, sent, k, cpus[k] - 1, cpus[|cpus| - 1], f)
    ensures Reachable(cpus, c) && Aloft(c.s, sent, k + 1, f)
  {
    hide Step, Enabled, Aloft;
    ReachableFibers(cpus, first);
    Passes(first.s, sent, k, cpus[k] - 1, cpus[|cpus| - 1], f);
    PassedAloft(first.s, sent, k, cpus[k] - 1, f);
    ReachableNext(cpus, first, EndDone(k, cpus[k] - 1));
    c := ConfStep(first, EndDone(k, cpus[k] - 1));
    ReachableNext(cpus, c, FinishFold);
    c := ConfStep(c, FinishFold);
  }

  // ---- What the last machine receives ----

  /** A call of the last machine waits at machine 0, whose handler may send as many as it likes. */
  ghost predicate Waits(s: Sys, sent: nat, received: nat, f: nat) {
    && Shaped(s) && Procs(s) >= 2 && s.folding.None? && s.token == Some(InFlight(Last(s), Untouched(Procs(s))))
    && s.arrived[0] > 0 && s.sent[Last(s)] == sent && s.received[Last(s)] == received
    && FirstLapLocal(Holding(s), Procs(s), f)
    && (f < |s.ms[Last(s)].sleeping| ==> s.pcs[Last(s)][f].Working?)
  }

  lemma CallWaits(s: Sys, sent: nat, f: nat)
    requires Shaped(s) && Procs(s) >= 2 && Aloft(s, sent, Last(s), f) && sent > 0 && f <= |s.ms[Last(s)].sleeping|
    ensures Enabled(s, Deliver(0)) && Waits(Step(s, Deliver(0)), sent, 0, f)
  {
    assert Placed(s, sent, Last(s), 0, 0) && Placed(s, sent, Last(s), 0, Last(s));
  }

  /** Machine 0 sends the last machine a call, which is counted. */
  lemma OneMore(s: Sys, sent: nat, received: nat, f: nat)
    requires Waits(s, sent, received, f)
    ensures Enabled(s, Send(0, Last(s)))
    ensures var t := Step(s, Send(0, Last(s))); Shaped(t) && Enabled(t, Deliver(Last(s)))
    ensures var t := Step(Step(s, Send(0, Last(s))), Deliver(Last(s)));
      Shaped(t) && Enabled(t, RunHandler(Last(s), NoWake))
    ensures var t := Step(Step(Step(s, Send(0, Last(s))), Deliver(Last(s))), RunHandler(Last(s), NoWake));
      Shaped(t) && Enabled(t, CountCall(Last(s))) && Waits(Step(t, CountCall(Last(s))), sent, received + 1, f)
  {
    var z := Last(s);
    var t := Step(Step(Step(s, Send(0, z)), Deliver(z)), RunHandler(z, NoWake));
    assert t.ms == s.ms;
  }

  lemma {:induction false} WaitsReached(cpus: seq<nat>, sent: nat, received: nat, f: nat) returns (c: Conf)
    requires |cpus| >= 2 && (forall i :: 0 <= i < |cpus| ==> cpus[i] > 0) && f <= cpus[|cpus| - 1] && sent > 0
    ensures Reachable(cpus, c) && Procs(c.s) == |cpus| && |c.s.ms[|cpus| - 1].sleeping| == cpus[|cpus| - 1]
    ensures Waits(c.s, sent, received, f)
  {
    hide Step, Enabled, Aloft, Waits;
    var z := |cpus| - 1;
    if received == 0 {
      c := AloftReached(cpus, sent, z, f);
      ReachableFibers(cpus, c);
      AloftShape(c.s, sent, z, f);
      CallWaits(c.s, sent, f);
      ReachableNext(cpus, c, Deliver(0));
      c := ConfStep(c, Deliver(0));
    } else {
      c := WaitsReached(cpus, sent, received - 1, f);
      WaitsShape(c.s, sent, received - 1, f);
      OneMore(c.s, sent, received - 1, f);
      ReachableNext(cpus, c, Send(0, z));
      c := ConfStep(c, Send(0, z));
      ReachableNext(cpus, c, Deliver(z));
      c := ConfStep(c, Deliver(z));
      ReachableNext(cpus, c, RunHandler(z, NoWake));
      c := ConfStep(c, RunHandler(z, NoWake));
      ReachableNext(cpus, c, CountCall(z));
      c := ConfStep(c, CountCall(z));
    }
    ReachableFibers(cpus, c);
  }

  lemma WaitsShape(s: Sys, sent: nat, received: nat, f: nat)
    requires Waits(s, sent, received, f)
    ensures Shaped(s)
  {
  }

  // ---- The theorem ----

  /** The same view, with a call waiting at machine 0. */
  lemma UnsafeTwin(cpus: seq<nat>, local: Local, sent: nat, received: nat, f: nat) returns (c: Conf, a: Action)
    requires |cpus| >= 2 && (forall i :: 0 <= i < |cpus| ==> cpus[i] > 0) && sent > 0
    requires |local.sleeping| == cpus[|cpus| - 1] && FirstLapLocal(local, |cpus|, f)
    ensures Completing(cpus, c, a) && c.s.arrived[0] > 0
    ensures var v := Seen(c, a); v == View(|cpus| - 1, local, sent, received, v.passed)
  {
    c := WaitsReached(cpus, sent, received, f);
    SameLocal(Holding(c.s), local, |cpus|, f);
    TokenCompletes(c.s, sent, received, f);
    hide Step;
    if f == cpus[|cpus| - 1] {
      a := TakeToken;
    } else {
      ReachableNext(cpus, c, TakeToken);
      c, a := ConfStep(c, TakeToken), EndDone(|cpus| - 1, f);
    }
  }

  /** The token completes when it arrives, or when fiber f falls asleep. */
  lemma TokenCompletes(s: Sys, sent: nat, received: nat, f: nat)
    requires Waits(s, sent, received, f)
    ensures Enabled(s, TakeToken)
    ensures f == |s.ms[Last(s)].sleeping| ==> Finishing(s, TakeToken)
    ensures f < |s.ms[Last(s)].sleeping| ==>
      var t := Step(s, TakeToken);
      && Shaped(t) && Enabled(t, EndDone(Last(s), f)) && Finishing(t, EndDone(Last(s), f))
        && t.ms[Last(s)] == Holding(s)
      && t.sent == s.sent && t.received == s.received && t.arrived == s.arrived
  {
    TakeTokenShapes(s);
  }

  lemma SameLocal(l: Local, m: Local, n: nat, f: nat)
    requires n > 0 && FirstLapLocal(l, n, f) && FirstLapLocal(m, n, f) && |l.sleeping| == |m.sleeping|
    ensures l == m
  {
    assert l.sleeping == m.sleeping;
  }

  /** A call that has arrived somewhere is still there after the completion. */
  lemma NotOver(cpus: seq<nat>, c: Conf, a: Action)
    requires Completing(cpus, c, a) && c.s.arrived[0] > 0
    ensures Shaped(Step(c.s, a)) && !Quiescent(Step(c.s, a))
  {
    hide Step, Sum, CountTrue;
    ReachableInv(cpus, c);
    InvStep(c, a);
    CompletionCounters(c.s, a);
  }

  lemma VouchedIsSound(cpus: seq<nat>, c: Conf, a: Action)
    requires Completing(cpus, c, a) && Vouched(c, Finisher(c.s, a))
    ensures Sound(cpus, Seen(c, a))
  {
    forall d, b | Completing(cpus, d, b) && Seen(d, b) == Seen(c, a) ensures Shaped(Step(d.s, b))
      && Quiescent(Step(d.s, b)) {
      ReachableInv(cpus, d);
      hide Step, Quiescent, Inv;
      QuiescentAtCompletion(d, b);
    }
  }

  /** In every cluster of more than one machine: what a completing machine sees is a proof of termination if and
      only if the machine is vouched for. */
  lemma VouchedIsWeakest(cpus: seq<nat>, c: Conf, a: Action)
    requires |cpus| >= 2 && Completing(cpus, c, a)
    ensures Vouched(c, Finisher(c.s, a)) <==> Sound(cpus, Seen(c, a))
  {
    if Vouched(c, Finisher(c.s, a)) {
      VouchedIsSound(cpus, c, a);
    } else {
      UnvouchedView(cpus, c, a);
      var v := Seen(c, a);
      var d, b := UnsafeTwin(cpus, v.local, v.sent, v.received, if a.EndDone? then a.cpu else cpus[v.at]);
      NotOver(cpus, d, b);
      TwinUnvouched(cpus, d, b);
      assert Seen(d, b) == v;
    }
  }

  /** A machine that has passed the token before never completes wrongly. */
  lemma TwinUnvouched(cpus: seq<nat>, c: Conf, a: Action)
    requires Completing(cpus, c, a) && Shaped(Step(c.s, a)) && !Quiescent(Step(c.s, a))
    ensures !Seen(c, a).passed
  {
    hide Step, Quiescent;
    ReachableInv(cpus, c);
    if Seen(c, a).passed { QuiescentAtCompletion(c, a); }
  }
}

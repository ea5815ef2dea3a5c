/** The bounds on finding termination are exact: for every cluster size there is a terminated state from
    which 2n visits of the token, in 4n - 1 steps, do not suffice. The last machine's pass is overtaken by a
    call counted after its first read, so the token goes round once before that call is folded in, and once more. */
module SlowestRun {
  import opened Options
  import opened Sums
  import opened Consensus
  import opened TerminationDetection
  import opened TerminationProof
  import opened TerminationTheorems
  import opened TerminationProgress
  import opened FirstLap

  lemma Continue(c: Conf, run: seq<Action>, a: Action, b: seq<Action>)
    requires Shaped(c.s) && Enabled(c.s, a) && Legal(ConfStep(c, a), b) && run == [a] + b
    ensures Legal(c, run) && After(c, run) == After(ConfStep(c, a), b)
    ensures Visits(c, run) == Visits(ConfStep(c, a), b) + if a.FinishFold? || Finishing(c.s, a) then 1 else 0
  {
    assert run[0] == a && run[1..] == b;
  }

  // ---- The token circles: v visits from here to completion ----

  ghost predicate Circling(s: Sys, v: nat) {
    && Shaped(s) && s.folding.None? && s.token.Some? && s.token.value.to < Procs(s)
    && (forall i :: 0 <= i < Procs(s) ==> s.ms[i].numactive == 0)
    && var n, k, t := Procs(s), s.token.value.to, s.token.value.token;
       && n >= 2
       && ((t == Token(1, 0, 0) && v == 2 * n - k && Overtaken(s))
        || (t == Token(1, 1, n - 1) && v == n - k && forall i :: 0 <= i < n ==> Settled(s, i)))
  }

  /** All is folded in but one call received by the last machine. */
  ghost predicate Overtaken(s: Sys)
    requires Shaped(s)
  {
    var z := Procs(s) - 1;
    && (forall i :: 0 <= i < z ==> Settled(s, i))
    && s.sent[z] == s.ms[z].lastSent && s.received[z] == s.ms[z].lastReceived + 1
  }

  lemma Arrives(s: Sys, v: nat)
    requires Circling(s, v) && v >= 2
    ensures Enabled(s, TakeToken) && !Finishing(s, TakeToken)
    ensures var i := s.token.value.to;
      Step(s, TakeToken) == s.(token := None, ms := s.ms[i := Holding(s)],
        folding := Some(Folding(i, s.received[i], None)))
  {
    TakeTokenShapes(s);
  }

  lemma Leaves(s: Sys, v: nat)
    requires Circling(s, v) && v >= 2
    ensures Enabled(s, TakeToken) && Shaped(Step(s, TakeToken)) && Enabled(Step(s, TakeToken), FinishFold)
    ensures Circling(Step(Step(s, TakeToken), FinishFold), v - 1)
  {
    Arrives(s, v);
    var i, n, l, m := s.token.value.to, Procs(s), Holding(s), Step(s, TakeToken);
    NextIs(i, n);
    var last := Passed(l, i, s.received[i], s.sent[i]);
    var t := Step(m, FinishFold);
    assert t.ms == s.ms[i := last];
    assert t.sent == s.sent && t.received == s.received;
    forall j | 0 <= j < n && j != i ensures t.ms[j] == s.ms[j] && (Settled(t, j) <==> Settled(s, j)) { }
    assert Settled(t, i);
    if s.token.value.token == Token(1, 0, 0) {
      if i < n - 1 { assert Settled(s, i); assert Overtaken(t); }
    } else {
      assert Settled(s, i);
    }
  }

  lemma {:induction false} Rounds(c: Conf, v: nat, m: nat) returns (run: seq<Action>)
    requires Circling(c.s, v) && m < v && !c.h.completed
    ensures Legal(c, run) && Visits(c, run) == m && |run| == 2 * m && !After(c, run).h.completed
    decreases m
  {
    run := [];
    if m > 0 {
      Arrives(c.s, v);
      Leaves(c.s, v);
      hide Step, Circling, Finishing, Enabled;
      var d := ConfStep(c, TakeToken);
      var e := ConfStep(d, FinishFold);
      var rest := Rounds(e, v - 1, m - 1);
      Continue(d, [FinishFold] + rest, FinishFold, rest);
      run := [TakeToken] + ([FinishFold] + rest);
      Continue(c, run, TakeToken, [FinishFold] + rest);
    }
  }

  // ---- The first lap ----

  predicate Resting(s: Sys, j: nat)
    requires Shaped(s) && j < Procs(s)
  {
    s.ms[j].numactive == 0 && s.ms[j].sleeping == [true] && s.pcs[j] == [Waiting]
  }

  predicate Busy(s: Sys, j: nat)
    requires Shaped(s) && j < Procs(s)
  {
    s.ms[j].numactive == 1 && !s.ms[j].done && s.ms[j].sleeping == [false] && s.pcs[j] == [Working]
  }

  predicate Quiescing(s: Sys, j: nat)
    requires Shaped(s) && j < Procs(s)
  {
    s.wire[j] == 0 && s.arrived[j] == 0 && s.ran[j] == 0
  }

  /** Machine 0 has sent one call to the last machine; machines before k sleep and have folded in
      what they sent; machine k works and has the token. */
  ghost predicate Marching(s: Sys, k: nat) {
    && Shaped(s) && Procs(s) >= 2 && k < Procs(s) && s.token.None? && s.folding.None?
    && s.ms[k].token == (if k == 0 then Token(0, 0, Procs(s) - 1) else Token(1, 0, 0))
    && forall j :: 0 <= j < Procs(s) ==> InStep(s, k, j)
  }

  predicate InStep(s: Sys, k: nat, j: nat)
    requires Shaped(s) && j < Procs(s)
  {
    && (if j < k then Resting(s, j) else Busy(s, j))
    && s.ms[j].hastoken == (j == k)
    && s.ms[j].lastSent == (if j == 0 && k > 0 then 1 else 0) && s.sent[j] == (if j == 0 then 1 else 0)
    && s.ms[j].lastReceived == 0 && s.received[j] == 0
    && s.wire[j] == (if j == Procs(s) - 1 then 1 else 0) && s.arrived[j] == 0 && s.ran[j] == 0
  }

  lemma MarchSleeps(s: Sys, k: nat)
    requires Marching(s, k)
    ensures InStep(s, k, k) && Enabled(s, EndDone(k, 0)) && !Finishing(s, EndDone(k, 0))
    ensures Step(s, EndDone(k, 0)) ==
      s.(ms := s.ms[k := s.ms[k].(numactive := 0)], pcs := s.pcs[k := [Waiting]],
        folding := Some(Folding(k, 0, Some(0))))
  {
    assert InStep(s, k, k);
    EndDoneShapes(s, k, 0);
    assert [Working][0 := Waiting] == [Waiting];
  }

  lemma MarchPasses(s: Sys, k: nat)
    requires Marching(s, k) && k + 1 < Procs(s)
    ensures Enabled(s, EndDone(k, 0))
    ensures var m := Step(s, EndDone(k, 0));
      && Shaped(m) && Enabled(m, FinishFold)
      && Step(m, FinishFold) == s.(
        ms := s.ms[k := Local(if k == 0 then 1 else 0, 0, 0, false, [true], false, Token(1, 0, 0))],
        pcs := s.pcs[k := [Waiting]], token := Some(InFlight(k + 1, Token(1, 0, 0))))
  {
    MarchSleeps(s, k);
    NextIs(k, Procs(s));
    assert [false][0 := true] == [true];
    var m := Step(s, EndDone(k, 0));
    assert m.sent == s.sent;
    var l := Local(if k == 0 then 1 else 0, 0, 0, false, [true], false, Token(1, 0, 0));
    assert s.ms[k := s.ms[k].(numactive := 0)][k := l] == s.ms[k := l];
  }

  lemma MarchArrives(s: Sys, t: Sys, k: nat)
    requires Marching(s, k) && k + 1 < Procs(s)
    requires t == s.(
        ms := s.ms[k := Local(if k == 0 then 1 else 0, 0, 0, false, [true], false, Token(1, 0, 0))],
        pcs := s.pcs[k := [Waiting]], token := Some(InFlight(k + 1, Token(1, 0, 0))))
    ensures Shaped(t) && Enabled(t, TakeToken) && !Finishing(t, TakeToken) && Marching(Step(t, TakeToken), k + 1)
  {
    assert InStep(s, k, k) && InStep(s, k, k + 1);
    TakeTokenShapes(t);
    var u, next := Step(t, TakeToken), k + 1;
    forall j | 0 <= j < Procs(s) ensures InStep(u, next, j) { assert InStep(s, k, j); }
  }

  /** Machine k falls asleep and its token reaches the next machine. */
  lemma MarchGoesOn(c: Conf, run: seq<Action>, k: nat) returns (longer: seq<Action>)
    requires Legal(c, run) && Marching(After(c, run).s, k) && k + 1 < Procs(After(c, run).s)
      && !After(c, run).h.completed
    ensures Legal(c, longer) && Marching(After(c, longer).s, k + 1)
      && Procs(After(c, longer).s) == Procs(After(c, run).s)
    ensures !After(c, longer).h.completed
  {
    hide Step, Finishing, Enabled, Marching, Legal, After;
    var s := After(c, run).s;
    MarchIsShaped(s, k);
    MarchSleeps(s, k);
    MarchPasses(s, k);
    var t := Step(Step(s, EndDone(k, 0)), FinishFold);
    MarchArrives(s, t, k);
    MarchIsShaped(Step(t, TakeToken), k + 1);
    longer := Follow(c, run, EndDone(k, 0));
    longer := Follow(c, longer, FinishFold);
    longer := Follow(c, longer, TakeToken);
    StepKeepsProcs(t, TakeToken);
  }

  lemma MarchIsShaped(s: Sys, k: nat)
    requires Marching(s, k)
    ensures Shaped(s) && k < Procs(s)
  {
  }

  /** The last machine sleeps with its pass begun, and its call is at one of four stages. */
  ghost predicate Ending(s: Sys, wire: nat, arrived: nat, ran: nat, received: nat) {
    && Shaped(s) && Procs(s) >= 2 && s.token.None?
    && var z := Procs(s) - 1;
       && s.folding == Some(Folding(z, 0, Some(0)))
       && s.ms[z] == Local(0, 0, 0, false, [false], true, Token(1, 0, 0)) && s.pcs[z] == [Waiting]
       && s.sent[z] == 0 && s.wire[z] == wire && s.arrived[z] == arrived && s.ran[z] == ran && s.received[z] == received
       && forall j :: 0 <= j < z ==> Resting(s, j) && Settled(s, j) && Quiescing(s, j)
  }

  lemma MarchEnds(s: Sys, k: nat)
    requires Marching(s, k) && k == Procs(s) - 1
    ensures Enabled(s, EndDone(k, 0)) && Ending(Step(s, EndDone(k, 0)), 1, 0, 0, 0)
  {
    MarchSleeps(s, k);
    var t := Step(s, EndDone(k, 0));
    forall j | 0 <= j < k ensures Resting(t, j) && Settled(t, j) && Quiescing(t, j) { assert InStep(s, k, j); }
  }

  lemma EndingMoves(s: Sys, t: Sys, wire: nat, arrived: nat, ran: nat, received: nat, wire': nat, arrived': nat,
    ran': nat, received': nat)
    requires Ending(s, wire, arrived, ran, received)
    requires var z := Procs(s) - 1;
      && t.ms == s.ms && t.pcs == s.pcs && t.sent == s.sent && t.token == s.token && t.folding == s.folding
      && t.wire == s.wire[z := wire'] && t.arrived == s.arrived[z := arrived'] && t.ran == s.ran[z := ran']
      && t.received == s.received[z := received']
    ensures Ending(t, wire', arrived', ran', received')
  {
    forall j | 0 <= j < Procs(s) - 1 ensures Resting(t, j) && Settled(t, j) && Quiescing(t, j) {
      assert Resting(s, j) && Settled(s, j) && Quiescing(s, j);
    }
  }

  ghost predicate Leads(s: Sys, a: Action, wire: nat, arrived: nat, ran: nat, received: nat) {
    && Shaped(s) && Enabled(s, a) && !Finishing(s, a)
    && Ending(Step(s, a), wire, arrived, ran, received) && Procs(Step(s, a)) == Procs(s)
  }

  lemma CallArrives(s: Sys)
    requires Ending(s, 1, 0, 0, 0)
    ensures Leads(s, Deliver(Procs(s) - 1), 0, 1, 0, 0)
  {
    EndingMoves(s, Step(s, Deliver(Procs(s) - 1)), 1, 0, 0, 0, 0, 1, 0, 0);
  }

  lemma CallRuns(s: Sys)
    requires Ending(s, 0, 1, 0, 0)
    ensures Leads(s, RunHandler(Procs(s) - 1, NoWake), 0, 0, 1, 0)
  {
    EndingMoves(s, Step(s, RunHandler(Procs(s) - 1, NoWake)), 0, 1, 0, 0, 0, 0, 1, 0);
  }

  lemma CallIsCounted(s: Sys)
    requires Ending(s, 0, 0, 1, 0)
    ensures Leads(s, CountCall(Procs(s) - 1), 0, 0, 0, 1)
  {
    EndingMoves(s, Step(s, CountCall(Procs(s) - 1)), 0, 0, 1, 0, 0, 0, 0, 1);
  }

  /** The terminated state the slow run starts from. */
  lemma EndIsQuiet(s: Sys)
    requires Ending(s, 0, 0, 0, 1)
    ensures Shaped(s) && Quiescent(s) && Enabled(s, FinishFold) && Circling(Step(s, FinishFold), 2 * Procs(s))
    ensures Step(s, FinishFold).folding.None?
  {
    var n, t := Procs(s), Step(s, FinishFold);
    NextIs(n - 1, n);
    forall j | 0 <= j < n ensures Quiescing(s, j) && s.ms[j].numactive == 0 && t.ms[j].numactive == 0 {
      if j < n - 1 { assert Resting(s, j); }
    }
    forall i, k | 0 <= i < n && 0 <= k < |s.pcs[i]| ensures !Lively(s, i, k) {
      if i < n - 1 { assert Resting(s, i); }
    }
    assert AllZero(s.wire) && AllZero(s.arrived) && AllZero(s.ran) by {
      forall j | 0 <= j < n ensures s.wire[j] == 0 && s.arrived[j] == 0 && s.ran[j] == 0 { assert Quiescing(s, j); }
    }
    forall j | 0 <= j < n - 1 ensures Settled(t, j) { assert Settled(s, j); }
  }

  // ---- The run ----

  lemma MarchStarts(n: nat)
    requires n >= 2
    ensures Shaped(Initial(Ones(n)).s) && Enabled(Initial(Ones(n)).s, Send(0, n - 1))
      && !Finishing(Initial(Ones(n)).s, Send(0, n - 1))
    ensures var t := Step(Initial(Ones(n)).s, Send(0, n - 1)); Marching(t, 0) && Shaped(t) && Procs(t) == n
  {
    RowStarts(n);
    var s := Row(n, 0, 0);
    assert s.pcs[0][0] == Working;
    var t := Step(s, Send(0, n - 1));
    forall j | 0 <= j < n ensures InStep(t, 0, j) { assert s.ms[j] == Lapped(n, 0, j) && s.pcs[j] == [Working]; }
  }

  lemma {:induction false} MarchReached(n: nat, k: nat) returns (run: seq<Action>)
    requires n >= 2 && k < n
    ensures Legal(Initial(Ones(n)), run) && Procs(After(Initial(Ones(n)), run).s) == n
      && Marching(After(Initial(Ones(n)), run).s, k)
    ensures !After(Initial(Ones(n)), run).h.completed
  {
    hide Step, Marching, Finishing, Enabled;
    var c := Initial(Ones(n));
    if k == 0 {
      MarchStarts(n);
      run := Follow(c, [], Send(0, n - 1));
    } else {
      run := MarchReached(n, k - 1);
      run := MarchGoesOn(c, run, k - 1);
    }
  }

  lemma EndReached(n: nat) returns (run: seq<Action>)
    requires n >= 2
    ensures Legal(Initial(Ones(n)), run) && Procs(After(Initial(Ones(n)), run).s) == n
      && Ending(After(Initial(Ones(n)), run).s, 0, 0, 0, 1)
    ensures !After(Initial(Ones(n)), run).h.completed
  {
    hide Step, Marching, Finishing, Enabled, Legal, After, Initial, Ending;
    var c, z := Initial(Ones(n)), n - 1;
    run := MarchReached(n, z);
    var s := After(c, run).s;
    MarchIsShaped(s, z);
    MarchSleeps(s, z);
    MarchEnds(s, z);
    StepKeepsProcs(s, EndDone(z, 0));
    run := Follow(c, run, EndDone(z, 0));
    CallArrives(After(c, run).s);
    run := Follow(c, run, Deliver(z));
    CallRuns(After(c, run).s);
    run := Follow(c, run, RunHandler(z, NoWake));
    CallIsCounted(After(c, run).s);
    run := Follow(c, run, CountCall(z));
  }

  /** For every cluster size there is a reachable terminated state and a run from it, of 2n visits of the
      token and 4n - 1 steps, at whose end nobody has completed. Its first step ends the overtaken pass, so
      the bounds for a state with no such pass are reached as well. */
  lemma BoundsAreReached(n: nat) returns (c: Conf, run: seq<Action>)
    requires n >= 2
    ensures Reachable(Ones(n), c) && Shaped(c.s) && Quiescent(c.s)
    ensures Legal(c, run) && Visits(c, run) == 2 * n && |run| == 4 * n - 1 && !After(c, run).h.completed
    ensures !CompletesWithin(c, 2 * n, 4 * n) && !CompletesWithin(c, 2 * n + 1, 4 * n - 1)
    ensures Enabled(c.s, FinishFold)
    ensures var d := ConfStep(c, FinishFold);
      ReadFresh(d.s) && !CompletesWithin(d, 2 * n - 1, 4 * n - 1) && !CompletesWithin(d, 2 * n, 4 * n - 2)
  {
    hide Step, Circling, Ending, Finishing, Enabled, Quiescent, Initial;
    var before := EndReached(n);
    c := After(Initial(Ones(n)), before);
    assert Reachable(Ones(n), c);
    EndIsQuiet(c.s);
    var d := ConfStep(c, FinishFold);
    var rest := Rounds(d, 2 * n, 2 * n - 1);
    run := [FinishFold] + rest;
    Continue(c, run, FinishFold, rest);
  }
}

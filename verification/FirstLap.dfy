/** The gap: on its first lap the token can complete over a call in flight. The constructor names
    the last machine as lastChange before that machine has reported anything, and the completion
    test never looks at its current counters. */
module FirstLap {
  import opened Options
  import opened Sums
  import opened Consensus
  import opened TerminationDetection
  import opened TerminationProof
  import opened TerminationTheorems

  lemma {:induction false} Extend(c: Conf, run: seq<Action>, a: Action)
    requires Legal(c, run) && Shaped(After(c, run).s) && Enabled(After(c, run).s, a)
    ensures Legal(c, run + [a]) && After(c, run + [a]) == ConfStep(After(c, run), a)
    decreases |run|
  {
    if run == [] {
      assert ([a])[1..] == [];
      assert [] + [a] == [a];
    } else {
      assert (run + [a])[1..] == run[1..] + [a];
      Extend(ConfStep(c, run[0]), run[1..], a);
    }
  }

  function Ones(n: nat): seq<nat> { seq(n, _ => 1) }

  function Zeros(n: nat): seq<nat> { seq(n, _ => 0) }

  function Lapped(n: nat, k: nat, j: nat): Local
    requires n > 0
  {
    Local(0, 0, if j < k then 0 else 1, false, [j < k], j == k, Token(0, 0, n - 1))
  }

  /** One fiber a machine. The last machine has that many calls to machine 0 on the wire; machines before
      k have gone to sleep and passed the token on unchanged; k holds it. */
  function Row(n: nat, k: nat, calls: nat): Sys
    requires n > 0
  {
    Sys(seq(n, j requires 0 <= j < n => Lapped(n, k, j)),
        seq(n, j requires 0 <= j < n => [if j < k then Waiting else Working]),
        Zeros(n)[n - 1 := calls], Zeros(n), Zeros(n)[0 := calls], Zeros(n), Zeros(n), None, None, {}, {})
  }

  function RowAsleep(n: nat, k: nat, calls: nat): Sys
    requires k + 1 < n
  {
    var s := Row(n, k, calls);
    s.(ms := s.ms[k := s.ms[k].(numactive := 0)], pcs := s.pcs[k := [Waiting]], folding := Some(Folding(k, 0, Some(0))))
  }

  function RowFlying(n: nat, k: nat, calls: nat): Sys
    requires k + 1 < n
  {
    var s := Row(n, k, calls);
    s.(ms := s.ms[k := Local(0, 0, 0, false, [true], false, Token(0, 0, n - 1))], pcs := s.pcs[k := [Waiting]],
       token := Some(InFlight(k + 1, Token(0, 0, n - 1))))
  }

  lemma RowSleeps(n: nat, k: nat, calls: nat)
    requires k + 1 < n
    ensures Shaped(Row(n, k, calls)) && Enabled(Row(n, k, calls), EndDone(k, 0))
      && Step(Row(n, k, calls), EndDone(k, 0)) == RowAsleep(n, k, calls)
  {
    EndDoneShapes(Row(n, k, calls), k, 0);
    assert [Working][0 := Waiting] == [Waiting];
  }

  lemma RowPasses(n: nat, k: nat, calls: nat)
    requires k + 1 < n
    ensures Shaped(RowAsleep(n, k, calls)) && Enabled(RowAsleep(n, k, calls), FinishFold)
      && Step(RowAsleep(n, k, calls), FinishFold) == RowFlying(n, k, calls)
  {
    NextIs(k, n);
    assert [false][0 := true] == [true];
    var s := Row(n, k, calls);
    var l := Local(0, 0, 0, false, [true], false, Token(0, 0, n - 1));
    assert s.ms[k := s.ms[k].(numactive := 0)][k := l] == s.ms[k := l];
  }

  lemma RowArrives(n: nat, k: nat, calls: nat)
    requires k + 1 < n
    ensures Shaped(RowFlying(n, k, calls)) && Enabled(RowFlying(n, k, calls), TakeToken)
      && Step(RowFlying(n, k, calls), TakeToken) == Row(n, k + 1, calls)
  {
    var s, t := Step(RowFlying(n, k, calls), TakeToken), Row(n, k + 1, calls);
    assert s.ms == t.ms;
    assert s.pcs == t.pcs;
  }

  lemma RowStarts(n: nat)
    requires n > 0
    ensures Initial(Ones(n)).s == Row(n, 0, 0)
  {
    var s := Initial(Ones(n)).s;
    assert s.ms == Row(n, 0, 0).ms by {
      forall j | 0 <= j < n ensures s.ms[j] == Lapped(n, 0, j) { assert NoneAsleep(1) == [false]; }
    }
    assert s.pcs == Row(n, 0, 0).pcs by {
      forall j | 0 <= j < n ensures s.pcs[j] == [Working] { assert s.pcs[j] == seq(1, _ => Working); }
    }
    assert Zeros(n)[n - 1 := 0] == Zeros(n) == Zeros(n)[0 := 0];
  }

  lemma RowSends(n: nat)
    requires n > 0
    ensures Enabled(Row(n, 0, 0), Send(n - 1, 0)) && Step(Row(n, 0, 0), Send(n - 1, 0)) == Row(n, 0, 1)
  {
    assert Row(n, 0, 0).pcs[n - 1][0] == Working;
  }

  lemma Follow(c: Conf, run: seq<Action>, a: Action) returns (bs: seq<Action>)
    requires Legal(c, run) && Shaped(After(c, run).s) && Enabled(After(c, run).s, a)
    ensures Legal(c, bs) && After(c, bs) == ConfStep(After(c, run), a)
  {
    Extend(c, run, a);
    bs := run + [a];
  }

  lemma {:induction false} RowReached(n: nat, k: nat, calls: nat) returns (run: seq<Action>)
    requires k < n && calls <= 1
    ensures Legal(Initial(Ones(n)), run) && After(Initial(Ones(n)), run).s == Row(n, k, calls)
  {
    hide Sum, CountTrue, Step;
    if k == 0 {
      RowStarts(n);
      run := [];
      if calls == 1 {
        RowSends(n);
        run := Follow(Initial(Ones(n)), [], Send(n - 1, 0));
      }
    } else {
      run := RowReached(n, k - 1, calls);
      RowSleeps(n, k - 1, calls);
      run := Follow(Initial(Ones(n)), run, EndDone(k - 1, 0));
      RowPasses(n, k - 1, calls);
      run := Follow(Initial(Ones(n)), run, FinishFold);
      RowArrives(n, k - 1, calls);
      run := Follow(Initial(Ones(n)), run, TakeToken);
    }
  }

  /** On a cluster of any size there is a run whose first completion is wrong: a call is still in flight. */
  lemma FirstLapCanFail(n: nat) returns (c: Conf, a: Action)
    requires n > 0
    ensures Reachable(Ones(n), c) && Shaped(c.s) && Enabled(c.s, a) && Finishing(c.s, a)
    ensures Shaped(Step(c.s, a)) && !NothingInFlight(Step(c.s, a)) && !Quiescent(Step(c.s, a))
  {
    var run := RowReached(n, n - 1, 1);
    c, a := After(Initial(Ones(n)), run), EndDone(n - 1, 0);
    assert Reachable(Ones(n), c);
    ReachableInv(Ones(n), c);
    EndDoneCounters(c.s, a);
    assert Step(c.s, a).wire[0] == 1;
  }

  /** And there is one whose first completion is vouched for, and so right: without the call. */
  lemma FirstLapCanSucceed(n: nat) returns (c: Conf, a: Action)
    requires n > 0
    ensures Reachable(Ones(n), c) && CompletesVouched(c, a) && TerminatedForGood(ConfStep(c, a))
  {
    var run := RowReached(n, n - 1, 0);
    c, a := After(Initial(Ones(n)), run), EndDone(n - 1, 0);
    assert Reachable(Ones(n), c);
    RowVouched(n, c);
    hide CompletesVouched, TerminatedForGood, Step;
    CompletionIsSafe(Ones(n), c, a);
  }

  lemma RowVouched(n: nat, c: Conf)
    requires n > 0 && c.s == Row(n, n - 1, 0)
    ensures CompletesVouched(c, EndDone(n - 1, 0))
  {
    hide Step, Sum, CountTrue, Others;
  }
}

/** What a completing machine could test to be sure. All it has is its own state, its own two counters and
    whether it has passed the token before. In a cluster of one machine an exact test exists; in any larger
    one there is none, and Vouched is the weakest of the tests that are safe. */
module LocalTests {
  import opened Options
  import opened Sums
  import opened Consensus
  import opened TerminationDetection
  import opened TerminationProof
  import opened TerminationTheorems
  import opened FirstLap

  /** Everything a machine can see when it takes the completion branch. */
  datatype View = View(at: nat, local: Local, sent: nat, received: nat, passed: bool)

  ghost predicate Completing(cpus: seq<nat>, c: Conf, a: Action) {
    Reachable(cpus, c) && Shaped(c.s) && Enabled(c.s, a) && Finishing(c.s, a)
  }

  function Seen(c: Conf, a: Action): View
    requires Shaped(c.s) && Enabled(c.s, a) && Finishing(c.s, a)
  {
    var p := Finisher(c.s, a);
    View(p, if a.TakeToken? then Holding(c.s) else c.s.ms[p], c.s.sent[p], c.s.received[p], p in c.h.passed)
  }

  /** Whenever a machine that sees this completes, the cluster has terminated. */
  ghost predicate Sound(cpus: seq<nat>, v: View) {
    forall c, a :: Completing(cpus, c, a) && Seen(c, a) == v ==> Shaped(Step(c.s, a)) && Quiescent(Step(c.s, a))
  }

  // ---- One machine ----

  /** A machine alone can tell exactly: it has terminated if it has received all it has sent. */
  lemma AloneIsExact(cpus: seq<nat>, c: Conf, a: Action)
    requires |cpus| == 1 && Completing(cpus, c, a)
    ensures Shaped(Step(c.s, a)) && (Quiescent(Step(c.s, a)) <==> c.s.sent[0] == c.s.received[0])
  {
    ReachableInv(cpus, c);
    OneSums(c.s);
    StillOrNot(cpus, c, a);
  }

  lemma OneSums(s: Sys)
    requires Shaped(s) && Procs(s) == 1 && Conserved(s)
    ensures NothingInFlight(s) <==> s.sent[0] == s.received[0]
  {
    SumOne(s.sent); SumOne(s.received); SumOne(s.wire); SumOne(s.arrived); SumOne(s.ran);
  }

  lemma SumOne(x: seq<nat>)
    requires |x| == 1
    ensures Sum(x) == x[0]
  {
    assert x == [x[0]];
  }

  // ---- No test is exact ----

  lemma ReachableNext(cpus: seq<nat>, c: Conf, a: Action)
    requires Reachable(cpus, c) && Shaped(c.s) && Enabled(c.s, a)
    ensures Reachable(cpus, ConfStep(c, a))
  {
    var run :| Legal(Initial(cpus), run) && After(Initial(cpus), run) == c;
    Extend(Initial(cpus), run, a);
  }

  /** All but the last machine sleep and have passed the token on; the one call is at some stage. */
  function Called(n: nat, wire: nat, arrived: nat, ran: nat, received: nat): Sys
    requires n > 0
  {
    Row(n, n - 1, 1).(wire := Zeros(n)[0 := wire], arrived := Zeros(n)[0 := arrived], ran := Zeros(n)[0 := ran],
                      received := Zeros(n)[0 := received])
  }

  lemma CallMoves(n: nat)
    requires n > 0
    ensures Row(n, n - 1, 1) == Called(n, 1, 0, 0, 0) && Shaped(Called(n, 1, 0, 0, 0))
    ensures Enabled(Called(n, 1, 0, 0, 0), Deliver(0))
      && Step(Called(n, 1, 0, 0, 0), Deliver(0)) == Called(n, 0, 1, 0, 0)
    ensures Enabled(Called(n, 0, 1, 0, 0), RunHandler(0, NoWake))
    ensures Step(Called(n, 0, 1, 0, 0), RunHandler(0, NoWake)) == Called(n, 0, 0, 1, 0)
    ensures Enabled(Called(n, 0, 0, 1, 0), CountCall(0))
      && Step(Called(n, 0, 0, 1, 0), CountCall(0)) == Called(n, 0, 0, 0, 1)
  {
    var s := Row(n, n - 1, 1);
    assert Zeros(n)[0 := 0] == Zeros(n);
    assert s == Called(n, 1, 0, 0, 0);
    assert Step(Called(n, 0, 1, 0, 0), RunHandler(0, NoWake)).ms == s.ms;
  }

  lemma CallIsCounted(n: nat, c: Conf) returns (d: Conf)
    requires n > 0 && Reachable(Ones(n), c) && c.s == Row(n, n - 1, 1)
    ensures Reachable(Ones(n), d) && d.s == Called(n, 0, 0, 0, 1) && d.h == c.h
  {
    CallMoves(n);
    ReachableNext(Ones(n), c, Deliver(0));
    d := ConfStep(c, Deliver(0));
    ReachableNext(Ones(n), d, RunHandler(0, NoWake));
    d := ConfStep(d, RunHandler(0, NoWake));
    ReachableNext(Ones(n), d, CountCall(0));
    d := ConfStep(d, CountCall(0));
  }

  lemma CalledCompletes(n: nat, wire: nat, received: nat)
    requires n > 0
    ensures var s := Called(n, wire, 0, 0, received);
      Shaped(s) && Enabled(s, EndDone(n - 1, 0)) && Finishing(s, EndDone(n - 1, 0))
    ensures NothingInFlight(Called(n, wire, 0, 0, received)) <==> wire == 0
    ensures forall v :: 0 <= v < n && v != n - 1 ==> Idle(Called(n, wire, 0, 0, received), v)
  {
    var s := Called(n, wire, 0, 0, received);
    assert s.wire[0] == wire;
  }

  /** For every larger cluster, two runs that look the same to the completing machine: one has terminated
      and the other has a call on the wire. */
  lemma NoLocalTestIsExact(n: nat) returns (c: Conf, d: Conf, a: Action)
    requires n >= 2
    ensures Completing(Ones(n), c, a) && Completing(Ones(n), d, a) && Seen(c, a) == Seen(d, a)
    ensures Shaped(Step(c.s, a)) && !Quiescent(Step(c.s, a))
    ensures Shaped(Step(d.s, a)) && Quiescent(Step(d.s, a))
  {
    var run := RowReached(n, n - 1, 1);
    c, a := After(Initial(Ones(n)), run), EndDone(n - 1, 0);
    assert Reachable(Ones(n), c);
    d := CallIsCounted(n, c);
    CallMoves(n);
    CalledCompletes(n, 1, 0);
    CalledCompletes(n, 0, 1);
    StillOrNot(Ones(n), c, a);
    StillOrNot(Ones(n), d, a);
  }

  /** Whether all is still decides it, if the other machines are idle. */
  lemma StillOrNot(cpus: seq<nat>, c: Conf, a: Action)
    requires Completing(cpus, c, a) && forall v :: 0 <= v < Procs(c.s) && v != Finisher(c.s, a) ==> Idle(c.s, v)
    ensures Shaped(Step(c.s, a)) && (Quiescent(Step(c.s, a)) <==> NothingInFlight(c.s))
  {
    hide Step, Sum, CountTrue;
    ReachableInv(cpus, c);
    InvStep(c, a);
    CompletionCounters(c.s, a);
    if NothingInFlight(c.s) { QuiescentWhenStill(c, a); }
  }
}

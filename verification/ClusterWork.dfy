/** Termination and the sleep handshake together: work is inserted on the machines of the cluster while the token
    goes round, and completion means that all of it has been seen.

    `inserted[i]` is machine i's clock of insertions. `checked[i][f]` is what fiber f's latest look in its critical
    section has seen, and `settled[i][f]` the latest insertion whose producer has come back from a cancel that
    covers f. That a look sees what has settled before is what SleepHandshake proves of one machine. */
module ClusterWork {
  import opened Numbers
  import opened Options
  import opened Sums
  import opened Consensus
  import opened TerminationDetection
  import opened TerminationProof
  import opened TerminationTheorems

  datatype Work = Work(inserted: seq<nat>, checked: seq<seq<nat>>, settled: seq<seq<nat>>)

  datatype Cluster = Cluster(c: Conf, w: Work)

  datatype Act =
    | Insert(at: nat)
    | Protocol(a: Action, stamp: nat)  // `stamp` is the insertion before a wake, or what a look has seen
    | Spare(at: nat, cpu: nat, stamp: nat)  // a cancel_one that finds no one to wake, without the mutex

  ghost predicate Fits(cl: Cluster) {
    && Shaped(cl.c.s) && |cl.w.inserted| == |cl.w.checked| == |cl.w.settled| == Procs(cl.c.s)
    && forall i :: 0 <= i < Procs(cl.c.s) ==> |cl.w.checked[i]| == |cl.w.settled[i]| == |cl.c.s.pcs[i]|
  }

  /** The fiber's flag is set, or it is about to be, with the mutex held. */
  predicate Asleep(s: Sys, i: nat, f: nat)
    requires i < |s.ms| && f < |s.ms[i].sleeping|
  {
    s.ms[i].sleeping[f] || IsSleeper(s, i, f)
  }

  predicate Wakes(a: Action) { a.RunHandler? || a.LocalWake? }

  ghost predicate Allowed(cl: Cluster, b: Act)
    requires Fits(cl)
  {
    match b
    case Insert(i) => i < Procs(cl.c.s)
    case Protocol(a, stamp) => Enabled(cl.c.s, a)
      && (Wakes(a) ==> stamp <= cl.w.inserted[a.at])
      && (a.EndDone? ==> cl.w.settled[a.at][a.cpu] <= stamp <= cl.w.inserted[a.at])
    case Spare(i, f, stamp) =>
      && i < Procs(cl.c.s) && f < |cl.c.s.pcs[i]| && !Asleep(cl.c.s, i, f)
      && stamp <= cl.w.inserted[i]
  }

  predicate Covers(wake: Wake, f: nat) {
    wake.WakeEveryone? || wake == WakeFiber(f)
  }

  function Raised(row: seq<nat>, wake: Wake, stamp: nat): (r: seq<nat>)
    ensures |r| == |row|
  {
    seq(|row|, f requires 0 <= f < |row| => if Covers(wake, f) && row[f] < stamp then stamp else row[f])
  }

  function Put(row: seq<nat>, f: nat, stamp: nat): seq<nat>
    requires f < |row|
  {
    row[f := stamp]
  }

  ghost function WorkStep(cl: Cluster, b: Act): Work
    requires Fits(cl) && Allowed(cl, b)
  {
    var w := cl.w;
    match b
    case Insert(i) => w.(inserted := w.inserted[i := w.inserted[i] + 1])
    case Protocol(a, stamp) =>
      if Wakes(a) then w.(settled := w.settled[a.at := Raised(w.settled[a.at], a.wake, stamp)])
      else if a.EndDone? then w.(checked := w.checked[a.at := Put(w.checked[a.at], a.cpu, stamp)])
      else w
    case Spare(i, f, stamp) => w.(settled := w.settled[i := Raised(w.settled[i], WakeFiber(f), stamp)])
  }

  ghost function Advance(cl: Cluster, b: Act): Cluster
    requires Fits(cl) && Allowed(cl, b)
  {
    Cluster(if b.Protocol? then ConfStep(cl.c, b.a) else cl.c, WorkStep(cl, b))
  }

  function Begun(cpus: seq<nat>): Cluster
    requires |cpus| > 0
  {
    var none := seq(|cpus|, i requires 0 <= i < |cpus| => seq(cpus[i], _ => 0));
    Cluster(Initial(cpus), Work(seq(|cpus|, _ => 0), none, none))
  }

  // ---- A sleeping fiber has seen all that has settled ----

  ghost predicate SleepersSaw(cl: Cluster)
    requires Fits(cl)
  {
    forall i, f :: 0 <= i < Procs(cl.c.s) && 0 <= f < |cl.c.s.pcs[i]| && Asleep(cl.c.s, i, f) ==>
      cl.w.settled[i][f] <= cl.w.checked[i][f]
  }

  /** Nothing has been seen or settled that has not been inserted. */
  ghost predicate Bounded(w: Work) {
    && |w.inserted| == |w.checked| == |w.settled|
    && (forall i, f :: 0 <= i < |w.checked| && 0 <= f < |w.checked[i]| ==> w.checked[i][f] <= w.inserted[i])
    && (forall i, f :: 0 <= i < |w.settled| && 0 <= f < |w.settled[i]| ==> w.settled[i][f] <= w.inserted[i])
  }

  ghost predicate WorkInv(cl: Cluster) {
    Inv(cl.c) && Fits(cl) && SleepersSaw(cl) && Bounded(cl.w)
  }

  /** A cancel settles the insertion before it for every fiber it covers, and for no other. */
  lemma WakeSettles(cl: Cluster, a: Action, stamp: nat, f: nat)
    requires Fits(cl) && Allowed(cl, Protocol(a, stamp)) && Wakes(a) && f < |cl.c.s.pcs[a.at]|
    ensures var w := WorkStep(cl, Protocol(a, stamp));
      && |w.settled| == Procs(cl.c.s) && f < |w.settled[a.at]|
      && w.settled[a.at][f] == Max(cl.w.settled[a.at][f], if Covers(a.wake, f) then stamp else 0)
      && w.inserted == cl.w.inserted && w.checked == cl.w.checked
  {
  }

  /** Each insertion is one tick of its machine's clock. */
  lemma InsertCounts(cl: Cluster, i: nat)
    requires Fits(cl) && Allowed(cl, Insert(i))
    ensures WorkStep(cl, Insert(i)).inserted == cl.w.inserted[i := cl.w.inserted[i] + 1]
  {
  }

  /** No fiber but k of machine p can have fallen asleep. */
  ghost predicate OthersStayUp(s: Sys, t: Sys, p: nat, k: nat)
    requires Shaped(s)
  {
    && Shaped(t) && Procs(t) == Procs(s)
    && (forall i :: 0 <= i < Procs(s) ==> |t.pcs[i]| == |s.pcs[i]|)
    && forall i, f :: 0 <= i < Procs(s) && 0 <= f < |s.pcs[i]| && Asleep(t, i, f) && !(i == p && f == k) ==>
      Asleep(s, i, f)
  }

  lemma EndDoneSleeps(c: Conf, i: nat, k: nat)
    requires Inv(c) && Enabled(c.s, EndDone(i, k))
    ensures OthersStayUp(c.s, Step(c.s, EndDone(i, k)), i, k)
  {
    hide CountTrue, Sum, Others;
    if !c.s.ms[i].done { EndDoneShapes(c.s, i, k); }
  }

  lemma TokenSleeps(c: Conf, a: Action, p: nat, k: nat)
    requires Inv(c) && Enabled(c.s, a) && (a.TakeToken? || a.FinishFold?)
    ensures OthersStayUp(c.s, Step(c.s, a), p, k)
  {
    hide CountTrue, Sum, Others;
    if a.TakeToken? { TakeTokenShapes(c.s); }
  }

  lemma WakesSleep(s: Sys, a: Action, p: nat, k: nat)
    requires Shaped(s) && Enabled(s, a) && (Wakes(a) || a.ForceCancel?)
    ensures OthersStayUp(s, Step(s, a), p, k)
  {
    hide CountTrue, Sum;
  }

  lemma OtherSleeps(s: Sys, a: Action, p: nat, k: nat)
    requires Shaped(s) && Enabled(s, a) && (a.Send? || a.Deliver? || a.CountCall? || a.Resume? || a.ForceDone?)
    ensures OthersStayUp(s, Step(s, a), p, k)
  {
  }

  /** The one step that puts a fiber to sleep is its own. */
  lemma OnlyOwnSleep(c: Conf, a: Action)
    requires Inv(c) && Enabled(c.s, a)
    ensures if a.EndDone? then OthersStayUp(c.s, Step(c.s, a), a.at, a.cpu)
      else forall p, k :: OthersStayUp(c.s, Step(c.s, a), p, k)
  {
    hide Inv, Step, OthersStayUp;
    if a.EndDone? {
      EndDoneSleeps(c, a.at, a.cpu);
    } else {
      InvShape(c);
      forall p, k ensures OthersStayUp(c.s, Step(c.s, a), p, k) {
        if a.TakeToken? || a.FinishFold? { TokenSleeps(c, a, p, k); }
        else if Wakes(a) || a.ForceCancel? { WakesSleep(c.s, a, p, k); }
        else { OtherSleeps(c.s, a, p, k); }
      }
    }
  }

  lemma InvShape(c: Conf)
    requires Inv(c)
    ensures Shaped(c.s)
  {
  }

  /** A wake leaves no fiber asleep that it covers. */
  lemma CoveredAwake(c: Conf, a: Action, f: nat)
    requires Inv(c) && Enabled(c.s, a) && Wakes(a) && f < |c.s.pcs[a.at]| && Covers(a.wake, f)
    ensures Shaped(Step(c.s, a)) && a.at < Procs(Step(c.s, a)) && f < |Step(c.s, a).ms[a.at].sleeping|
    ensures !Asleep(Step(c.s, a), a.at, f)
  {
    assert Tallied(c.s, a.at);
    CountBounds(c.s.ms[a.at].sleeping);
  }

  lemma ProtocolKeeps(cl: Cluster, a: Action, stamp: nat)
    requires WorkInv(cl) && Allowed(cl, Protocol(a, stamp))
    ensures WorkInv(Advance(cl, Protocol(a, stamp)))
  {
    hide Inv, Step;
    InvStep(cl.c, a);
    OnlyOwnSleep(cl.c, a);
    var d, p, k := Advance(cl, Protocol(a, stamp)), if a.EndDone? then a.at else Procs(cl.c.s), if a.EndDone? then a.cpu
      else 0;
    assert OthersStayUp(cl.c.s, d.c.s, p, k);
    forall i, f | 0 <= i < Procs(d.c.s) && 0 <= f < |d.c.s.pcs[i]| && Asleep(d.c.s, i, f)
      ensures d.w.settled[i][f] <= d.w.checked[i][f]
    {
      if Wakes(a) && i == a.at && Covers(a.wake, f) { CoveredAwake(cl.c, a, f); }
    }
  }

  lemma WorkKeeps(cl: Cluster, b: Act)
    requires WorkInv(cl) && Allowed(cl, b)
    ensures WorkInv(Advance(cl, b))
  {
    match b
    case Protocol(a, stamp) => ProtocolKeeps(cl, a, stamp);
    case _ => hide Inv;
  }

  ghost predicate LegalWork(cl: Cluster, run: seq<Act>)
    decreases |run|
  {
    run == [] || (Fits(cl) && Allowed(cl, run[0]) && LegalWork(Advance(cl, run[0]), run[1..]))
  }

  ghost function AfterWork(cl: Cluster, run: seq<Act>): Cluster
    requires LegalWork(cl, run)
    decreases |run|
  {
    if run == [] then cl else AfterWork(Advance(cl, run[0]), run[1..])
  }

  lemma {:induction false} WorkRun(cl: Cluster, run: seq<Act>)
    requires WorkInv(cl) && LegalWork(cl, run)
    ensures WorkInv(AfterWork(cl, run))
    decreases |run|
  {
    if run != [] {
      WorkKeeps(cl, run[0]);
      WorkRun(Advance(cl, run[0]), run[1..]);
    }
  }

  lemma BegunInv(cpus: seq<nat>)
    requires |cpus| > 0 && forall i :: 0 <= i < |cpus| ==> cpus[i] > 0
    ensures WorkInv(Begun(cpus))
  {
    InitialInv(cpus);
  }

  // ---- What completion means for the work ----

  /** Every fiber of every machine has looked at its queues since every insertion whose cancel has returned. */
  ghost predicate AllSeen(w: Work) {
    && |w.settled| == |w.checked|
    && forall i, f :: 0 <= i < |w.settled| && 0 <= f < |w.settled[i]| && f < |w.checked[i]| ==>
      w.settled[i][f] <= w.checked[i][f]
  }

  /** In every run, with work inserted anywhere at any time: when a vouched machine completes, no settled work
      is left unseen on any machine of the cluster. */
  lemma CompletionSeesAllWork(cpus: seq<nat>, run: seq<Act>, a: Action, stamp: nat)
    requires |cpus| > 0 && (forall i :: 0 <= i < |cpus| ==> cpus[i] > 0) && LegalWork(Begun(cpus), run)
    requires var cl := AfterWork(Begun(cpus), run);
      Fits(cl) && Allowed(cl, Protocol(a, stamp)) && CompletesVouched(cl.c, a)
    ensures AllSeen(Advance(AfterWork(Begun(cpus), run), Protocol(a, stamp)).w)
  {
    BegunInv(cpus);
    WorkRun(Begun(cpus), run);
    var cl := AfterWork(Begun(cpus), run);
    SeenAtCompletion(cl, a, stamp);
  }

  lemma SeenAtCompletion(cl: Cluster, a: Action, stamp: nat)
    requires WorkInv(cl) && Allowed(cl, Protocol(a, stamp)) && CompletesVouched(cl.c, a)
    ensures AllSeen(Advance(cl, Protocol(a, stamp)).w)
  {
    hide Step, Sum, CountTrue;
    var s, w := cl.c.s, WorkStep(cl, Protocol(a, stamp));
    CompletingPlace(cl.c, a);
    StillAtCompletion(cl.c, a);
    forall i, f | 0 <= i < Procs(s) && 0 <= f < |s.pcs[i]| ensures w.settled[i][f] <= w.checked[i][f] {
      if a.EndDone? && i == a.at {
        OthersFlagged(cl.c, a);
      } else {
        IdleMachine(s, cl.c.h.pos, i);
      }
    }
  }

  /** The last active fiber of a machine is the only one without its flag. */
  lemma OthersFlagged(c: Conf, a: Action)
    requires Inv(c) && Enabled(c.s, a) && a.EndDone? && Finishing(c.s, a)
    ensures forall f :: 0 <= f < |c.s.pcs[a.at]| && f != a.cpu ==> c.s.ms[a.at].sleeping[f]
  {
    CompletingPlace(c, a);
    var sl := c.s.ms[a.at].sleeping;
    assert Tallied(c.s, a.at);
    CountUpdate(sl, a.cpu, true);
    CountBounds(sl[a.cpu := true]);
    forall f | 0 <= f < |sl| && f != a.cpu ensures sl[f] { assert sl[a.cpu := true][f]; }
  }
}

/** Why the token's verdict is right: the invariant behind completion, and its consequences. */
module TerminationProof {
  import opened Options
  import opened Sums
  import opened Consensus
  import opened TerminationDetection

  /** Bookkeeping the program does not have. `pos` is the machine that holds the token or is
      about to; `passed` the machines that have sent it on; `snap` the counters of all machines
      when the token's lastChange was last written; `base` those at the first read of a pass. */
  datatype Hist = Hist(
    pos: nat, changed: bool, passed: set<nat>, completed: bool,
    snapS: seq<nat>, snapR: seq<nat>, baseS: seq<nat>, baseR: seq<nat>)

  datatype Conf = Conf(s: Sys, h: Hist)

  function StartHist(n: nat): Hist {
    var zero := seq(n, _ => 0);
    Hist(0, false, {}, false, zero, zero, zero, zero)
  }

  predicate FoldChanges(s: Sys)
    requires s.folding.Some? && s.folding.value.at < |s.ms| == |s.sent|
  {
    var f := s.folding.value;
    s.sent[f.at] != s.ms[f.at].lastSent || f.received != s.ms[f.at].lastReceived
  }

  function Next(p: nat, n: nat): nat
    requires n > 0
  {
    (p + 1) % n
  }

  function HistStep(c: Conf, a: Action): Hist
    requires Shaped(c.s) && Enabled(c.s, a)
  {
    var s, h := c.s, c.h;
    if a.FinishFold? then
      var f := s.folding.value;
      var h1 := h.(pos := Next(f.at, Procs(s)), passed := h.passed + {f.at});
      if FoldChanges(s) && f.at < |h.baseS|
      then h1.(changed := true, snapS := h.baseS[f.at := s.sent[f.at]], snapR := h.baseR)
      else h1
    else if Finishing(s, a) then h.(completed := true)
    else if s.folding.None? && Step(s, a).folding.Some? then h.(baseS := s.sent, baseR := s.received)
    else h
  }

  function ConfStep(c: Conf, a: Action): Conf
    requires Shaped(c.s) && Enabled(c.s, a)
  {
    Conf(Step(c.s, a), HistStep(c, a))
  }

  // ---- The invariant ----

  ghost function LastS(s: Sys): seq<nat> { seq(Procs(s), i requires 0 <= i < Procs(s) => s.ms[i].lastSent) }

  ghost function LastR(s: Sys): seq<nat> { seq(Procs(s), i requires 0 <= i < Procs(s) => s.ms[i].lastReceived) }

  ghost predicate Conserved(s: Sys) {
    Sum(s.sent) == Sum(s.received) + Sum(s.wire) + Sum(s.arrived) + Sum(s.ran)
  }

  /** numactive plus the sleeping flags is ncpus, except while the passing fiber still has to set its own flag. */
  ghost predicate Tallied(s: Sys, i: nat)
    requires Shaped(s) && i < Procs(s)
  {
    && |s.ms[i].sleeping| > 0
    && if Locked(s, i) && s.folding.value.sleeper.Some? then
         var c := s.folding.value.sleeper.value;
         c < |s.pcs[i]| && s.pcs[i][c].Waiting? && !s.ms[i].sleeping[c] &&
         s.ms[i].numactive + CountTrue(s.ms[i].sleeping) + 1 == |s.ms[i].sleeping|
       else Accounted(s.ms[i])
  }

  ghost predicate FibersAwake(s: Sys)
    requires Shaped(s)
  {
    forall i, c :: 0 <= i < Procs(s) && 0 <= c < |s.pcs[i]| && s.pcs[i][c].Working? ==> !s.ms[i].sleeping[c]
  }

  ghost function CurToken(s: Sys, pos: nat): Token
    requires pos < |s.ms|
  {
    if s.token.Some? then s.token.value.token else s.ms[pos].token
  }

  /** Exactly one token, held by or on its way to `pos`, with totals that are the sums of what
      the machines last folded in. */
  ghost predicate TokenOk(s: Sys, pos: nat)
    requires Shaped(s)
  {
    && pos < Procs(s)
    && (forall i :: 0 <= i < Procs(s) ==> (s.ms[i].hastoken <==> s.token.None? && i == pos))
    && (s.token.Some? ==> s.token.value.to == pos)
    && CurToken(s, pos).totalCallsSent == Sum(LastS(s))
    && CurToken(s, pos).totalCallsReceived == Sum(LastR(s))
    && CurToken(s, pos).lastChange < Procs(s)
  }

  ghost predicate FoldOk(s: Sys, pos: nat)
    requires Shaped(s)
  {
    s.folding.Some? ==>
      var f := s.folding.value;
      && f.at == pos && s.token.None? && f.at < Procs(s)
      && s.ms[f.at].numactive == 0 && !CompletesAt(s, f.at) && !s.ms[f.at].done
      && s.ms[f.at].lastReceived <= f.received <= s.received[f.at]
  }

  ghost predicate HolderAwake(s: Sys, pos: nat)
    requires Shaped(s) && pos < Procs(s)
  {
    s.token.None? && s.folding.None? && !s.ms[pos].done ==> s.ms[pos].numactive > 0
  }

  ghost predicate Basic(s: Sys, pos: nat) {
    && Shaped(s)
    && Conserved(s)
    && (forall i :: 0 <= i < Procs(s) ==> Tallied(s, i))
    && FibersAwake(s)
    && TokenOk(s, pos)
    && FoldOk(s, pos)
    && HolderAwake(s, pos)
    && Below(LastS(s), s.sent) && Below(LastR(s), s.received)
    && (forall i :: i in s.waking && i < Procs(s) ==> s.ms[i].done)
  }

  /** The machines from `from` up to, but not including, `to`, around the ring; all of them when the two are equal. */
  predicate InArc(from: nat, to: nat, i: nat) {
    if from < to then from <= i < to else i >= from || i < to
  }

  ghost predicate Visited(c: Conf, i: nat)
    requires c.h.pos < |c.s.ms|
  {
    if c.h.changed then InArc(CurToken(c.s, c.h.pos).lastChange, c.h.pos, i) else i < c.h.pos
  }

  ghost predicate Moved(s: Sys, h: Hist, u: nat)
    requires u < |s.sent| && u < |h.snapS|
  {
    s.sent[u] != h.snapS[u]
  }

  ghost predicate Sized(s: Sys, h: Hist) {
    |h.snapS| == |h.snapR| == |h.baseS| == |h.baseR| == Procs(s)
  }

  ghost predicate Idle(s: Sys, i: nat)
    requires i < |s.ms|
  {
    s.ms[i].numactive == 0
  }

  /** The pass in progress will find that this machine has sent. */
  ghost predicate WillChange(s: Sys, h: Hist)
    requires Sized(s, h) && Shaped(s)
  {
    s.folding.Some? && s.folding.value.at < Procs(s) && s.sent[s.folding.value.at] != h.snapS[s.folding.value.at]
  }

  /** Since the snapshot some machine the token has not revisited has sent a call, or nothing at all has
      moved, nothing is in flight and the revisited machines are idle. */
  ghost predicate Settling(c: Conf)
    requires Shaped(c.s) && Sized(c.s, c.h) && c.h.pos < Procs(c.s)
  {
    Sum(c.h.snapS) == Sum(c.h.snapR) ==>
      || (exists u :: 0 <= u < Procs(c.s) && !Locked(c.s, u) && !Visited(c, u) && Moved(c.s, c.h, u))
      || WillChange(c.s, c.h)
      || (NothingInFlight(c.s) && c.s.sent == c.h.snapS && c.s.received == c.h.snapR &&
          forall v :: 0 <= v < Procs(c.s) && (Locked(c.s, v) || Visited(c, v)) ==> Idle(c.s, v))
  }

  ghost predicate MovedFromBase(s: Sys, h: Hist, u: nat)
    requires u < |s.sent| && u < |h.baseS|
  {
    s.sent[u] != h.baseS[u]
  }

  /** The same statement about a pass in progress and the counters at its first read. */
  ghost predicate FoldSettling(c: Conf)
    requires Shaped(c.s) && Sized(c.s, c.h) && c.s.folding.Some?
  {
    Sum(c.h.baseS) == Sum(c.h.baseR) ==>
      || (exists u :: 0 <= u < Procs(c.s) && u != c.s.folding.value.at && MovedFromBase(c.s, c.h, u))
      || (NothingInFlight(c.s) && c.s.sent == c.h.baseS && c.s.received == c.h.baseR)
  }

  ghost predicate FoldHist(c: Conf)
    requires Shaped(c.s) && Sized(c.s, c.h)
  {
    c.s.folding.Some? && c.s.folding.value.at < Procs(c.s) ==>
      var f := c.s.folding.value;
      && Below(c.h.baseS, c.s.sent) && Below(c.h.baseR, c.s.received)
      && Below(LastS(c.s), c.h.baseS) && Below(LastR(c.s), c.h.baseR)
      && Sum(c.h.baseR) <= Sum(c.h.baseS)
      && c.h.baseR[f.at] == f.received && c.h.snapR[f.at] <= f.received
      && FoldSettling(c)
  }

  ghost predicate SnapOk(c: Conf)
    requires Shaped(c.s) && Sized(c.s, c.h) && c.h.pos < Procs(c.s)
  {
    && Below(LastS(c.s), c.h.snapS) && Below(LastR(c.s), c.h.snapR)
    && Below(c.h.snapS, c.s.sent) && Below(c.h.snapR, c.s.received)
    && (forall i :: 0 <= i < Procs(c.s) && Visited(c, i) ==>
          c.s.ms[i].lastSent == c.h.snapS[i] && c.s.ms[i].lastReceived == c.h.snapR[i])
    && (!c.h.changed ==>
          && AllZero(c.h.snapS) && AllZero(c.h.snapR)
          && CurToken(c.s, c.h.pos).lastChange == Procs(c.s) - 1)
  }

  /** No machine has been told to finish, and no fiber has left. */
  ghost predicate NotForced(s: Sys) {
    && s.forced == {} && s.waking == {}
    && (forall i :: 0 <= i < Procs(s) ==> !s.ms[i].done)
    && (forall i, k :: 0 <= i < |s.pcs| && 0 <= k < |s.pcs[i]| ==> !s.pcs[i][k].Exited?)
  }

  ghost predicate PassedOk(c: Conf) {
    && (!c.h.changed ==> forall i :: i in c.h.passed <==> 0 <= i < c.h.pos)
    && (c.h.changed && !c.h.completed && c.h.pos < Procs(c.s) ==> CurToken(c.s, c.h.pos).lastChange in c.h.passed)
  }

  ghost predicate Inv(c: Conf) {
    && Basic(c.s, c.h.pos)
    && Sized(c.s, c.h)
    && PassedOk(c)
    && (!c.h.completed ==> NotForced(c.s) && SnapOk(c) && FoldHist(c) && Settling(c))
    && (c.h.completed ==> c.s.folding.None? && c.s.token.None? && c.s.ms[c.h.pos].done)
  }

  // ---- Basic is kept by every step ----

  ghost predicate SameCounters(s: Sys, t: Sys) {
    t.sent == s.sent && t.received == s.received && t.wire == s.wire && t.arrived == s.arrived && t.ran == s.ran
  }

  lemma EndDoneCounters(s: Sys, a: Action)
    requires Shaped(s) && Enabled(s, a) && a.EndDone?
    ensures SameCounters(s, Step(s, a))
  {
  }

  lemma SendConserved(s: Sys, i: nat, j: nat)
    requires Shaped(s) && Enabled(s, Send(i, j)) && Conserved(s)
    ensures Conserved(Step(s, Send(i, j)))
  {
    SumUpdate(s.sent, i, s.sent[i] + 1);
    SumUpdate(s.wire, j, s.wire[j] + 1);
  }

  lemma DeliverConserved(s: Sys, j: nat)
    requires Shaped(s) && Enabled(s, Deliver(j)) && Conserved(s)
    ensures Conserved(Step(s, Deliver(j)))
  {
    SumUpdate(s.wire, j, s.wire[j] - 1);
    SumUpdate(s.arrived, j, s.arrived[j] + 1);
  }

  lemma RunHandlerConserved(s: Sys, j: nat, w: Wake)
    requires Shaped(s) && Enabled(s, RunHandler(j, w)) && Conserved(s)
    ensures Conserved(Step(s, RunHandler(j, w)))
  {
    SumUpdate(s.arrived, j, s.arrived[j] - 1);
    SumUpdate(s.ran, j, s.ran[j] + 1);
  }

  lemma CountCallConserved(s: Sys, j: nat)
    requires Shaped(s) && Enabled(s, CountCall(j)) && Conserved(s)
    ensures Conserved(Step(s, CountCall(j)))
  {
    SumUpdate(s.ran, j, s.ran[j] - 1);
    SumUpdate(s.received, j, s.received[j] + 1);
  }

  lemma WokenFacts(l: Local, w: Wake)
    requires WakeFits(l, w) && Accounted(l)
    ensures Accounted(Woken(l, w)) && Woken(l, w).numactive >= l.numactive
    ensures forall c :: 0 <= c < |l.sleeping| && !l.sleeping[c] ==> !Woken(l, w).sleeping[c]
  {
    match w
    case NoWake =>
    case WakeEveryone => WakeAllAccounted(l);
    case WakeFiber(c) => WakeOneAccounted(l, c);
  }

  /** A machine whose fibers are all counted out has none working. */
  lemma WorkerCounts(s: Sys, i: nat, c: nat)
    requires Shaped(s) && FibersAwake(s) && i < Procs(s) && c < |s.pcs[i]|
    requires s.pcs[i][c].Working? && Tallied(s, i)
    requires !Locked(s, i)
    ensures s.ms[i].numactive > 0 && !s.ms[i].sleeping[c]
  {
    CountBounds(s.ms[i].sleeping);
  }

  /** Basic looks at counters only through conservation and growth. */
  lemma CountersBasic(s: Sys, t: Sys, pos: nat)
    requires Basic(s, pos) && t.ms == s.ms && t.pcs == s.pcs && t.token == s.token && t.folding == s.folding
    requires Shaped(t) && Conserved(t) && Below(s.sent, t.sent) && Below(s.received, t.received)
    requires forall i :: i in t.waking && i < Procs(t) ==> t.ms[i].done
    ensures Basic(t, pos)
  {
    assert LastS(t) == LastS(s) && LastR(t) == LastR(s);
    forall k | 0 <= k < Procs(s) ensures Tallied(t, k) { assert Tallied(s, k); }
  }

  lemma CallsBasic(s: Sys, a: Action, pos: nat)
    requires Basic(s, pos) && Enabled(s, a) && (a.Send? || a.Deliver? || a.CountCall?)
    ensures Basic(Step(s, a), pos)
  {
    match a {
      case Send(i, j) => SendConserved(s, i, j);
      case Deliver(j) => DeliverConserved(s, j);
      case CountCall(j) => CountCallConserved(s, j);
    }
    CountersBasic(s, Step(s, a), pos);
  }

  /** Replacing one machine's flags and active count: what a locked section that only wakes or finishes does. */
  ghost predicate OnlyWakes(l: Local, l': Local) {
    && l' == l.(numactive := l'.numactive, sleeping := l'.sleeping, done := l'.done)
    && |l'.sleeping| == |l.sleeping| && Accounted(l') && l'.numactive >= l.numactive
    && (l.done ==> l'.done)
    && forall c :: 0 <= c < |l.sleeping| && !l.sleeping[c] ==> !l'.sleeping[c]
  }

  lemma WakeBasic(s: Sys, i: nat, l: Local, pos: nat)
    requires Basic(s, pos) && i < Procs(s) && !Locked(s, i) && OnlyWakes(s.ms[i], l)
    ensures Basic(s.(ms := s.ms[i := l]), pos)
  {
    var t := s.(ms := s.ms[i := l]);
    assert LastS(t) == LastS(s) && LastR(t) == LastR(s);
    forall k | 0 <= k < Procs(s) ensures Tallied(t, k) { assert Tallied(s, k); }
  }

  lemma RunHandlerBasic(s: Sys, j: nat, w: Wake, pos: nat)
    requires Basic(s, pos) && Enabled(s, RunHandler(j, w))
    ensures Basic(Step(s, RunHandler(j, w)), pos)
  {
    RunHandlerConserved(s, j, w);
    var u := s.(ms := s.ms[j := Woken(s.ms[j], w)]);
    if w.NoWake? {
      assert u == s;
    } else {
      assert Tallied(s, j);
      WokenFacts(s.ms[j], w);
      WakeBasic(s, j, Woken(s.ms[j], w), pos);
    }
    CountersBasic(u, Step(s, RunHandler(j, w)), pos);
  }

  lemma LocalWakeBasic(s: Sys, a: Action, pos: nat)
    requires Basic(s, pos) && Enabled(s, a) && a.LocalWake?
    ensures Basic(Step(s, a), pos)
  {
    assert Tallied(s, a.at);
    WokenFacts(s.ms[a.at], a.wake);
    WakeBasic(s, a.at, Woken(s.ms[a.at], a.wake), pos);
  }

  lemma ForceDoneBasic(s: Sys, i: nat, pos: nat)
    requires Basic(s, pos) && Enabled(s, ForceDone(i))
    ensures Basic(Step(s, ForceDone(i)), pos)
  {
    assert Tallied(s, i);
    var l := s.ms[i].(done := true);
    WakeBasic(s, i, l, pos);
    CountersBasic(s.(ms := s.ms[i := l]), Step(s, ForceDone(i)), pos);
  }

  lemma ForceCancelBasic(s: Sys, i: nat, pos: nat)
    requires Basic(s, pos) && Enabled(s, ForceCancel(i))
    ensures Basic(Step(s, ForceCancel(i)), pos)
  {
    assert Tallied(s, i);
    WakeAllAccounted(s.ms[i]);
    WakeBasic(s, i, WakeAll(s.ms[i]), pos);
    CountersBasic(s.(ms := s.ms[i := WakeAll(s.ms[i])]), Step(s, ForceCancel(i)), pos);
  }

  lemma ResumeBasic(s: Sys, i: nat, c: nat, pos: nat)
    requires Basic(s, pos) && Enabled(s, Resume(i, c))
    ensures Basic(Step(s, Resume(i, c)), pos)
  {
    var t := Step(s, Resume(i, c));
    assert LastS(t) == LastS(s) && LastR(t) == LastR(s);
    forall k | 0 <= k < Procs(s) ensures Tallied(t, k) { assert Tallied(s, k); }
  }

  // ---- A fiber falls asleep: four shapes of EndDone ----

  predicate LastOut(s: Sys, i: nat)
    requires i < Procs(s)
  {
    s.ms[i].numactive <= 1 && s.ms[i].hastoken
  }

  function Slept(l: Local, c: nat): Local
    requires c < |l.sleeping|
  {
    l.(numactive := if l.numactive > 0 then l.numactive - 1 else 0, sleeping := l.sleeping[c := true])
  }

  /** The local state left by a completion inside end_done_critical_section. */
  function SleptDone(l: Local, c: nat): Local
    requires c < |l.sleeping|
  {
    var d := Completed(l.(numactive := 0));
    d.(sleeping := d.sleeping[c := true])
  }

  lemma EndDoneShapes(s: Sys, i: nat, c: nat)
    requires Shaped(s) && Enabled(s, EndDone(i, c)) && !s.ms[i].done
    ensures var t := Step(s, EndDone(i, c)); var l := s.ms[i]; var pcs := SetPc(s, i, c, Waiting);
      if !LastOut(s, i) then t == s.(ms := s.ms[i := Slept(l, c)], pcs := pcs)
      else if CompletesAt(s, i) then
        s.folding.None? ==>
          t == s.(ms := s.ms[i := SleptDone(l, c)], pcs := SetPc(s, i, c, Exited),
            forced := s.forced + (set j | j in Others(Procs(s), i)))
      else t == s.(ms := s.ms[i := l.(numactive := 0)], pcs := pcs, folding := Some(Folding(i, s.received[i], Some(c))))
  {
    var l := s.ms[i];
    var s1 := s.(ms := s.ms[i := l.(numactive := if l.numactive > 0 then l.numactive - 1 else 0)],
      pcs := SetPc(s, i, c, Waiting));
    if !LastOut(s, i) {
      assert s1.ms[i := Slept(l, c)] == s.ms[i := Slept(l, c)];
    } else if CompletesAt(s, i) {
      assert s1.ms[i := Completed(s1.ms[i])][i := SleptDone(l, c)] == s.ms[i := SleptDone(l, c)];
    }
  }

  lemma SleptAccounted(l: Local, c: nat)
    requires Accounted(l) && c < |l.sleeping| && !l.sleeping[c]
    ensures l.numactive > 0 && Accounted(Slept(l, c))
    ensures l.numactive == 1 ==> Accounted(SleptDone(l, c)) && CountTrue(l.sleeping) + 1 == |l.sleeping|
  {
    CountBounds(l.sleeping);
    CountUpdate(l.sleeping, c, true);
    CountBounds(NoneAsleep(|l.sleeping|));
    CountUpdate(NoneAsleep(|l.sleeping|), c, true);
  }

  lemma EndDoneBasic(s: Sys, i: nat, c: nat, pos: nat)
    requires Basic(s, pos) && Enabled(s, EndDone(i, c))
    ensures Basic(Step(s, EndDone(i, c)), pos)
  {
    if s.ms[i].done {
      ExitBasic(s, i, c, pos);
    } else {
      EndDoneShapes(s, i, c);
      assert Tallied(s, i);
      SleptAccounted(s.ms[i], c);
      if !LastOut(s, i) {
        SleptBasic(s, i, c, Slept(s.ms[i], c), Waiting, pos);
      } else {
        if CompletesAt(s, i) { CompletingBasic(s, i, c, pos); } else { FoldingBasic(s, i, c, pos); }
      }
    }
  }

  lemma CompletingBasic(s: Sys, i: nat, c: nat, pos: nat)
    requires Basic(s, pos) && Enabled(s, EndDone(i, c)) && !s.ms[i].done && s.ms[i].numactive == 1
    requires LastOut(s, i) && CompletesAt(s, i) && Accounted(SleptDone(s.ms[i], c)) && s.folding.None?
    ensures Basic(Step(s, EndDone(i, c)), pos)
  {
    EndDoneShapes(s, i, c);
    SleptBasic(s, i, c, SleptDone(s.ms[i], c), Exited, pos);
    CountersBasic(s.(ms := s.ms[i := SleptDone(s.ms[i], c)], pcs := SetPc(s, i, c, Exited)),
      Step(s, EndDone(i, c)), pos);
  }

  lemma ExitBasic(s: Sys, i: nat, c: nat, pos: nat)
    requires Basic(s, pos) && Enabled(s, EndDone(i, c)) && s.ms[i].done
    ensures Basic(Step(s, EndDone(i, c)), pos)
  {
    var t := Step(s, EndDone(i, c));
    assert LastS(t) == LastS(s) && LastR(t) == LastR(s);
    forall k | 0 <= k < Procs(s) ensures Tallied(t, k) { assert Tallied(s, k); }
  }

  lemma SleptBasic(s: Sys, i: nat, c: nat, l: Local, pc: Pc, pos: nat)
    requires Basic(s, pos) && !pc.Working? && Enabled(s, EndDone(i, c)) && !s.ms[i].done && s.ms[i].numactive > 0
    requires Accounted(l) && |l.sleeping| == |s.ms[i].sleeping|
    requires l == s.ms[i].(numactive := l.numactive, sleeping := l.sleeping, done := l.done)
    requires forall k :: 0 <= k < |l.sleeping| && k != c && !s.ms[i].sleeping[k] ==> !l.sleeping[k]
    requires l.numactive > 0 || !l.hastoken || l.done
    ensures Basic(s.(ms := s.ms[i := l], pcs := SetPc(s, i, c, pc)), pos)
  {
    var t := s.(ms := s.ms[i := l], pcs := SetPc(s, i, c, pc));
    assert LastS(t) == LastS(s) && LastR(t) == LastR(s);
    forall k | 0 <= k < Procs(s) ensures Tallied(t, k) { assert Tallied(s, k); }
  }

  lemma FoldingBasic(s: Sys, i: nat, c: nat, pos: nat)
    requires Basic(s, pos) && Enabled(s, EndDone(i, c)) && !s.ms[i].done && s.ms[i].numactive == 1
    requires LastOut(s, i) && !CompletesAt(s, i)
    requires CountTrue(s.ms[i].sleeping) + 1 == |s.ms[i].sleeping|
    ensures Basic(Step(s, EndDone(i, c)), pos)
  {
    EndDoneShapes(s, i, c);
    var t := Step(s, EndDone(i, c));
    assert LastS(t) == LastS(s) && LastR(t) == LastR(s);
    forall k | 0 <= k < Procs(s) ensures Tallied(t, k) { assert Tallied(s, k); }
  }

  // ---- The token is passed on ----

  lemma NextIs(p: nat, n: nat)
    requires p < n
    ensures Next(p, n) == if p + 1 == n then 0 else p + 1
  {
    if p + 1 < n { assert (p + 1) % n == p + 1; }
  }

  function Sleeper(l: Local, c: Option<nat>): Local
    requires c.Some? ==> c.value < |l.sleeping|
  {
    if c.Some? then l.(sleeping := l.sleeping[c.value := true]) else l
  }

  /** The totals stay the sums of what each machine last folded in. */
  lemma FoldTotals(s: Sys, pos: nat)
    requires Basic(s, pos) && s.folding.Some?
    ensures Shaped(s) && pos < Procs(s) && s.folding.value.at == pos && CurToken(s, pos).lastChange < Procs(s)
      && s.token.None?
    ensures var f := s.folding.value;
      var t := Folded(s.ms[pos], pos, f.received, s.sent[pos]);
      && t.totalCallsSent == Sum(LastS(s)[pos := s.sent[pos]])
      && t.totalCallsReceived == Sum(LastR(s)[pos := f.received])
  {
    var f := s.folding.value;
    SumUpdate(LastS(s), pos, s.sent[pos]);
    SumUpdate(LastR(s), pos, f.received);
  }

  lemma FinishTallied(s: Sys, pos: nat)
    requires Basic(s, pos) && s.folding.Some?
    ensures var f := s.folding.value; f.at == pos && (f.sleeper.Some? ==> f.sleeper.value < |s.ms[pos].sleeping|)
    ensures var f := s.folding.value; Accounted(Sleeper(s.ms[pos], f.sleeper))
    ensures forall c :: 0 <= c < |s.pcs[pos]| ==> !s.pcs[pos][c].Working?
  {
    var f := s.folding.value;
    assert Tallied(s, pos);
    if f.sleeper.Some? { CountUpdate(s.ms[pos].sleeping, f.sleeper.value, true); }
    CountBounds(Sleeper(s.ms[pos], f.sleeper).sleeping);
    forall c | 0 <= c < |s.pcs[pos]| ensures !s.pcs[pos][c].Working? {
      assert Sleeper(s.ms[pos], f.sleeper).sleeping[c];
    }
  }

  lemma ForwardedBasic(s: Sys, pos: nat, next: nat, l: Local, tok: Token)
    requires Basic(s, pos) && s.folding.Some? && next < Procs(s) && tok.lastChange < Procs(s)
    requires |l.sleeping| == |s.ms[pos].sleeping| && Accounted(l) && !l.hastoken
    requires l.done == s.ms[pos].done && l.lastSent == s.sent[pos] && l.lastReceived == s.folding.value.received
    requires tok.totalCallsSent == Sum(LastS(s)[pos := s.sent[pos]])
    requires tok.totalCallsReceived == Sum(LastR(s)[pos := s.folding.value.received])
    requires forall c :: 0 <= c < |s.pcs[pos]| ==> !s.pcs[pos][c].Working?
    ensures Basic(s.(folding := None, ms := s.ms[pos := l], token := Some(InFlight(next, tok))), next)
  {
    var t := s.(folding := None, ms := s.ms[pos := l], token := Some(InFlight(next, tok)));
    assert LastS(t) == LastS(s)[pos := s.sent[pos]] && LastR(t) == LastR(s)[pos := s.folding.value.received];
    forall k | 0 <= k < Procs(s) ensures Tallied(t, k) { assert Tallied(s, k); }
  }

  lemma FinishBasic(s: Sys, pos: nat)
    requires Basic(s, pos) && Enabled(s, FinishFold)
    ensures Basic(Step(s, FinishFold), Next(pos, Procs(s)))
  {
    hide Basic, Sum, CountTrue, LastS, LastR;
    var f := s.folding.value;
    FoldTotals(s, pos);
    FinishTallied(s, pos);
    ForwardedBasic(s, pos, Next(pos, Procs(s)), Sleeper(Passed(s.ms[pos], pos, f.received, s.sent[pos]), f.sleeper),
                   Folded(s.ms[pos], pos, f.received, s.sent[pos]));
  }

  // ---- The token arrives ----

  function Holding(s: Sys): Local
    requires s.token.Some? && s.token.value.to < Procs(s)
  {
    s.ms[s.token.value.to].(hastoken := true, token := s.token.value.token)
  }

  lemma TakeTokenShapes(s: Sys)
    requires Shaped(s) && Enabled(s, TakeToken) && s.folding.None?
    ensures var t := Step(s, TakeToken); var i := s.token.value.to; var l := Holding(s);
      if l.numactive > 0 then t == s.(token := None, ms := s.ms[i := l])
      else if Completes(l, i) then
        t == s.(token := None, ms := s.ms[i := Completed(l)], forced := s.forced + (set j | j in Others(Procs(s), i)))
      else t == s.(token := None, ms := s.ms[i := l], folding := Some(Folding(i, s.received[i], None)))
  {
    var i, l := s.token.value.to, Holding(s);
    assert s.ms[i := l][i := Completed(l)] == s.ms[i := Completed(l)];
  }

  lemma TakenBasic(s: Sys, l: Local, pos: nat)
    requires Basic(s, pos) && s.token.Some? && s.folding.None? && Accounted(l)
    requires l == Holding(s).(numactive := l.numactive, sleeping := l.sleeping, done := l.done)
    requires |l.sleeping| == |s.ms[pos].sleeping|
    requires s.ms[pos].done ==> l.done
    requires forall k :: 0 <= k < |l.sleeping| && !s.ms[pos].sleeping[k] ==> !l.sleeping[k]
    requires l.numactive > 0 || l.done
    ensures Basic(s.(token := None, ms := s.ms[pos := l]), pos)
  {
    var t := s.(token := None, ms := s.ms[pos := l]);
    assert LastS(t) == LastS(s) && LastR(t) == LastR(s);
    forall k | 0 <= k < Procs(s) ensures Tallied(t, k) { assert Tallied(s, k); }
  }

  lemma TakenFoldingBasic(s: Sys, pos: nat)
    requires Basic(s, pos) && Enabled(s, TakeToken) && s.folding.None? && !s.ms[pos].done
    requires Holding(s).numactive == 0 && !Completes(Holding(s), pos)
    ensures Basic(Step(s, TakeToken), pos)
  {
    TakeTokenShapes(s);
    var t := Step(s, TakeToken);
    assert LastS(t) == LastS(s) && LastR(t) == LastR(s);
    forall k | 0 <= k < Procs(s) ensures Tallied(t, k) { assert Tallied(s, k); }
  }

  lemma TakeTokenBasic(s: Sys, pos: nat)
    requires Basic(s, pos) && Enabled(s, TakeToken) && !s.ms[pos].done
    ensures Basic(Step(s, TakeToken), pos)
  {
    assert Tallied(s, pos);
    TakeTokenShapes(s);
    var l := Holding(s);
    if l.numactive > 0 {
      TakenBasic(s, l, pos);
    } else if Completes(l, pos) {
      WakeAllAccounted(l.(done := true));
      TakenBasic(s, Completed(l), pos);
      CountersBasic(s.(token := None, ms := s.ms[pos := Completed(l)]), Step(s, TakeToken), pos);
    } else {
      TakenFoldingBasic(s, pos);
    }
  }

  // ---- The history invariant is kept while the token stands still ----

  ghost predicate SameToken(c: Conf, t: Sys)
    requires c.h.pos < Procs(c.s)
  {
    && Shaped(t) && Procs(t) == Procs(c.s)
    && LastS(t) == LastS(c.s) && LastR(t) == LastR(c.s)
    && CurToken(t, c.h.pos) == CurToken(c.s, c.h.pos)
    && t.folding == c.s.folding
    && Below(c.s.sent, t.sent) && Below(c.s.received, t.received)
  }

  /** Everything said about snapshots survives counters growing. */
  lemma SnapFrame(c: Conf, t: Sys)
    requires Inv(c) && !c.h.completed && SameToken(c, t)
    ensures SnapOk(Conf(t, c.h))
    ensures FoldHist(c) && (c.s.folding.Some? ==> FoldSettling(Conf(t, c.h))) ==> FoldHist(Conf(t, c.h))
  {
    forall i | 0 <= i < Procs(t) && Visited(Conf(t, c.h), i)
      ensures t.ms[i].lastSent == c.h.snapS[i] && t.ms[i].lastReceived == c.h.snapR[i]
    {
      assert LastS(t)[i] == LastS(c.s)[i] && LastR(t)[i] == LastR(c.s)[i];
      assert Visited(c, i);
    }
  }

  /** A fiber can only be working on a machine that is neither idle nor locked. */
  lemma WorkerPlace(s: Sys, pos: nat, i: nat)
    requires Basic(s, pos) && i < Procs(s) && HasWorker(s.pcs[i])
    ensures !Idle(s, i) && !Locked(s, i)
  {
    var c :| 0 <= c < |s.pcs[i]| && s.pcs[i][c].Working?;
    if Locked(s, i) {
      FinishTallied(s, pos);
    } else {
      assert Tallied(s, i);
      WorkerCounts(s, i, c);
    }
  }

  lemma MovedStays(s: Sys, t: Sys, h: Hist, u: nat)
    requires Sized(s, h) && Shaped(s) && Shaped(t) && Procs(s) == Procs(t) && u < Procs(s)
    requires Below(s.sent, t.sent) && Below(s.received, t.received)
    ensures Below(h.snapS, s.sent) && Below(h.snapR, s.received) && Moved(s, h, u) ==> Moved(t, h, u)
    ensures Below(h.baseS, s.sent) && Below(h.baseR, s.received) && MovedFromBase(s, h, u) ==> MovedFromBase(t, h, u)
  {
  }

  /** If nothing was still, the movers are still movers. */
  lemma SettlingMoves(c: Conf, t: Sys)
    requires Inv(c) && !c.h.completed && SameToken(c, t)
    requires Sum(c.h.snapS) == Sum(c.h.snapR)
    requires !(NothingInFlight(c.s) && c.s.sent == c.h.snapS && c.s.received == c.h.snapR)
    ensures Settling(Conf(t, c.h))
  {
    if WillChange(c.s, c.h) {
      assert WillChange(t, c.h);
    } else {
      var u :| 0 <= u < Procs(c.s) && !Locked(c.s, u) && !Visited(c, u) && Moved(c.s, c.h, u);
      MovedStays(c.s, t, c.h, u);
      assert !Locked(t, u) && !Visited(Conf(t, c.h), u) && Moved(t, c.h, u);
    }
  }

  lemma FoldMoves(c: Conf, t: Sys)
    requires Inv(c) && !c.h.completed && SameToken(c, t) && c.s.folding.Some?
    requires Sum(c.h.baseS) == Sum(c.h.baseR)
    requires !(NothingInFlight(c.s) && c.s.sent == c.h.baseS && c.s.received == c.h.baseR)
    ensures FoldSettling(Conf(t, c.h))
  {
    var u :| 0 <= u < Procs(c.s) && u != c.s.folding.value.at && MovedFromBase(c.s, c.h, u);
    MovedStays(c.s, t, c.h, u);
    assert MovedFromBase(t, c.h, u);
  }

  lemma CallsSameToken(c: Conf, a: Action)
    requires Inv(c) && Enabled(c.s, a) && (a.Send? || a.Deliver? || a.CountCall?)
    ensures SameToken(c, Step(c.s, a)) && ConfStep(c, a) == Conf(Step(c.s, a), c.h)
  {
    var t := Step(c.s, a);
    assert LastS(t) == LastS(c.s) && LastR(t) == LastR(c.s);
  }

  /** When all is still, only a working fiber can send, so the sender is a mover the token has yet to visit. */
  lemma CallsSettle(c: Conf, a: Action)
    requires Inv(c) && !c.h.completed && Enabled(c.s, a) && (a.Send? || a.Deliver? || a.CountCall?)
    requires SameToken(c, Step(c.s, a))
    ensures Settling(Conf(Step(c.s, a), c.h))
  {
    var t := Step(c.s, a);
    if Sum(c.h.snapS) == Sum(c.h.snapR) {
      if NothingInFlight(c.s) && c.s.sent == c.h.snapS && c.s.received == c.h.snapR {
        assert a.Send? && c.s.arrived[a.from] == 0 && c.s.ran[a.from] == 0;
        WorkerPlace(c.s, c.h.pos, a.from);
        assert !Locked(t, a.from) && !Visited(Conf(t, c.h), a.from) && Moved(t, c.h, a.from);
      } else {
        SettlingMoves(c, t);
      }
    }
  }

  lemma CallsFoldSettle(c: Conf, a: Action)
    requires Inv(c) && !c.h.completed && Enabled(c.s, a) && (a.Send? || a.Deliver? || a.CountCall?)
    requires SameToken(c, Step(c.s, a)) && c.s.folding.Some?
    ensures FoldSettling(Conf(Step(c.s, a), c.h))
  {
    var t := Step(c.s, a);
    if Sum(c.h.baseS) == Sum(c.h.baseR) {
      if NothingInFlight(c.s) && c.s.sent == c.h.baseS && c.s.received == c.h.baseR {
        assert a.Send? && c.s.arrived[a.from] == 0 && c.s.ran[a.from] == 0;
        WorkerPlace(c.s, c.h.pos, a.from);
        assert a.from != c.s.folding.value.at && MovedFromBase(t, c.h, a.from);
      } else {
        FoldMoves(c, t);
      }
    }
  }

  lemma CallsHist(c: Conf, a: Action)
    requires Inv(c) && !c.h.completed && Enabled(c.s, a) && (a.Send? || a.Deliver? || a.CountCall?)
    ensures Inv(ConfStep(c, a))
  {
    CallsBasic(c.s, a, c.h.pos);
    CallsSameToken(c, a);
    CallsSettle(c, a);
    if c.s.folding.Some? { CallsFoldSettle(c, a); }
    SnapFrame(c, Step(c.s, a));
  }

  // ---- Steps that leave the counters alone ----

  /** A step that moves no counter and, when nothing is in flight, activates no idle machine. */
  lemma QuietHist(c: Conf, t: Sys)
    requires Inv(c) && !c.h.completed && SameToken(c, t)
    requires t.sent == c.s.sent && t.received == c.s.received
    requires NothingInFlight(c.s) ==> NothingInFlight(t) && forall v :: 0 <= v < Procs(t) && Idle(c.s, v) ==> Idle(t, v)
    requires Basic(t, c.h.pos) && NotForced(t)
    ensures Inv(Conf(t, c.h))
  {
    var d := Conf(t, c.h);
    if Sum(c.h.snapS) == Sum(c.h.snapR) {
      if NothingInFlight(c.s) && c.s.sent == c.h.snapS && c.s.received == c.h.snapR {
        assert !WillChange(c.s, c.h);
        forall v | 0 <= v < Procs(t) && (Locked(t, v) || Visited(d, v)) ensures Idle(t, v) {
          assert Locked(c.s, v) || Visited(c, v);
        }
      } else {
        SettlingMoves(c, t);
      }
    }
    if c.s.folding.Some? && Sum(c.h.baseS) == Sum(c.h.baseR) {
      if NothingInFlight(c.s) && c.s.sent == c.h.baseS && c.s.received == c.h.baseR {
      } else {
        FoldMoves(c, t);
      }
    }
    SnapFrame(c, t);
  }

  lemma WokenKeeps(s: Sys, t: Sys, i: nat, w: Wake)
    requires Shaped(s) && Shaped(t) && i < Procs(s) && WakeFits(s.ms[i], w)
    requires t.ms == s.ms[i := Woken(s.ms[i], w)]
    ensures LastS(t) == LastS(s) && LastR(t) == LastR(s)
    ensures forall p :: 0 <= p < Procs(s) && t.token == s.token ==> CurToken(t, p) == CurToken(s, p)
    ensures t.forced == s.forced && t.waking == s.waking && t.pcs == s.pcs && NotForced(s) ==> NotForced(t)
  {
  }

  lemma HandlerHist(c: Conf, j: nat, w: Wake)
    requires Inv(c) && !c.h.completed && Enabled(c.s, RunHandler(j, w))
    ensures Inv(ConfStep(c, RunHandler(j, w)))
  {
    RunHandlerBasic(c.s, j, w, c.h.pos);
    var t := Step(c.s, RunHandler(j, w));
    WokenKeeps(c.s, t, j, w);
    assert !NothingInFlight(c.s);
    QuietHist(c, t);
  }

  lemma LocalWakeHist(c: Conf, a: Action)
    requires Inv(c) && !c.h.completed && Enabled(c.s, a) && a.LocalWake?
    ensures Inv(ConfStep(c, a))
  {
    LocalWakeBasic(c.s, a, c.h.pos);
    var t := Step(c.s, a);
    WokenKeeps(c.s, t, a.at, a.wake);
    assert HasWorker(c.s.pcs[a.at]);
    WorkerPlace(c.s, c.h.pos, a.at);
    forall v | 0 <= v < Procs(t) && Idle(c.s, v) ensures Idle(t, v) { assert v != a.at; }
    QuietHist(c, t);
  }

  lemma ResumeHist(c: Conf, i: nat, k: nat)
    requires Inv(c) && !c.h.completed && Enabled(c.s, Resume(i, k))
    ensures Inv(ConfStep(c, Resume(i, k)))
  {
    ResumeBasic(c.s, i, k, c.h.pos);
    var t := Step(c.s, Resume(i, k));
    assert LastS(t) == LastS(c.s) && LastR(t) == LastR(c.s);
    QuietHist(c, t);
  }

  lemma SleepHist(c: Conf, i: nat, k: nat)
    requires Inv(c) && !c.h.completed && Enabled(c.s, EndDone(i, k)) && !LastOut(c.s, i)
    ensures Inv(ConfStep(c, EndDone(i, k)))
  {
    hide Sum, CountTrue;
    EndDoneBasic(c.s, i, k, c.h.pos);
    EndDoneShapes(c.s, i, k);
    var t := Step(c.s, EndDone(i, k));
    assert LastS(t) == LastS(c.s) && LastR(t) == LastR(c.s);
    QuietHist(c, t);
  }

  lemma HoldHist(c: Conf)
    requires Inv(c) && !c.h.completed && Enabled(c.s, TakeToken) && Holding(c.s).numactive > 0
    ensures Inv(ConfStep(c, TakeToken))
  {
    hide Sum, CountTrue;
    TakeTokenBasic(c.s, c.h.pos);
    TakeTokenShapes(c.s);
    var t := Step(c.s, TakeToken);
    assert LastS(t) == LastS(c.s) && LastR(t) == LastR(c.s);
    QuietHist(c, t);
  }

  // ---- A pass begins ----

  /** The counters read for the pass, and the state in which they are read. */
  lemma BeginHist(c: Conf, t: Sys, h: Hist)
    requires Inv(c) && !c.h.completed && c.s.folding.None? && Basic(t, c.h.pos) && NotForced(t)
    requires Procs(t) == Procs(c.s) && LastS(t) == LastS(c.s) && LastR(t) == LastR(c.s)
    requires CurToken(t, c.h.pos) == CurToken(c.s, c.h.pos) && t.folding.Some?
    requires t.folding.value.received == c.s.received[c.h.pos]
    requires SameCounters(c.s, t)
    requires forall v :: 0 <= v < Procs(t) && Idle(c.s, v) ==> Idle(t, v)
    requires h == c.h.(baseS := c.s.sent, baseR := c.s.received)
    ensures Inv(Conf(t, h))
  {
    var d := Conf(t, h);
    var p := c.h.pos;
    SumZero(t.wire); SumZero(t.arrived); SumZero(t.ran);
    forall i | 0 <= i < Procs(t) && Visited(d, i)
      ensures t.ms[i].lastSent == h.snapS[i] && t.ms[i].lastReceived == h.snapR[i]
    {
      assert LastS(t)[i] == LastS(c.s)[i] && LastR(t)[i] == LastR(c.s)[i];
      assert Visited(c, i);
    }
    BeginSettles(c, t, h);
  }

  lemma BeginSettles(c: Conf, t: Sys, h: Hist)
    requires Inv(c) && !c.h.completed && c.s.folding.None? && Basic(t, c.h.pos) && NotForced(t)
    requires Procs(t) == Procs(c.s)
    requires CurToken(t, c.h.pos) == CurToken(c.s, c.h.pos) && t.folding.Some?
    requires t.folding.value.received == c.s.received[c.h.pos]
    requires SameCounters(c.s, t)
    requires forall v :: 0 <= v < Procs(t) && Idle(c.s, v) ==> Idle(t, v)
    requires h == c.h.(baseS := c.s.sent, baseR := c.s.received)
    ensures Settling(Conf(t, h))
  {
    var d := Conf(t, h);
    var p := c.h.pos;
    if Sum(h.snapS) == Sum(h.snapR) {
      if NothingInFlight(c.s) && c.s.sent == c.h.snapS && c.s.received == c.h.snapR {
        forall v | 0 <= v < Procs(t) && (Locked(t, v) || Visited(d, v)) ensures Idle(t, v) {
          if v != p { assert Visited(c, v); }
        }
      } else {
        var u :| 0 <= u < Procs(c.s) && !Locked(c.s, u) && !Visited(c, u) && Moved(c.s, c.h, u);
        if u == p {
          assert WillChange(t, h);
        } else {
          assert !Locked(t, u) && !Visited(d, u) && Moved(t, h, u);
        }
      }
    }
  }

  lemma BeginByFiber(c: Conf, i: nat, k: nat)
    requires Inv(c) && !c.h.completed && Enabled(c.s, EndDone(i, k)) && LastOut(c.s, i) && !CompletesAt(c.s, i)
    ensures Inv(ConfStep(c, EndDone(i, k)))
  {
    hide Sum, CountTrue, Step;
    EndDoneBasic(c.s, i, k, c.h.pos);
    EndDoneShapes(c.s, i, k);
    var t := Step(c.s, EndDone(i, k));
    assert LastS(t) == LastS(c.s) && LastR(t) == LastR(c.s);
    BeginHist(c, t, ConfStep(c, EndDone(i, k)).h);
  }

  lemma BeginOnArrival(c: Conf)
    requires Inv(c) && !c.h.completed && Enabled(c.s, TakeToken)
    requires Holding(c.s).numactive == 0 && !Completes(Holding(c.s), c.h.pos)
    ensures Inv(ConfStep(c, TakeToken))
  {
    TakeTokenBasic(c.s, c.h.pos);
    TakeTokenShapes(c.s);
    var t := Step(c.s, TakeToken);
    assert LastS(t) == LastS(c.s) && LastR(t) == LastR(c.s);
    BeginHist(c, t, ConfStep(c, TakeToken).h);
  }

  // ---- A pass ends ----

  lemma ArcGrows(from: nat, p: nat, n: nat)
    requires from < n && p < n
    ensures p != from ==> forall i :: 0 <= i < n ==> (InArc(from, Next(p, n), i) <==> InArc(from, p, i) || i == p)
    ensures forall i :: 0 <= i < n ==> (InArc(p, Next(p, n), i) <==> i == p)
    ensures forall i :: InArc(from, from, i)
  {
    NextIs(p, n);
  }

  /** A token that has been all round its lastChange carries the totals of the snapshot. */
  lemma FullRound(c: Conf)
    requires Inv(c) && !c.h.completed
    requires forall i :: 0 <= i < Procs(c.s) ==> Visited(c, i)
    ensures CurToken(c.s, c.h.pos).totalCallsSent == Sum(c.h.snapS)
    ensures CurToken(c.s, c.h.pos).totalCallsReceived == Sum(c.h.snapR)
  {
    forall i | 0 <= i < Procs(c.s) ensures LastS(c.s)[i] == c.h.snapS[i] && LastR(c.s)[i] == c.h.snapR[i] {
      assert Visited(c, i);
    }
    assert LastS(c.s) == c.h.snapS && LastR(c.s) == c.h.snapR;
  }

  /** Before anything has been folded in, both totals are zero. */
  lemma FirstLapTotals(c: Conf)
    requires Inv(c) && !c.h.completed && !c.h.changed
    ensures CurToken(c.s, c.h.pos).totalCallsSent == CurToken(c.s, c.h.pos).totalCallsReceived == 0
    ensures Sum(c.h.snapS) == Sum(c.h.snapR) == 0
    ensures AllZero(LastS(c.s)) && AllZero(LastR(c.s))
  {
    SumZero(c.h.snapS); SumZero(c.h.snapR);
    SumBelow(LastS(c.s), c.h.snapS); SumBelow(LastR(c.s), c.h.snapR);
    SumZero(LastS(c.s)); SumZero(LastR(c.s));
  }

  ghost predicate Forwarded(c: Conf, t: Sys, tok: Token)
    requires c.h.pos < Procs(c.s) && c.s.folding.Some? && Shaped(c.s)
  {
    && Shaped(t) && Procs(t) == Procs(c.s) && SameCounters(c.s, t)
    && t.folding.None? && t.token == Some(InFlight(Next(c.h.pos, Procs(c.s)), tok))
    && LastS(t) == LastS(c.s)[c.h.pos := c.s.sent[c.h.pos]]
    && LastR(t) == LastR(c.s)[c.h.pos := c.s.folding.value.received]
    && forall v :: 0 <= v < Procs(t) ==> t.ms[v].numactive == c.s.ms[v].numactive
  }

  /** In the first lap only machines before the last one pass the token on: the last one completes. */
  lemma FirstLapPos(c: Conf)
    requires Inv(c) && !c.h.completed && !c.h.changed && c.s.folding.Some?
    ensures c.h.pos + 1 < Procs(c.s)
  {
    FirstLapTotals(c);
  }

  lemma UnchangedVisits(c: Conf, t: Sys, d: Conf)
    requires Inv(c) && !c.h.completed && c.s.folding.Some? && !FoldChanges(c.s)
    requires Forwarded(c, t, c.s.ms[c.h.pos].token)
    requires d == Conf(t, c.h.(pos := Next(c.h.pos, Procs(t)), passed := d.h.passed))
    ensures LastS(t) == LastS(c.s) && LastR(t) == LastR(c.s)
    ensures d.h.pos < Procs(t) && CurToken(t, d.h.pos) == CurToken(c.s, c.h.pos)
    ensures !c.h.changed ==> d.h.pos == c.h.pos + 1
    ensures forall i :: 0 <= i < Procs(c.s) && Visited(d, i) ==> i == c.h.pos || Visited(c, i)
  {
    var p, n := c.h.pos, Procs(c.s);
    NextIs(p, n);
    ArcGrows(CurToken(c.s, p).lastChange, p, n);
    if !c.h.changed { FirstLapPos(c); }
    assert LastS(c.s)[p] == c.s.sent[p] && LastR(c.s)[p] == c.s.folding.value.received;
  }

  /** Nothing to add: the machine joins those visited since the snapshot. */
  lemma FinishUnchanged(c: Conf, t: Sys)
    requires Inv(c) && !c.h.completed && c.s.folding.Some? && !FoldChanges(c.s)
    requires Forwarded(c, t, c.s.ms[c.h.pos].token) && Basic(t, Next(c.h.pos, Procs(t))) && NotForced(t)
    ensures Inv(Conf(t, c.h.(pos := Next(c.h.pos, Procs(t)), passed := c.h.passed + {c.h.pos})))
  {
    hide Sum, CountTrue, Step;
    var p, n := c.h.pos, Procs(c.s);
    var d := Conf(t, c.h.(pos := Next(p, n), passed := c.h.passed + {p}));
    UnchangedVisits(c, t, d);
    assert SnapOk(d) by {
      assert LastS(t)[p] == c.s.sent[p] && LastR(t)[p] == c.s.folding.value.received;
      forall i | 0 <= i < n && Visited(d, i)
        ensures t.ms[i].lastSent == c.h.snapS[i] && t.ms[i].lastReceived == c.h.snapR[i]
      {
        assert LastS(t)[i] == LastS(c.s)[i] && LastR(t)[i] == LastR(c.s)[i];
        assert i == p || Visited(c, i);
      }
    }
    UnchangedSettles(c, t, d);
  }

  lemma UnchangedSettles(c: Conf, t: Sys, d: Conf)
    requires Inv(c) && !c.h.completed && c.s.folding.Some? && !FoldChanges(c.s)
    requires Forwarded(c, t, c.s.ms[c.h.pos].token) && Shaped(t)
    requires d == Conf(t, c.h.(pos := Next(c.h.pos, Procs(t)), passed := d.h.passed))
    requires forall i :: 0 <= i < Procs(c.s) && Visited(d, i) ==> i == c.h.pos || Visited(c, i)
    ensures Settling(d)
  {
    var p, n := c.h.pos, Procs(c.s);
    if Sum(d.h.snapS) == Sum(d.h.snapR) {
      assert LastS(c.s)[p] == c.s.sent[p] && LastR(c.s)[p] == c.s.folding.value.received;
      assert !WillChange(c.s, c.h);
      if NothingInFlight(c.s) && c.s.sent == c.h.snapS && c.s.received == c.h.snapR {
        forall v | 0 <= v < n && Visited(d, v) ensures Idle(t, v) {
          if v != p { assert Visited(c, v); }
        }
      } else {
        var u :| 0 <= u < n && !Locked(c.s, u) && !Visited(c, u) && Moved(c.s, c.h, u);
        assert !Visited(d, u) && Moved(t, d.h, u);
      }
    }
  }

  /** Something to add: the counters at the first read become the snapshot. If they balance,
      nothing was in flight then, so what was read second equals what was read first. */
  lemma FinishChanged(c: Conf, t: Sys, tok: Token)
    requires Inv(c) && !c.h.completed && c.s.folding.Some? && FoldChanges(c.s) && tok.lastChange == c.h.pos
    requires Forwarded(c, t, tok) && Basic(t, Next(c.h.pos, Procs(t))) && NotForced(t)
    ensures Inv(Conf(t, c.h.(pos := Next(c.h.pos, Procs(t)), passed := c.h.passed + {c.h.pos}, changed := true,
                             snapS := c.h.baseS[c.h.pos := c.s.sent[c.h.pos]], snapR := c.h.baseR)))
  {
    var p, n := c.h.pos, Procs(c.s);
    var snapS := c.h.baseS[p := c.s.sent[p]];
    var d := Conf(t, c.h.(pos := Next(p, n), passed := c.h.passed + {p}, changed := true, snapS := snapS,
      snapR := c.h.baseR));
    NextIs(p, n);
    ArcGrows(p, p, n);
    forall i | 0 <= i < n && Visited(d, i)
      ensures t.ms[i].lastSent == snapS[i] && t.ms[i].lastReceived == c.h.baseR[i]
    {
      assert i == p && LastS(t)[p] == c.s.sent[p] && LastR(t)[p] == c.s.folding.value.received;
    }
    ChangedSettles(c, t, d);
  }

  lemma ChangedSettles(c: Conf, t: Sys, d: Conf)
    requires Inv(c) && !c.h.completed && c.s.folding.Some? && Shaped(t) && t.folding.None?
    requires Procs(t) == Procs(c.s) && SameCounters(c.s, t) && t.ms[c.h.pos].numactive == 0
    requires d.s == t && Sized(t, d.h) && d.h.pos < Procs(t)
    requires d.h.snapS == c.h.baseS[c.h.pos := c.s.sent[c.h.pos]] && d.h.snapR == c.h.baseR
    requires forall i :: 0 <= i < Procs(c.s) ==> (Visited(d, i) <==> i == c.h.pos)
    ensures Settling(d)
  {
    var p, n := c.h.pos, Procs(c.s);
    if Sum(d.h.snapS) == Sum(d.h.snapR) {
      SumUpdate(c.h.baseS, p, c.s.sent[p]);
      assert c.h.baseS[p] == c.s.sent[p];
      assert d.h.snapS == c.h.baseS;
      if !(NothingInFlight(c.s) && c.s.sent == c.h.baseS && c.s.received == c.h.baseR) {
        var u :| 0 <= u < n && u != p && MovedFromBase(c.s, c.h, u);
        assert !Visited(d, u) && Moved(t, d.h, u);
      }
    }
  }

  lemma FinishForwards(c: Conf)
    requires Inv(c) && !c.h.completed && Enabled(c.s, FinishFold)
    ensures c.s.folding.value.at == c.h.pos
    ensures Forwarded(c, Step(c.s, FinishFold),
      Folded(c.s.ms[c.h.pos], c.h.pos, c.s.folding.value.received, c.s.sent[c.h.pos]))
    ensures NotForced(Step(c.s, FinishFold))
  {
    var p := c.h.pos;
    var t := Step(c.s, FinishFold);
    assert LastS(t) == LastS(c.s)[p := c.s.sent[p]] && LastR(t) == LastR(c.s)[p := c.s.folding.value.received];
  }

  lemma FinishHist(c: Conf)
    requires Inv(c) && !c.h.completed && Enabled(c.s, FinishFold)
    ensures Inv(ConfStep(c, FinishFold))
  {
    var p := c.h.pos;
    FinishBasic(c.s, p);
    FinishForwards(c);
    var t := Step(c.s, FinishFold);
    if FoldChanges(c.s) {
      FinishChanged(c, t, Folded(c.s.ms[p], p, c.s.folding.value.received, c.s.sent[p]));
    } else {
      FinishUnchanged(c, t);
    }
  }
}

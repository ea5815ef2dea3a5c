/** fiber_async_consensus over a whole cluster, as interleaved steps.

    A call is counted in `sent` before it is put on the wire, and in `received` only after
    its handler has run; in between it is on the wire, arrived, or run but not yet counted.
    The token's counters are read in code order, received first, with other machines
    (and call handlers on this one) running between the two reads. */
module TerminationDetection {
  import opened Options
  import opened Sums
  import opened Consensus

  datatype Pc = Working | Waiting | Exited

  datatype Wake = NoWake | WakeEveryone | WakeFiber(cpu: nat)

  /** pass_the_token between its two counter reads; `sleeper` is the fiber of
      end_done_critical_section that is passing it, if any. The mutex of `at` is held. */
  datatype Folding = Folding(at: nat, received: nat, sleeper: Option<nat>)

  datatype InFlight = InFlight(to: nat, token: Token)

  datatype Sys = Sys(
    ms: seq<Local>, pcs: seq<seq<Pc>>,
    sent: seq<nat>, received: seq<nat>,
    wire: seq<nat>, arrived: seq<nat>, ran: seq<nat>,
    token: Option<InFlight>, folding: Option<Folding>,
    forced: set<nat>, waking: set<nat>)

  datatype Action =
    | Send(from: nat, to: nat)
    | Deliver(at: nat)
    | RunHandler(at: nat, wake: Wake)
    | CountCall(at: nat)
    | LocalWake(at: nat, waker: nat, wake: Wake)
    | EndDone(at: nat, cpu: nat)
    | FinishFold
    | Resume(at: nat, cpu: nat)
    | TakeToken
    | ForceDone(at: nat)
    | ForceCancel(at: nat)

  function Procs(s: Sys): nat { |s.ms| }

  ghost predicate Shaped(s: Sys) {
    && Procs(s) > 0
    && |s.pcs| == |s.sent| == |s.received| == |s.wire| == |s.arrived| == |s.ran| == Procs(s)
    && forall i :: 0 <= i < Procs(s) ==> |s.pcs[i]| == |s.ms[i].sleeping|
  }

  predicate Locked(s: Sys, i: nat) {
    s.folding.Some? && s.folding.value.at == i
  }

  predicate HasWorker(pcs: seq<Pc>) {
    exists c :: 0 <= c < |pcs| && pcs[c].Working?
  }

  predicate WakeFits(l: Local, w: Wake) {
    w.WakeFiber? ==> w.cpu < |l.sleeping|
  }

  function Woken(l: Local, w: Wake): Local
    requires WakeFits(l, w)
  {
    match w
    case NoWake => l
    case WakeEveryone => WakeAll(l)
    case WakeFiber(c) => WakeOne(l, c)
  }

  /** The token is at machine i, with the mutex held and every fiber counted out. */
  predicate CompletesAt(s: Sys, i: nat)
    requires i < Procs(s)
  {
    Completes(s.ms[i], i)
  }

  predicate Enabled(s: Sys, a: Action)
    requires Shaped(s)
  {
    match a
    case Send(i, j) => i < Procs(s) && j < Procs(s) && (HasWorker(s.pcs[i]) || s.arrived[i] > 0 || s.ran[i] > 0)
    case Deliver(j) => j < Procs(s) && s.wire[j] > 0
    case RunHandler(j, w) => j < Procs(s) && s.arrived[j] > 0 && WakeFits(s.ms[j], w) && (w.NoWake? || !Locked(s, j))
    case CountCall(j) => j < Procs(s) && s.ran[j] > 0
    case LocalWake(i, c, w) => i < Procs(s) && c < |s.pcs[i]| && s.pcs[i][c].Working? && WakeFits(s.ms[i], w)
      && !Locked(s, i)
    case EndDone(i, c) => i < Procs(s) && c < |s.pcs[i]| && s.pcs[i][c].Working? && !Locked(s, i)
    case FinishFold => s.folding.Some? && s.folding.value.at < Procs(s) &&
      (s.folding.value.sleeper.Some? ==> s.folding.value.sleeper.value < |s.ms[s.folding.value.at].sleeping|)
    case Resume(i, c) => i < Procs(s) && c < |s.pcs[i]| && s.pcs[i][c].Waiting? && !Locked(s, i)
      && !s.ms[i].sleeping[c]
    case TakeToken => s.token.Some? && s.token.value.to < Procs(s) && !Locked(s, s.token.value.to)
    case ForceDone(i) => i < Procs(s) && i in s.forced && !Locked(s, i)
    case ForceCancel(i) => i < Procs(s) && i in s.waking && !Locked(s, i)
  }

  function SetPc(s: Sys, i: nat, c: nat, p: Pc): seq<seq<Pc>>
    requires i < |s.pcs| && c < |s.pcs[i]|
  {
    s.pcs[i := s.pcs[i][c := p]]
  }

  /** pass_the_token entered at machine i: the completion branch at once, the other up to its first read. */
  function EnterPass(s: Sys, i: nat, sleeper: Option<nat>): Sys
    requires Shaped(s) && i < Procs(s)
  {
    if CompletesAt(s, i) then
      s.(ms := s.ms[i := Completed(s.ms[i])], forced := s.forced + (set j | j in Others(Procs(s), i)))
    else
      s.(folding := Some(Folding(i, s.received[i], sleeper)))
  }

  function FallAsleepAt(s: Sys, i: nat, c: nat): Sys
    requires Shaped(s) && i < Procs(s)
    requires c < |s.ms[i].sleeping|
  {
    var l := s.ms[i];
    s.(ms := s.ms[i := l.(sleeping := l.sleeping[c := true])])
  }

  /** The last active fiber of a machine that completes finds `done` set, and does not wait at all. */
  function StartSleep(s: Sys, i: nat, c: nat): (r: Sys)
    requires Shaped(s) && i < Procs(s) && c < |s.ms[i].sleeping|
  {
    var l := s.ms[i];
    var s1 := s.(ms := s.ms[i := l.(numactive := if l.numactive > 0 then l.numactive - 1 else 0)],
                 pcs := SetPc(s, i, c, Waiting));
    if s1.ms[i].numactive == 0 && l.hastoken then
      var s2 := EnterPass(s1, i, Some(c));
      if s2.folding.Some? then s2 else FallAsleepAt(s2, i, c).(pcs := SetPc(s, i, c, Exited))
    else FallAsleepAt(s1, i, c)
  }

  function Step(s: Sys, a: Action): Sys
    requires Shaped(s) && Enabled(s, a)
  {
    match a
    case Send(i, j) => s.(sent := s.sent[i := s.sent[i] + 1], wire := s.wire[j := s.wire[j] + 1])
    case Deliver(j) => s.(wire := s.wire[j := s.wire[j] - 1], arrived := s.arrived[j := s.arrived[j] + 1])
    case RunHandler(j, w) => s.(arrived := s.arrived[j := s.arrived[j] - 1], ran := s.ran[j := s.ran[j] + 1],
                                ms := s.ms[j := Woken(s.ms[j], w)])
    case CountCall(j) => s.(ran := s.ran[j := s.ran[j] - 1], received := s.received[j := s.received[j] + 1])
    case LocalWake(i, _, w) => s.(ms := s.ms[i := Woken(s.ms[i], w)])
    case EndDone(i, c) =>
      if s.ms[i].done then s.(pcs := SetPc(s, i, c, Exited)) else StartSleep(s, i, c)
    case FinishFold =>
      var f := s.folding.value;
      var t := Folded(s.ms[f.at], f.at, f.received, s.sent[f.at]);
      var l := Passed(s.ms[f.at], f.at, f.received, s.sent[f.at]);
      s.(folding := None, token := Some(InFlight((f.at + 1) % Procs(s), t)),
         ms := s.ms[f.at := if f.sleeper.Some? then l.(sleeping := l.sleeping[f.sleeper.value := true]) else l])
    case Resume(i, c) => s.(pcs := SetPc(s, i, c, if s.ms[i].done then Exited else Working))
    case TakeToken =>
      var i := s.token.value.to;
      var s1 := s.(token := None, ms := s.ms[i := s.ms[i].(hastoken := true, token := s.token.value.token)]);
      if s1.ms[i].numactive == 0 then EnterPass(s1, i, None) else s1
    case ForceDone(i) => s.(forced := s.forced - {i}, waking := s.waking + {i}, ms := s.ms[i := s.ms[i].(done := true)])
    case ForceCancel(i) => s.(waking := s.waking - {i}, ms := s.ms[i := WakeAll(s.ms[i])])
  }

  /** Fresh objects, one machine per entry of `cpus`, every fiber working, nothing sent. */
  function Start(cpus: seq<nat>): (s: Sys)
    requires |cpus| > 0
    ensures Shaped(s)
  {
    var n := |cpus|;
    var zero := seq(n, _ => 0);
    Sys(seq(n, i requires 0 <= i < n => Fresh(i, n, cpus[i])),
        seq(n, i requires 0 <= i < n => seq(cpus[i], _ => Working)),
        zero, zero, zero, zero, zero, None, None, {}, {})
  }

  ghost predicate NothingInFlight(s: Sys) {
    AllZero(s.wire) && AllZero(s.arrived) && AllZero(s.ran)
  }

  /** Fiber c of machine i has work to do, or will look for some when it next runs. */
  predicate Lively(s: Sys, i: nat, c: nat)
    requires Shaped(s) && i < Procs(s) && c < |s.pcs[i]|
  {
    || s.pcs[i][c].Working?
    || (s.pcs[i][c].Waiting? && !s.ms[i].sleeping[c] && !s.ms[i].done && !IsSleeper(s, i, c))
  }

  predicate IsSleeper(s: Sys, i: nat, c: nat) {
    Locked(s, i) && s.folding.value.sleeper == Some(c)
  }

  /** Global termination: nothing in flight and no fiber that could produce anything. */
  ghost predicate Quiescent(s: Sys)
    requires Shaped(s)
  {
    NothingInFlight(s) && forall i, c :: 0 <= i < Procs(s) && 0 <= c < |s.pcs[i]| ==> !Lively(s, i, c)
  }

  /** The step that runs the completion branch of pass_the_token. */
  predicate Finishing(s: Sys, a: Action)
    requires Shaped(s) && Enabled(s, a)
  {
    match a
    case EndDone(i, _) => !s.ms[i].done && s.ms[i].numactive <= 1 && s.ms[i].hastoken && CompletesAt(s, i)
    case TakeToken => s.ms[s.token.value.to].numactive == 0 &&
      s.token.value.token.lastChange == s.token.value.to &&
      s.token.value.token.totalCallsReceived == s.token.value.token.totalCallsSent
    case _ => false
  }

  function Finisher(s: Sys, a: Action): nat
    requires Shaped(s) && Enabled(s, a) && Finishing(s, a)
  {
    match a
    case EndDone(i, _) => i
    case TakeToken => s.token.value.to
  }
}

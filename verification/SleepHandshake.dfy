/** begin/end_done_critical_section against cancel, cancel_one and force_done on one machine,
    one memory access at a time where the program reads without the mutex.

    `inserted` is a clock of work insertions. A fiber's look at its queues sees everything
    inserted before it, and `checked` records when that was. `settled[f]` is the latest
    insertion whose producer has come back from a cancel that covers fiber f. */
module SleepHandshake {
  import opened Sums

  datatype Pc =
    | Busy       // outside the critical section
    | Announced  // trying_to_sleep incremented
    | Flagged    // critical[cpu] set, waiting for the mutex
    | Locked     // mutex held, about to look for work once more
    | Looked     // mutex held, has looked
    | Blocked    // off the CPU, mutex released, cond[cpu] set
    | Runnable   // handed to the scheduler, mutex not yet taken again
    | Unlocked   // mutex released, critical[cpu] still set
    | Cleared    // critical[cpu] cleared, trying_to_sleep not yet decremented

  datatype Kind = All | One(hint: nat)

  datatype Stage =
    | Start             // work inserted, nothing read yet
    | TryingZero        // read trying_to_sleep == 0
    | Go                // guard passed, waiting for the mutex
    | Waking(next: nat) // mutex held, in the waking loop
    | Woke              // mutex held, cancel_one has done its waking
    | Finished

  /** Someone who calls cancel or cancel_one after an insertion, or as the second half of force_done. */
  datatype Producer = Producer(kind: Kind, stamp: nat, stage: Stage, forced: bool)

  datatype Holder = Nobody | Fiber(f: nat) | Canceller(p: nat)

  datatype State = State(
    pcs: seq<Pc>, holder: Holder,
    trying: int, critical: seq<bool>, sleeping: seq<bool>, cond: seq<bool>,
    numactive: int, done: bool, doneStamp: nat,
    inserted: nat, checked: seq<nat>, settled: seq<nat>,
    producers: seq<Producer>)

  datatype Action =
    | Announce(f: nat) | Flag(f: nat) | TakeLock(f: nat) | Look(f: nat) | GiveUp(f: nat)
    | Sleep(f: nat, complete: bool) | Reacquire(f: nat) | Clear(f: nat) | Leave(f: nat)
    | Insert(kind: Kind) | ReadTrying(p: nat) | ReadActive(p: nat) | ReadCritical(p: nat)
    | LockCancel(p: nat) | WakeNext(p: nat) | WakeHint(p: nat) | UnlockCancel(p: nat)
    | SetDone

  function Cpus(s: State): nat { |s.pcs| }

  ghost predicate Shaped(s: State) {
    |s.critical| == |s.sleeping| == |s.cond| == |s.checked| == |s.settled| == |s.pcs|
  }

  predicate KindFits(s: State, k: Kind) {
    k.One? ==> k.hint < Cpus(s)
  }

  predicate FiberAt(s: State, f: nat, pc: Pc) {
    f < Cpus(s) && s.pcs[f] == pc
  }

  predicate ProducerAt(s: State, p: nat) {
    p < |s.producers| && KindFits(s, s.producers[p].kind)
  }

  predicate Enabled(s: State, a: Action)
    requires Shaped(s)
  {
    match a
    case Announce(f) => FiberAt(s, f, Busy)
    case Flag(f) => FiberAt(s, f, Announced)
    case TakeLock(f) => FiberAt(s, f, Flagged) && s.holder.Nobody?
    case Look(f) => FiberAt(s, f, Locked)
    case GiveUp(f) => FiberAt(s, f, Looked)
    case Sleep(f, complete) => FiberAt(s, f, Looked) && (complete ==> !s.done && s.numactive == 1)
    case Reacquire(f) => FiberAt(s, f, Runnable) && s.holder.Nobody?
    case Clear(f) => FiberAt(s, f, Unlocked)
    case Leave(f) => FiberAt(s, f, Cleared)
    case Insert(k) => KindFits(s, k)
    case ReadTrying(p) => ProducerAt(s, p) && s.producers[p].kind.All? && s.producers[p].stage.Start?
    case ReadActive(p) => ProducerAt(s, p) && s.producers[p].stage.TryingZero?
    case ReadCritical(p) => ProducerAt(s, p) && s.producers[p].kind.One? && s.producers[p].stage.Start?
    case LockCancel(p) => ProducerAt(s, p) && s.producers[p].stage.Go? && s.holder.Nobody?
    case WakeNext(p) => ProducerAt(s, p) && s.producers[p].kind.All? && s.producers[p].stage.Waking?
      && s.producers[p].stage.next < Cpus(s)
    case WakeHint(p) => ProducerAt(s, p) && s.producers[p].kind.One? && s.producers[p].stage.Waking?
    case UnlockCancel(p) => ProducerAt(s, p) &&
      (s.producers[p].stage.Woke?
        || (s.producers[p].kind.All? && s.producers[p].stage.Waking? && s.producers[p].stage.next == Cpus(s)))
    case SetDone => s.holder.Nobody?
  }

  function SetPc(s: State, f: nat, pc: Pc): seq<Pc>
    requires f < |s.pcs|
  {
    s.pcs[f := pc]
  }

  /** One turn of a waking loop: clear the flag, count the fiber active, schedule it if it waits. */
  function WakeFiber(s: State, f: nat): State
    requires Shaped(s) && f < Cpus(s)
  {
    if s.sleeping[f] then
      s.(sleeping := s.sleeping[f := false], numactive := s.numactive + 1,
         pcs := if s.cond[f] && s.pcs[f] == Blocked then SetPc(s, f, Runnable) else s.pcs)
    else s
  }

  function WakeFrom(s: State, i: nat): (t: State)
    requires Shaped(s) && i <= Cpus(s)
    ensures Shaped(t) && Cpus(t) == Cpus(s)
    decreases Cpus(s) - i
  {
    if i == Cpus(s) then s else WakeFrom(WakeFiber(s, i), i + 1)
  }

  function Stages(s: State, p: nat, st: Stage): seq<Producer>
    requires p < |s.producers|
  {
    s.producers[p := s.producers[p].(stage := st)]
  }

  predicate Covers(k: Kind, f: nat) {
    k.All? || k.hint == f
  }

  /** The producer's call returns: its insertion is settled for the fibers it covers. */
  function Return(s: State, p: nat): State
    requires Shaped(s) && p < |s.producers|
  {
    var pr := s.producers[p];
    s.(producers := Stages(s, p, Finished),
       settled := seq(Cpus(s), f requires 0 <= f < Cpus(s) =>
         if Covers(pr.kind, f) && s.settled[f] < pr.stamp then pr.stamp else s.settled[f]))
  }

  function Step(s: State, a: Action): State
    requires Shaped(s) && Enabled(s, a)
  {
    match a
    case Announce(f) => s.(pcs := SetPc(s, f, Announced), trying := s.trying + 1)
    case Flag(f) => s.(pcs := SetPc(s, f, Flagged), critical := s.critical[f := true])
    case TakeLock(f) => s.(pcs := SetPc(s, f, Locked), holder := Fiber(f))
    case Look(f) => s.(pcs := SetPc(s, f, Looked), checked := s.checked[f := s.inserted])
    case GiveUp(f) => s.(pcs := SetPc(s, f, Unlocked), holder := Nobody)
    case Sleep(f, complete) =>
      if s.done then s.(pcs := SetPc(s, f, Unlocked), holder := Nobody)
      else if complete then
        // the last active fiber passes a token that completes: the others are woken before its own flag is set
        var t := WakeFrom(s.(numactive := s.numactive - 1, done := true, doneStamp := s.inserted + 1), 0);
        t.(sleeping := t.sleeping[f := true], pcs := SetPc(t, f, Unlocked), holder := Nobody)
      else
        s.(numactive := s.numactive - 1, sleeping := s.sleeping[f := true], cond := s.cond[f := true],
           pcs := SetPc(s, f, Blocked), holder := Nobody)
    case Reacquire(f) =>
      if !s.sleeping[f] || s.done then s.(pcs := SetPc(s, f, Unlocked), cond := s.cond[f := false])
      else s.(pcs := SetPc(s, f, Blocked), cond := s.cond[f := true])
    case Clear(f) => s.(pcs := SetPc(s, f, Cleared), critical := s.critical[f := false])
    case Leave(f) => s.(pcs := SetPc(s, f, Busy), trying := s.trying - 1)
    case Insert(k) => s.(inserted := s.inserted + 1,
      producers := s.producers + [Producer(k, s.inserted + 1, Start, false)])
    case ReadTrying(p) => s.(producers := Stages(s, p, if s.trying > 0 then Go else TryingZero))
    case ReadActive(p) => if s.numactive < Cpus(s) then s.(producers := Stages(s, p, Go)) else Return(s, p)
    case ReadCritical(p) => if s.critical[s.producers[p].kind.hint] then s.(producers := Stages(s, p, Go))
      else Return(s, p)
    case LockCancel(p) =>
      var skip := s.producers[p].kind.All? && s.numactive >= Cpus(s);
      s.(holder := Canceller(p), producers := Stages(s, p, Waking(if skip then Cpus(s) else 0)))
    case WakeNext(p) =>
      var i := s.producers[p].stage.next;
      WakeFiber(s, i).(producers := Stages(s, p, Waking(i + 1)))
    case WakeHint(p) => WakeFiber(s, s.producers[p].kind.hint).(producers := Stages(s, p, Woke))
    case UnlockCancel(p) => Return(s, p).(holder := Nobody)
    case SetDone =>
      // force_done: the flag, then cancel() by the same caller
      s.(done := true, inserted := s.inserted + 1, doneStamp := if s.done then s.doneStamp else s.inserted + 1,
         producers := s.producers + [Producer(All, s.inserted + 1, Start, true)])
  }

  function Initial(n: nat): State {
    State(seq(n, _ => Busy), Nobody, 0, seq(n, _ => false), seq(n, _ => false), seq(n, _ => false),
          n, false, 0, 0, seq(n, _ => 0), seq(n, _ => 0), [])
  }

  // ---- The invariant ----

  predicate Inside(pc: Pc) { pc != Busy }

  ghost function Insides(s: State): seq<bool> {
    seq(Cpus(s), f requires 0 <= f < Cpus(s) => Inside(s.pcs[f]))
  }

  predicate InCritical(pc: Pc) {
    pc != Busy && pc != Announced && pc != Cleared
  }

  predicate Dozing(pc: Pc) { pc == Looked || pc == Blocked }

  ghost predicate FiberOk(s: State, f: nat)
    requires Shaped(s) && f < Cpus(s)
  {
    && (s.critical[f] <==> InCritical(s.pcs[f]))
    && (s.holder == Fiber(f) <==> s.pcs[f] == Locked || s.pcs[f] == Looked)
    && (s.pcs[f] == Blocked ==> s.sleeping[f])
    && (s.cond[f] <==> s.pcs[f] == Blocked || s.pcs[f] == Runnable)
    && (!s.done && s.sleeping[f] ==> s.pcs[f] == Blocked)
    && (s.pcs[f] == Blocked && s.done ==> s.checked[f] < s.doneStamp)
    && s.checked[f] <= s.inserted && s.settled[f] <= s.inserted
    && (Dozing(s.pcs[f]) ==> s.settled[f] <= s.checked[f])
  }

  ghost predicate ProducerOk(s: State, p: nat)
    requires Shaped(s) && p < |s.producers|
  {
    var pr := s.producers[p];
    && KindFits(s, pr.kind) && pr.stamp <= s.inserted
    && (s.holder == Canceller(p) <==> pr.stage.Waking? || pr.stage.Woke?)
    && (pr.stage.TryingZero? ==> pr.kind.All? && forall f :: 0 <= f < Cpus(s) && Dozing(s.pcs[f]) ==>
      pr.stamp <= s.checked[f])
    && (pr.stage.Waking? && pr.kind.All? ==> pr.stage.next <= Cpus(s) && forall f :: 0 <= f < pr.stage.next ==>
      s.pcs[f] != Blocked)
    && (pr.stage.Woke? ==> pr.kind.One? && s.pcs[pr.kind.hint] != Blocked)
  }

  ghost predicate HolderFits(s: State) {
    match s.holder
    case Nobody => true
    case Fiber(f) => f < Cpus(s)
    case Canceller(p) => p < |s.producers|
  }

  ghost predicate Inv(s: State) {
    && Shaped(s) && HolderFits(s)
    && s.trying == CountTrue(Insides(s))
    && s.numactive + CountTrue(s.sleeping) == Cpus(s)
    && (forall f :: 0 <= f < Cpus(s) ==> FiberOk(s, f))
    && (forall p :: 0 <= p < |s.producers| ==> ProducerOk(s, p))
  }

  // ---- Waking ----

  /** What a waking loop may do to a state: fibers go from Blocked to Runnable, flags are only
      cleared, and every cleared flag is counted. */
  ghost predicate Wakes(s: State, t: State) {
    && Shaped(s) && Shaped(t) && Cpus(t) == Cpus(s)
    && t == s.(pcs := t.pcs, sleeping := t.sleeping, numactive := t.numactive)
    && t.numactive + CountTrue(t.sleeping) == s.numactive + CountTrue(s.sleeping)
    && forall g :: 0 <= g < Cpus(s) ==>
         && (t.sleeping[g] ==> s.sleeping[g])
         && (t.pcs[g] == s.pcs[g] || (s.pcs[g] == Blocked && t.pcs[g] == Runnable))
         && (t.pcs[g] == Blocked ==> t.sleeping[g] == s.sleeping[g])
  }

  /** No fiber waits without its flag and its handle. */
  ghost predicate WaitersFlagged(s: State) {
    Shaped(s) && forall g :: 0 <= g < Cpus(s) && s.pcs[g] == Blocked ==> s.sleeping[g] && s.cond[g]
  }

  lemma WakeFiberWakes(s: State, f: nat)
    requires WaitersFlagged(s) && f < Cpus(s)
    ensures Wakes(s, WakeFiber(s, f)) && WaitersFlagged(WakeFiber(s, f))
    ensures WakeFiber(s, f).pcs[f] != Blocked && !WakeFiber(s, f).sleeping[f]
  {
    CountUpdate(s.sleeping, f, false);
  }

  lemma {:induction false} WakeFromWakes(s: State, i: nat)
    requires WaitersFlagged(s) && i <= Cpus(s)
    ensures Wakes(s, WakeFrom(s, i)) && WaitersFlagged(WakeFrom(s, i))
    ensures forall g :: i <= g < Cpus(s) ==> WakeFrom(s, i).pcs[g] != Blocked && !WakeFrom(s, i).sleeping[g]
    decreases Cpus(s) - i
  {
    if i < Cpus(s) {
      WakeFiberWakes(s, i);
      WakeFromWakes(WakeFiber(s, i), i + 1);
    }
  }

  lemma WakesInsides(s: State, t: State)
    requires Wakes(s, t)
    ensures Insides(t) == Insides(s)
  {
  }

  lemma PcInsides(s: State, t: State, f: nat)
    requires Cpus(t) == Cpus(s) && f < Cpus(s) && t.pcs == SetPc(s, f, t.pcs[f])
    ensures CountTrue(Insides(t)) ==
      CountTrue(Insides(s)) - (if Inside(s.pcs[f]) then 1 else 0) + (if Inside(t.pcs[f]) then 1 else 0)
  {
    assert Insides(t) == Insides(s)[f := Inside(t.pcs[f])];
    CountUpdate(Insides(s), f, Inside(t.pcs[f]));
  }

  // ---- Every step keeps the invariant ----

  lemma AnnounceStep(s: State, a: Action)
    requires Inv(s) && Enabled(s, a) && (a.Announce? || a.Flag? || a.Clear? || a.Leave?)
    ensures Inv(Step(s, a))
  {
    hide WakeFrom, WakeFiber, Return, CountTrue, Insides;
    var t := Step(s, a);
    assert FiberOk(s, a.f);
    PcInsides(s, t, a.f);
    forall g | 0 <= g < Cpus(t) ensures FiberOk(t, g) { assert FiberOk(s, g); }
    forall p | 0 <= p < |t.producers| ensures ProducerOk(t, p) { assert ProducerOk(s, p); }
  }

  lemma LockedStep(s: State, a: Action)
    requires Inv(s) && Enabled(s, a) && (a.TakeLock? || a.Look? || a.GiveUp? || a.Reacquire?)
    ensures Inv(Step(s, a))
  {
    hide WakeFrom, WakeFiber, Return, CountTrue, Insides;
    var t := Step(s, a);
    assert FiberOk(s, a.f);
    PcInsides(s, t, a.f);
    forall g | 0 <= g < Cpus(t) ensures FiberOk(t, g) { assert FiberOk(s, g); }
    forall p | 0 <= p < |t.producers| ensures ProducerOk(t, p) { assert ProducerOk(s, p); }
  }

  lemma SleepStep(s: State, f: nat, complete: bool)
    requires Inv(s) && Enabled(s, Sleep(f, complete)) && (s.done || !complete)
    ensures Inv(Step(s, Sleep(f, complete)))
  {
    hide WakeFrom, WakeFiber, Return, CountTrue, Insides;
    var t := Step(s, Sleep(f, complete));
    assert FiberOk(s, f);
    PcInsides(s, t, f);
    CountUpdate(s.sleeping, f, true);
    forall g | 0 <= g < Cpus(t) ensures FiberOk(t, g) { assert FiberOk(s, g); }
    forall p | 0 <= p < |t.producers| ensures ProducerOk(t, p) { assert ProducerOk(s, p); }
  }

  /** The state after completion has woken the others and before the sleeper sets its own flag. */
  function AllWoken(s: State): State
    requires Shaped(s)
  {
    WakeFrom(s.(numactive := s.numactive - 1, done := true, doneStamp := s.inserted + 1), 0)
  }

  lemma AllWokenFacts(s: State)
    requires Inv(s)
    ensures var u := AllWoken(s);
      && Shaped(u) && Cpus(u) == Cpus(s) && Insides(u) == Insides(s)
      && u == s.(numactive := u.numactive, done := true, doneStamp := s.inserted + 1, pcs := u.pcs,
        sleeping := u.sleeping)
      && u.numactive + CountTrue(u.sleeping) == Cpus(s) - 1
      && forall g :: 0 <= g < Cpus(s) ==>
        !u.sleeping[g] && u.pcs[g] == if s.pcs[g] == Blocked then Runnable else s.pcs[g]
  {
    var s1 := s.(numactive := s.numactive - 1, done := true, doneStamp := s.inserted + 1);
    forall g | 0 <= g < Cpus(s) && s.pcs[g] == Blocked ensures s.sleeping[g] && s.cond[g] { assert FiberOk(s, g); }
    WakeFromWakes(s1, 0);
    WakesInsides(s1, AllWoken(s));
    assert Insides(s1) == Insides(s);
  }

  lemma CompleteStep(s: State, f: nat)
    requires Inv(s) && Enabled(s, Sleep(f, true)) && !s.done
    ensures Inv(Step(s, Sleep(f, true)))
  {
    AllWokenFacts(s);
    var u := AllWoken(s);
    var t := u.(sleeping := u.sleeping[f := true], pcs := SetPc(u, f, Unlocked), holder := Nobody);
    assert Step(s, Sleep(f, true)) == t;
    assert FiberOk(s, f);
    PcInsides(u, t, f);
    CountUpdate(u.sleeping, f, true);
    forall g | 0 <= g < Cpus(t) ensures FiberOk(t, g) { assert FiberOk(s, g); }
    forall p | 0 <= p < |t.producers| ensures ProducerOk(t, p) { assert ProducerOk(s, p); }
  }

  lemma NewProducerStep(s: State, a: Action)
    requires Inv(s) && Enabled(s, a) && (a.Insert? || a.SetDone?)
    ensures Inv(Step(s, a))
  {
    var t := Step(s, a);
    assert Insides(t) == Insides(s);
    forall g | 0 <= g < Cpus(t) ensures FiberOk(t, g) { assert FiberOk(s, g); }
    forall p | 0 <= p < |t.producers| ensures ProducerOk(t, p) { if p < |s.producers| { assert ProducerOk(s, p); } }
  }

  /** A return is safe once no fiber the producer covers dozes on a look older than its insertion. */
  lemma ReturnKeeps(s: State, p: nat, unlock: bool)
    requires Inv(s) && p < |s.producers|
    requires forall f :: 0 <= f < Cpus(s) && Covers(s.producers[p].kind, f) && Dozing(s.pcs[f]) ==>
      s.producers[p].stamp <= s.checked[f]
    requires unlock <==> s.holder == Canceller(p)
    ensures Inv(if unlock then Return(s, p).(holder := Nobody) else Return(s, p))
  {
    var t := if unlock then Return(s, p).(holder := Nobody) else Return(s, p);
    assert ProducerOk(s, p);
    assert Insides(t) == Insides(s);
    forall g | 0 <= g < Cpus(t) ensures FiberOk(t, g) { assert FiberOk(s, g); }
    forall q | 0 <= q < |t.producers| ensures ProducerOk(t, q) { assert ProducerOk(s, q); }
  }

  lemma StageKeeps(s: State, p: nat, st: Stage, h: Holder)
    requires Inv(s) && p < |s.producers|
    requires h == s.holder || (s.holder.Nobody? && h == Canceller(p))
    requires ProducerOk(s.(producers := Stages(s, p, st), holder := h), p)
    requires h == Canceller(p) <==> st.Waking? || st.Woke?
    ensures Inv(s.(producers := Stages(s, p, st), holder := h))
  {
    var t := s.(producers := Stages(s, p, st), holder := h);
    assert Insides(t) == Insides(s);
    forall g | 0 <= g < Cpus(t) ensures FiberOk(t, g) { assert FiberOk(s, g); }
    forall q | 0 <= q < |t.producers| ensures ProducerOk(t, q) { assert ProducerOk(s, q); }
  }

  /** Reading trying_to_sleep == 0 means no fiber is anywhere between announcing itself and leaving. */
  lemma NobodyInside(s: State)
    requires Inv(s) && s.trying <= 0
    ensures forall f :: 0 <= f < Cpus(s) ==> s.pcs[f] == Busy
  {
    CountBounds(Insides(s));
    forall f | 0 <= f < Cpus(s) ensures s.pcs[f] == Busy { assert !Insides(s)[f]; }
  }

  lemma GuardStep(s: State, a: Action)
    requires Inv(s) && Enabled(s, a) && (a.ReadTrying? || a.ReadActive? || a.ReadCritical?)
    ensures Inv(Step(s, a))
  {
    var p := a.p;
    assert ProducerOk(s, p);
    if a.ReadTrying? {
      if s.trying > 0 { StageKeeps(s, p, Go, s.holder); }
      else { NobodyInside(s); StageKeeps(s, p, TryingZero, s.holder); }
    } else if a.ReadActive? {
      if s.numactive < Cpus(s) { StageKeeps(s, p, Go, s.holder); } else { ReturnKeeps(s, p, false); }
    } else {
      assert FiberOk(s, s.producers[p].kind.hint);
      if s.critical[s.producers[p].kind.hint] { StageKeeps(s, p, Go, s.holder); } else { ReturnKeeps(s, p, false); }
    }
  }

  lemma LockStep(s: State, p: nat)
    requires Inv(s) && Enabled(s, LockCancel(p))
    ensures Inv(Step(s, LockCancel(p)))
  {
    assert ProducerOk(s, p);
    CountBounds(s.sleeping);
    forall f | 0 <= f < Cpus(s) && s.numactive >= Cpus(s) ensures s.pcs[f] != Blocked { assert FiberOk(s, f); }
    StageKeeps(s, p, Step(s, LockCancel(p)).producers[p].stage, Canceller(p));
  }

  lemma WakeKeeps(s: State, p: nat, i: nat, st: Stage)
    requires Inv(s) && p < |s.producers| && s.holder == Canceller(p) && i < Cpus(s)
    requires ProducerOk(WakeFiber(s, i).(producers := Stages(s, p, st)), p) && (st.Waking? || st.Woke?)
    ensures Inv(WakeFiber(s, i).(producers := Stages(s, p, st)))
  {
    var t := WakeFiber(s, i).(producers := Stages(s, p, st));
    forall g | 0 <= g < Cpus(s) && s.pcs[g] == Blocked ensures s.sleeping[g] && s.cond[g] { assert FiberOk(s, g); }
    WakeFiberWakes(s, i);
    WakesInsides(s, WakeFiber(s, i));
    assert Insides(t) == Insides(s);
    forall g | 0 <= g < Cpus(t) ensures FiberOk(t, g) { assert FiberOk(s, g); }
    forall q | 0 <= q < |t.producers| ensures ProducerOk(t, q) { assert ProducerOk(s, q); }
  }

  lemma WakeStep(s: State, a: Action)
    requires Inv(s) && Enabled(s, a) && (a.WakeNext? || a.WakeHint?)
    ensures Inv(Step(s, a))
  {
    hide WakeFrom, Return, CountTrue, Insides;
    var p := a.p;
    assert ProducerOk(s, p);
    var i := if a.WakeNext? then s.producers[p].stage.next else s.producers[p].kind.hint;
    forall g | 0 <= g < Cpus(s) && s.pcs[g] == Blocked ensures s.sleeping[g] && s.cond[g] { assert FiberOk(s, g); }
    WakeFiberWakes(s, i);
    WakeKeeps(s, p, i, if a.WakeNext? then Waking(i + 1) else Woke);
  }

  lemma UnlockStep(s: State, p: nat)
    requires Inv(s) && Enabled(s, UnlockCancel(p))
    ensures Inv(Step(s, UnlockCancel(p)))
  {
    assert ProducerOk(s, p);
    forall f | 0 <= f < Cpus(s) && Covers(s.producers[p].kind, f) ensures !Dozing(s.pcs[f]) { assert FiberOk(s, f); }
    ReturnKeeps(s, p, true);
  }

  lemma InvStep(s: State, a: Action)
    requires Inv(s) && Enabled(s, a)
    ensures Inv(Step(s, a))
  {
    match a
    case Sleep(f, complete) => if complete && !s.done { CompleteStep(s, f); } else { SleepStep(s, f, complete); }
    case Insert(_) => NewProducerStep(s, a);
    case SetDone => NewProducerStep(s, a);
    case ReadTrying(_) => GuardStep(s, a);
    case ReadActive(_) => GuardStep(s, a);
    case ReadCritical(_) => GuardStep(s, a);
    case LockCancel(p) => LockStep(s, p);
    case WakeNext(_) => WakeStep(s, a);
    case WakeHint(_) => WakeStep(s, a);
    case UnlockCancel(p) => UnlockStep(s, p);
    case Announce(_) => AnnounceStep(s, a);
    case Flag(_) => AnnounceStep(s, a);
    case Clear(_) => AnnounceStep(s, a);
    case Leave(_) => AnnounceStep(s, a);
    case _ => LockedStep(s, a);
  }

  // ---- What every run guarantees ----

  ghost predicate Legal(s: State, run: seq<Action>)
    decreases |run|
  {
    run == [] || (Shaped(s) && Enabled(s, run[0]) && Legal(Step(s, run[0]), run[1..]))
  }

  ghost function After(s: State, run: seq<Action>): State
    requires Legal(s, run)
    decreases |run|
  {
    if run == [] then s else After(Step(s, run[0]), run[1..])
  }

  lemma {:induction false} InvRun(s: State, run: seq<Action>)
    requires Inv(s) && Legal(s, run)
    ensures Inv(After(s, run))
    decreases |run|
  {
    if run != [] {
      InvStep(s, run[0]);
      InvRun(Step(s, run[0]), run[1..]);
    }
  }

  lemma InitialInv(n: nat)
    ensures Inv(Initial(n))
  {
    CountBounds(Insides(Initial(n)));
    CountBounds(Initial(n).sleeping);
  }

  ghost predicate Reachable(n: nat, s: State) {
    exists run :: Legal(Initial(n), run) && After(Initial(n), run) == s
  }

  lemma ReachableInv(n: nat, s: State)
    requires Reachable(n, s)
    ensures Inv(s)
  {
    var run :| Legal(Initial(n), run) && After(Initial(n), run) == s;
    InitialInv(n);
    InvRun(Initial(n), run);
  }

  /** No lost work: a fiber that waits has looked at its queues since every insertion whose cancel()
      or cancel_one() for it has returned, although both guards are read without the mutex. */
  lemma NoLostWork(n: nat, s: State, f: nat)
    requires Reachable(n, s) && f < Cpus(s) && s.pcs[f] == Blocked
    ensures Shaped(s) && s.settled[f] <= s.checked[f]
  {
    ReachableInv(n, s);
    assert FiberOk(s, f);
  }

  /** `settled` means what it should: once a producer has returned, no covered fiber waits on an older look. */
  lemma ReturnedMeansSeen(n: nat, s: State, a: Action, p: nat, f: nat)
    requires Reachable(n, s) && Shaped(s) && Enabled(s, a) && p < |s.producers| && f < Cpus(s)
    requires !s.producers[p].stage.Finished? && |Step(s, a).producers| > p && Step(s, a).producers[p].stage.Finished?
    requires Covers(s.producers[p].kind, f)
    ensures Shaped(Step(s, a)) && f < Cpus(Step(s, a)) && s.producers[p].stamp <= Step(s, a).settled[f]
    ensures Step(s, a).pcs[f] == Blocked ==> s.producers[p].stamp <= Step(s, a).checked[f]
  {
    ReachableInv(n, s);
    InvStep(s, a);
    if a.Sleep? { StepKeepsProducers(s, a); }
    assert FiberOk(Step(s, a), f);
  }

  lemma StepKeepsProducers(s: State, a: Action)
    requires Inv(s) && Enabled(s, a) && a.Sleep?
    ensures Step(s, a).producers == s.producers
  {
    if a.complete && !s.done { AllWokenFacts(s); }
  }

  /** With nobody between begin and the end of its section and every fiber active, a cancel is two reads. */
  lemma QuietCancel(s: State, p: nat)
    requires Shaped(s) && Enabled(s, ReadTrying(p)) && s.trying == 0 && s.numactive == Cpus(s)
    ensures var t := Step(s, ReadTrying(p));
      && Enabled(t, ReadActive(p))
      && var u := Step(t, ReadActive(p));
         && p < |u.producers| && u.producers[p].stage.Finished?
         && u == s.(producers := s.producers[p := u.producers[p]], settled := u.settled)
  {
  }

  /** And a cancel_one for a fiber outside its section is one; for any other it wakes that one fiber alone. */
  lemma CancelOneIsOne(s: State, p: nat)
    requires Shaped(s) && p < |s.producers|
    ensures Enabled(s, ReadCritical(p)) && !s.critical[s.producers[p].kind.hint] ==>
      var t := Step(s, ReadCritical(p));
      p < |t.producers| && t.producers[p].stage.Finished? && t.pcs == s.pcs && t.sleeping == s.sleeping
    ensures Enabled(s, WakeHint(p)) ==>
      var t, f := Step(s, WakeHint(p)), s.producers[p].kind.hint;
      && |t.sleeping| == |s.sleeping| && |t.pcs| == |s.pcs| && !t.sleeping[f]
      && t.sleeping == s.sleeping[f := false] && t.pcs == s.pcs[f := t.pcs[f]]
      && (s.sleeping[f] && s.cond[f] && s.pcs[f].Blocked? ==> t.pcs[f].Runnable?)
  {
  }

  /** No waiter is stuck: its flag is set and its handle is there for the next cancel to find,
      and a fiber already handed to the scheduler will not go back to waiting. */
  lemma WaitersCanBeWoken(n: nat, s: State, f: nat)
    requires Reachable(n, s) && f < Cpus(s)
    ensures Shaped(s)
    ensures s.pcs[f] == Blocked ==> s.sleeping[f]
    ensures s.cond[f] <==> s.pcs[f] == Blocked || s.pcs[f] == Runnable
    ensures !s.done && s.sleeping[f] ==> s.pcs[f] == Blocked
    ensures s.numactive + CountTrue(s.sleeping) == Cpus(s)
  {
    ReachableInv(n, s);
    assert FiberOk(s, f);
  }

  /** A fiber that waits although done is set: then no cancel begun since then has returned. */
  lemma WaitsOnDone(n: nat, s: State, f: nat)
    requires Reachable(n, s) && f < Cpus(s) && s.pcs[f] == Blocked
    ensures Shaped(s) && (s.done ==> s.settled[f] < s.doneStamp)
  {
    ReachableInv(n, s);
    assert FiberOk(s, f);
  }

  /** The cancel of force_done comes after its flag, and is settled for all once it has returned. */
  ghost predicate ForcedOk(s: State) {
    && (s.done ==> s.doneStamp <= s.inserted + 1)
    && forall p :: 0 <= p < |s.producers| && s.producers[p].forced ==>
         && s.done && s.producers[p].kind.All? && s.doneStamp <= s.producers[p].stamp
         && (s.producers[p].stage.Finished? ==> Settled(s, s.producers[p].stamp))
  }

  ghost predicate Settled(s: State, stamp: nat) {
    forall f :: 0 <= f < |s.settled| ==> stamp <= s.settled[f]
  }

  lemma ForcedSleep(s: State, a: Action)
    requires Inv(s) && ForcedOk(s) && Enabled(s, a) && a.Sleep?
    ensures ForcedOk(Step(s, a))
  {
    hide FiberOk, ProducerOk, CountTrue, Insides, WakeFrom;
    StepKeepsProducers(s, a);
    if a.complete && !s.done {
      WakeKeepsStamps(s.(numactive := s.numactive - 1, done := true, doneStamp := s.inserted + 1), 0);
    }
  }

  lemma ForcedStep(s: State, a: Action)
    requires Inv(s) && ForcedOk(s) && Enabled(s, a)
    ensures ForcedOk(Step(s, a))
  {
    hide FiberOk, ProducerOk, CountTrue, Insides, WakeFrom;
    if a.Sleep? { ForcedSleep(s, a); }
  }

  lemma {:induction false} WakeKeepsStamps(s: State, i: nat)
    requires Shaped(s) && i <= Cpus(s)
    ensures var t := WakeFrom(s, i);
      t.done == s.done && t.doneStamp == s.doneStamp && t.inserted == s.inserted && t.settled == s.settled
    decreases Cpus(s) - i
  {
    if i < Cpus(s) { WakeKeepsStamps(WakeFiber(s, i), i + 1); }
  }

  lemma {:induction false} ForcedRun(s: State, run: seq<Action>)
    requires Inv(s) && ForcedOk(s) && Legal(s, run)
    ensures ForcedOk(After(s, run))
    decreases |run|
  {
    if run != [] {
      InvStep(s, run[0]);
      ForcedStep(s, run[0]);
      ForcedRun(Step(s, run[0]), run[1..]);
    }
  }

  lemma ReachableForced(n: nat, s: State)
    requires Reachable(n, s)
    ensures ForcedOk(s)
  {
    var run :| Legal(Initial(n), run) && After(Initial(n), run) == s;
    InitialInv(n);
    ForcedRun(Initial(n), run);
  }

  /** Once a call of force_done has returned, no fiber waits, then or ever after. */
  lemma ForceDoneReleases(n: nat, s: State, p: nat, f: nat)
    requires Reachable(n, s) && p < |s.producers| && s.producers[p].forced && s.producers[p].stage.Finished?
    requires f < Cpus(s)
    ensures s.done && s.pcs[f] != Blocked
  {
    ReachableForced(n, s);
    if s.pcs[f] == Blocked { WaitsOnDone(n, s, f); }
  }
}

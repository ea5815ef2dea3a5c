/** One machine's part of fiber_async_consensus: what each locked section does to its state.
    The functions say it on values; the class does it in place, field by field. */
module Consensus {
  import opened Sums

  datatype Token = Token(totalCallsSent: int, totalCallsReceived: int, lastChange: nat)

  /** The fields the mutex protects. `sleeping` has one flag per fiber. */
  datatype Local = Local(
    lastSent: nat, lastReceived: nat,
    numactive: nat, done: bool, sleeping: seq<bool>,
    hastoken: bool, token: Token)

  /** What a locked section hands to the network. */
  datatype Outcome = Quiet | Forward(to: nat, token: Token) | Complete(force: seq<nat>)

  function NoneAsleep(ncpus: nat): (s: seq<bool>)
    ensures |s| == ncpus && forall c :: 0 <= c < ncpus ==> !s[c]
  {
    seq(ncpus, _ => false)
  }

  function Fresh(procid: nat, numprocs: nat, ncpus: nat): Local
    requires numprocs > 0
  {
    Local(0, 0, ncpus, false, NoneAsleep(ncpus), procid == 0, Token(0, 0, numprocs - 1))
  }

  function WakeAll(l: Local): Local {
    if l.numactive < |l.sleeping|
    then l.(numactive := l.numactive + CountTrue(l.sleeping), sleeping := NoneAsleep(|l.sleeping|))
    else l
  }

  function WakeOne(l: Local, cpu: nat): Local
    requires cpu < |l.sleeping|
  {
    if l.sleeping[cpu] then l.(numactive := l.numactive + 1, sleeping := l.sleeping[cpu := false]) else l
  }

  predicate Completes(l: Local, procid: nat) {
    l.token.lastChange == procid && l.token.totalCallsReceived == l.token.totalCallsSent
  }

  /** The token after this machine has added what its counters moved by. */
  function Folded(l: Local, procid: nat, received: nat, sent: nat): Token {
    if sent != l.lastSent || received != l.lastReceived
    then Token(l.token.totalCallsSent + (sent - l.lastSent),
               l.token.totalCallsReceived + (received - l.lastReceived), procid)
    else l.token
  }

  function Passed(l: Local, procid: nat, received: nat, sent: nat): Local {
    l.(lastSent := sent, lastReceived := received, hastoken := false,
       token := Folded(l, procid, received, sent))
  }

  function Completed(l: Local): Local {
    WakeAll(l.(done := true))
  }

  /** The machines told to finish, in the order the broadcast loop visits them. */
  function Others(numprocs: nat, procid: nat): seq<nat> {
    if numprocs == 0 then []
    else Others(numprocs - 1, procid) + (if numprocs - 1 != procid then [numprocs - 1] else [])
  }

  lemma {:induction false} OthersAreAllButMe(numprocs: nat, procid: nat)
    ensures forall j: nat :: j in Others(numprocs, procid) <==> j < numprocs && j != procid
  {
    if numprocs > 0 { OthersAreAllButMe(numprocs - 1, procid); }
  }

  /** pass_the_token as one step: both counters read at once. */
  function PassToken(l: Local, procid: nat, numprocs: nat, received: nat, sent: nat): (Local, Outcome)
    requires numprocs > 0
  {
    if Completes(l, procid) then (Completed(l), Complete(Others(numprocs, procid)))
    else
      var t := Folded(l, procid, received, sent);
      (Passed(l, procid, received, sent), Forward((procid + 1) % numprocs, t))
  }

  function ReceiveToken(l: Local, tok: Token, procid: nat, numprocs: nat, received: nat, sent: nat): (Local, Outcome)
    requires numprocs > 0
  {
    var l1 := l.(hastoken := true, token := tok);
    if l1.numactive == 0 then PassToken(l1, procid, numprocs, received, sent) else (l1, Quiet)
  }

  /** The part of end_done_critical_section before the fiber leaves the CPU. */
  function FallAsleep(l: Local, cpu: nat, procid: nat, numprocs: nat, received: nat, sent: nat): (Local, Outcome)
    requires numprocs > 0 && l.numactive > 0 && cpu < |l.sleeping|
  {
    var l1 := l.(numactive := l.numactive - 1);
    var (l2, out) := if l1.numactive == 0 && l1.hastoken then PassToken(l1, procid, numprocs, received, sent)
      else (l1, Quiet);
    (l2.(sleeping := l2.sleeping[cpu := true]), out)
  }

  /** Every fiber is either counted active or flagged asleep. */
  ghost predicate Accounted(l: Local) {
    l.numactive + CountTrue(l.sleeping) == |l.sleeping|
  }

  lemma WakeAllAccounted(l: Local)
    requires Accounted(l)
    ensures Accounted(WakeAll(l))
    ensures WakeAll(l).numactive == |l.sleeping| && forall c :: 0 <= c < |l.sleeping| ==> !WakeAll(l).sleeping[c]
    ensures WakeAll(l) == l.(numactive := WakeAll(l).numactive, sleeping := WakeAll(l).sleeping)
  {
    CountBounds(l.sleeping);
    CountBounds(NoneAsleep(|l.sleeping|));
  }

  lemma WakeOneAccounted(l: Local, cpu: nat)
    requires Accounted(l) && cpu < |l.sleeping|
    ensures Accounted(WakeOne(l, cpu)) && !WakeOne(l, cpu).sleeping[cpu]
    ensures WakeOne(l, cpu).numactive > 0
    ensures WakeOne(l, cpu) == l.(numactive := WakeOne(l, cpu).numactive, sleeping := l.sleeping[cpu := false])
  {
    CountUpdate(l.sleeping, cpu, false);
    CountBounds(WakeOne(l, cpu).sleeping);
  }

  /** Whatever branch the token takes, the sleeper is counted out exactly once: even when
      completion wakes the other fibers between the decrement and the flag. */
  lemma FallAsleepAccounted(l: Local, cpu: nat, procid: nat, numprocs: nat, received: nat, sent: nat)
    requires numprocs > 0 && Accounted(l) && cpu < |l.sleeping| && !l.sleeping[cpu]
    ensures l.numactive > 0
    ensures Accounted(FallAsleep(l, cpu, procid, numprocs, received, sent).0)
    ensures FallAsleep(l, cpu, procid, numprocs, received, sent).0.sleeping[cpu]
  {
    CountBounds(l.sleeping);
    CountUpdate(l.sleeping, cpu, true);
    CountBounds(NoneAsleep(|l.sleeping|));
    CountUpdate(NoneAsleep(|l.sleeping|), cpu, true);
  }

  class FiberAsyncConsensus {
    const procid: nat
    const numprocs: nat
    const ncpus: nat
    var lastCallsSent: nat
    var lastCallsReceived: nat
    var numactive: nat
    var done: bool
    var hastoken: bool
    var curToken: Token
    var tryingToSleep: nat
    const critical: array<bool>
    const sleeping: array<bool>
    const cond: array<nat>  // fiber to schedule, 0 when the fiber is not waiting

    ghost predicate Valid()
      reads this
    {
      && critical.Length == ncpus && sleeping.Length == ncpus && cond.Length == ncpus && procid < numprocs
      && critical != sleeping
    }

    ghost function View(): Local
      reads this, sleeping
    {
      Local(lastCallsSent, lastCallsReceived, numactive, done, sleeping[..], hastoken, curToken)
    }

    /** The handles of the sleeping fibers that wait to be scheduled, if not all fibers are active. */
    ghost function AllWaiters(active: int): set<nat>
      requires sleeping.Length == cond.Length
      reads sleeping, cond
    {
      set c | 0 <= c < cond.Length && active < ncpus && sleeping[c] && cond[c] != 0 :: cond[c]
    }

    /** No fiber is between begin_done_critical_section and the end of its section. */
    ghost predicate NobodyInside()
      requires critical.Length == ncpus
      reads this, critical
    {
      tryingToSleep == 0 && forall c :: 0 <= c < ncpus ==> !critical[c]
    }

    constructor (procid: nat, numprocs: nat, requiredFibersInDone: nat)
      requires procid < numprocs
      ensures Valid() && fresh(critical) && fresh(sleeping) && fresh(cond)
      ensures this.procid == procid && this.numprocs == numprocs && ncpus == requiredFibersInDone
      ensures View() == Fresh(procid, numprocs, requiredFibersInDone)
      ensures NobodyInside() && forall c :: 0 <= c < ncpus ==> cond[c] == 0
    {
      this.procid, this.numprocs, ncpus := procid, numprocs, requiredFibersInDone;
      lastCallsSent, lastCallsReceived := 0, 0;
      numactive, done, hastoken := requiredFibersInDone, false, procid == 0;
      curToken := Token(0, 0, numprocs - 1);
      tryingToSleep := 0;
      critical := new bool[requiredFibersInDone](_ => false);
      sleeping := new bool[requiredFibersInDone](_ => false);
      cond := new nat[requiredFibersInDone](_ => 0);
    }

    /** The handles in `cond` stay as they are. */
    method Reset()
      requires Valid()
      modifies this, critical, sleeping
      ensures View() == Fresh(procid, numprocs, ncpus) && NobodyInside()
    {
      lastCallsSent, lastCallsReceived := 0, 0;
      numactive, done := ncpus, false;
      tryingToSleep := 0;
      forall c | 0 <= c < ncpus { critical[c] := false; }
      forall c | 0 <= c < ncpus { sleeping[c] := false; }
      hastoken, curToken := procid == 0, Token(0, 0, numprocs - 1);
      assert sleeping[..] == NoneAsleep(ncpus);
    }

    /** The waking loop shared by cancel() and by completion. `woken` lists the
        handles given to the scheduler, in order. */
    method WakeLoop() returns (woken: seq<nat>)
      requires Valid()
      modifies this`numactive, sleeping
      ensures View() == old(WakeAll(View()))
      ensures (set w | w in woken) == old(AllWaiters(numactive))
    {
      woken := [];
      if numactive < ncpus {
        ghost var was := sleeping[..];
        for i := 0 to ncpus
          invariant numactive == old(numactive) + CountTrue(was[..i])
          invariant forall c :: 0 <= c < i ==> !sleeping[c]
          invariant forall c :: i <= c < ncpus ==> sleeping[c] == was[c]
          invariant forall c :: 0 <= c < i && was[c] && cond[c] != 0 ==> cond[c] in woken
          invariant forall w :: w in woken ==> w != 0 && exists c :: 0 <= c < ncpus && was[c] && cond[c] == w
        {
          assert was[..i + 1] == was[..i] + [was[i]];
          CountAppend(was[..i], was[i]);
          numactive := numactive + (if sleeping[i] then 1 else 0);
          if sleeping[i] {
            sleeping[i] := false;
            if cond[i] != 0 { woken := woken + [cond[i]]; }
          }
        }
        assert was[..ncpus] == was;
      }
    }

    /** The locked section of cancel_one. */
    method CancelOne(cpuhint: nat) returns (woken: seq<nat>)
      requires Valid() && cpuhint < ncpus
      modifies this`numactive, sleeping
      ensures View() == old(WakeOne(View(), cpuhint))
      ensures woken == if old(sleeping[cpuhint]) && cond[cpuhint] != 0 then [cond[cpuhint]] else []
    {
      woken := [];
      if sleeping[cpuhint] {
        numactive := numactive + 1;
        sleeping[cpuhint] := false;
        if cond[cpuhint] != 0 { woken := [cond[cpuhint]]; }
      }
    }

    method PassTheToken(callsrecv: nat, callssent: nat) returns (out: Outcome, woken: seq<nat>)
      requires Valid() && hastoken
      modifies this, sleeping
      ensures tryingToSleep == old(tryingToSleep)
      ensures (View(), out) == old(PassToken(View(), procid, numprocs, callsrecv, callssent))
      ensures if out.Complete? then (set w | w in woken) == old(AllWaiters(numactive)) else woken == []
    {
      woken := [];
      if curToken.lastChange == procid && curToken.totalCallsReceived == curToken.totalCallsSent {
        var force: seq<nat> := [];
        for i := 0 to numprocs
          invariant force == Others(i, procid)
        {
          if i != procid { force := force + [i]; }
        }
        done := true;
        woken := WakeLoop();
        out := Complete(force);
      } else {
        if callssent != lastCallsSent || callsrecv != lastCallsReceived {
          curToken := Token(curToken.totalCallsSent + (callssent - lastCallsSent),
                            curToken.totalCallsReceived + (callsrecv - lastCallsReceived), procid);
        }
        lastCallsSent, lastCallsReceived := callssent, callsrecv;
        hastoken := false;
        out := Forward((procid + 1) % numprocs, curToken);
      }
    }

    method ReceiveTheToken(tok: Token, callsrecv: nat, callssent: nat) returns (out: Outcome, woken: seq<nat>)
      requires Valid()
      modifies this, sleeping
      ensures tryingToSleep == old(tryingToSleep)
      ensures (View(), out) == old(ReceiveToken(View(), tok, procid, numprocs, callsrecv, callssent))
      ensures if out.Complete? then (set w | w in woken) == old(AllWaiters(numactive)) else woken == []
    {
      out, woken := Quiet, [];
      hastoken, curToken := true, tok;
      if numactive == 0 {
        out, woken := PassTheToken(callsrecv, callssent);
      }
    }

    /** What a fiber does before it takes the mutex, to be seen by those who call cancel. */
    method BeginDoneCriticalSection(cpuid: nat)
      requires Valid() && cpuid < ncpus
      modifies this`tryingToSleep, critical
      ensures tryingToSleep == old(tryingToSleep) + 1 && critical[..] == old(critical[..])[cpuid := true]
      ensures View() == old(View())
    {
      tryingToSleep := tryingToSleep + 1;
      critical[cpuid] := true;
    }

    /** What it does last, with the mutex released again, whichever way it leaves its section. */
    method LeaveCriticalSection(cpuid: nat)
      requires Valid() && cpuid < ncpus && tryingToSleep > 0
      modifies this`tryingToSleep, critical
      ensures tryingToSleep == old(tryingToSleep) - 1 && critical[..] == old(critical[..])[cpuid := false]
      ensures View() == old(View())
    {
      critical[cpuid] := false;
      tryingToSleep := tryingToSleep - 1;
    }

    /** A fiber that looks, finds work and cancels its section leaves no trace. */
    method LookAndCancel(cpuid: nat)
      requires Valid() && cpuid < ncpus && !critical[cpuid]
      modifies this`tryingToSleep, critical
      ensures tryingToSleep == old(tryingToSleep) && critical[..] == old(critical[..]) && View() == old(View())
    {
      BeginDoneCriticalSection(cpuid);
      LeaveCriticalSection(cpuid);
    }

    /** end_done_critical_section down to the first wait: true when the fiber quits at once. */
    method EndDoneCriticalSection(cpuid: nat, callsrecv: nat, callssent: nat)
      returns (quit: bool, out: Outcome, woken: seq<nat>)
      requires Valid() && cpuid < ncpus && Accounted(View()) && !sleeping[cpuid] && numactive > 0 && tryingToSleep > 0
      modifies this, critical, sleeping
      ensures quit == old(done) && Accounted(View())
      ensures tryingToSleep == old(tryingToSleep) - (if quit then 1 else 0)
      ensures critical[..] == if quit then old(critical[..])[cpuid := false] else old(critical[..])
      ensures (View(), out) ==
        if old(done) then (old(View()), Quiet)
          else old(FallAsleep(View(), cpuid, procid, numprocs, callsrecv, callssent))
      ensures if out.Complete? then (set w | w in woken) == old(AllWaiters(numactive - 1)) else woken == []
    {
      FallAsleepAccounted(View(), cpuid, procid, numprocs, callsrecv, callssent);
      quit, out, woken := done, Quiet, [];
      if done {
        LeaveCriticalSection(cpuid);
      } else {
        numactive := numactive - 1;
        if numactive == 0 {
          if hastoken { out, woken := PassTheToken(callsrecv, callssent); }
        }
        sleeping[cpuid] := true;
      }
    }
  }
}

/** The cluster's steps and the locked sections of one machine are the same thing: with nothing in between the
    two counter reads, a step and the fold it begins do what ReceiveToken and FallAsleep say. */
module ConsensusSteps {
  import opened Options
  import opened Consensus
  import opened TerminationDetection
  import opened TerminationProof

  /** The cluster after machine i has gone to `l` and handed `out` to the network. */
  function Emitted(s: Sys, i: nat, l: Local, out: Outcome): Sys
    requires i < Procs(s)
  {
    var t := s.(ms := s.ms[i := l]);
    match out
    case Quiet => t
    case Forward(to, token) => t.(token := Some(InFlight(to, token)))
    case Complete(force) => t.(forced := t.forced + set j | j in force)
  }

  /** A step, and the rest of the pass it has begun, if it has. */
  ghost predicate Uninterrupted(s: Sys, a: Action, u: Sys)
    requires Shaped(s) && Enabled(s, a)
  {
    var t := Step(s, a);
    if t.folding.Some? then Shaped(t) && Enabled(t, FinishFold) && u == Step(t, FinishFold) else u == t
  }

  lemma TokenReceivedAtOnce(s: Sys, u: Sys)
    requires Shaped(s) && Enabled(s, TakeToken) && s.folding.None? && Uninterrupted(s, TakeToken, u)
    ensures var i := s.token.value.to;
      var (l, out) := ReceiveToken(s.ms[i], s.token.value.token, i, Procs(s), s.received[i], s.sent[i]);
      u == Emitted(s.(token := None), i, l, out)
  {
    TakeTokenShapes(s);
    var i, l := s.token.value.to, Holding(s);
    var last := Passed(l, i, s.received[i], s.sent[i]);
    assert s.ms[i := l][i := last] == s.ms[i := last];
  }

  /** The same of the section in which a fiber falls asleep; one that finds `done` set only leaves. */
  lemma AsleepAtOnce(s: Sys, i: nat, c: nat, u: Sys)
    requires Shaped(s) && Enabled(s, EndDone(i, c)) && s.folding.None? && Uninterrupted(s, EndDone(i, c), u)
    ensures s.ms[i].done ==> u == s.(pcs := SetPc(s, i, c, Exited))
    ensures !s.ms[i].done && s.ms[i].numactive > 0 ==>
      var (l, out) := FallAsleep(s.ms[i], c, i, Procs(s), s.received[i], s.sent[i]);
      u == Emitted(s.(pcs := SetPc(s, i, c, if out.Complete? then Exited else Waiting)), i, l, out)
  {
    if !s.ms[i].done && s.ms[i].numactive > 0 {
      EndDoneShapes(s, i, c);
      var l := s.ms[i].(numactive := s.ms[i].numactive - 1);
      var last := Passed(l, i, s.received[i], s.sent[i]).(sleeping := l.sleeping[c := true]);
      assert s.ms[i := l][i := last] == s.ms[i := last];
    }
  }
}

/** libfault replication: a master publishes its changes, a replica buffers them, installs a
    snapshot, plays the buffer back and follows. */
module Replication {
  import opened Options
  import opened QueryObject

  /** A published message, under the version the master had before it. */
  datatype Publication<+M> = Publication(version: nat, message: Message<M>)

  function Quiet<M>(m: Message<M>): Message<M> { m.(flags := m.flags.(noReply := true)) }

  // ---- What the two servers do, as functions ----

  /** Everything in the list applied in turn, whatever its version. */
  function Replay<S(!new), M(!new)>(b: Behaviour<S, M>, v: Versioned<S>, ps: seq<Publication<M>>): Versioned<S> {
    if ps == [] then v else Process(b, Replay(b, v, ps[..|ps| - 1]), ps[|ps| - 1].message)
  }

  /** The buffer applied in turn, without what is older than the object is by then. */
  function Playback<S(!new), M(!new)>(b: Behaviour<S, M>, v: Versioned<S>, ps: seq<Publication<M>>): Versioned<S> {
    if ps == [] then v else
      var before := Playback(b, v, ps[..|ps| - 1]);
      var last := ps[|ps| - 1];
      if last.version >= before.version then Process(b, before, last.message) else before
  }

  class Master<S(!new), M(!new)> {
    const qobj: QueryObject<S, M>
    var published: seq<Publication<M>>

    constructor (qobj: QueryObject<S, M>)
      ensures this.qobj == qobj && published == []
    {
      this.qobj, published := qobj, [];
    }

    /** Handles a request; a change is published under the version before it. */
    method ReplyCallback(recv: Message<M>) returns (reply: Reply<S>)
      modifies this, qobj
      ensures qobj.Now() == Process(qobj.behaviour, old(qobj.Now()), recv)
      ensures published == old(published) +
        if recv.flags.update && !recv.flags.serialized && old(qobj.behaviour.changes(qobj.state, recv.body))
        then [Publication(old(qobj.version), recv)] else []
      ensures recv.flags.serialized && !recv.flags.noReply ==> reply == Contents(old(qobj.state), old(qobj.version))
    {
      var version := qobj.version;
      var changed;
      changed, reply := qobj.ProcessMessage(recv);
      if changed {
        published := published + [Publication(version, recv)];
      }
    }
  }

  class Replica<S(!new), M(!new)> {
    const qobj: QueryObject<S, M>
    var waitingForSnapshot: bool
    var bufferedMessages: seq<Publication<M>>

    constructor (qobj: QueryObject<S, M>)
      ensures this.qobj == qobj && waitingForSnapshot && bufferedMessages == []
    {
      this.qobj, waitingForSnapshot, bufferedMessages := qobj, true, [];
    }

    /** The snapshot replaces the object, and what was buffered is played back. */
    method HandOver(snapshot: Versioned<S>)
      modifies this, qobj
      ensures !waitingForSnapshot && bufferedMessages == []
      ensures qobj.Now() == Playback(qobj.behaviour, snapshot, old(bufferedMessages))
    {
      waitingForSnapshot := false;
      qobj.Deserialize(snapshot);
      PlaybackRecordedMessages();
    }

    method PlaybackRecordedMessages()
      modifies this, qobj
      ensures bufferedMessages == [] && waitingForSnapshot == old(waitingForSnapshot)
      ensures qobj.Now() == Playback(qobj.behaviour, old(qobj.Now()), old(bufferedMessages))
    {
      for i := 0 to |bufferedMessages|
        invariant bufferedMessages == old(bufferedMessages) && waitingForSnapshot == old(waitingForSnapshot)
        invariant qobj.Now() == Playback(qobj.behaviour, old(qobj.Now()), bufferedMessages[..i])
      {
        assert bufferedMessages[..i + 1][..i] == bufferedMessages[..i];
        var p := bufferedMessages[i];
        if p.version >= qobj.version {
          var _, _ := qobj.ProcessMessage(Quiet(p.message));
        }
      }
      assert bufferedMessages[..|bufferedMessages|] == bufferedMessages;
      bufferedMessages := [];
    }

    /** While waiting, messages are kept; afterwards each one is applied, and one whose version is
        not the object's is only reported. */
    method SubscribeCallback(recv: Publication<M>) returns (diverged: bool)
      modifies this, qobj
      ensures waitingForSnapshot == old(waitingForSnapshot)
      ensures bufferedMessages == old(bufferedMessages) + if waitingForSnapshot then [recv] else []
      ensures qobj.Now() == if waitingForSnapshot then old(qobj.Now())
        else Process(qobj.behaviour, old(qobj.Now()), recv.message)
      ensures diverged <==> !waitingForSnapshot && recv.version != old(qobj.version)
    {
      if waitingForSnapshot {
        bufferedMessages := bufferedMessages + [recv];
        return false;
      }
      diverged := recv.version != qobj.version;
      var _, _ := qobj.ProcessMessage(Quiet(recv.message));
    }
  }

  // ---- A master, a replica, and the messages between them ----

  /** from, delivered: how much was published when the replica subscribed, and how much has reached
      it (or went out before). handedOver: how much had reached it when the snapshot was installed. */
  datatype Net<S, M> = Net(
    master: Versioned<S>, published: seq<Publication<M>>,
    subscribed: bool, from: nat, delivered: nat,
    snapshot: Option<Versioned<S>>,
    waiting: bool, buffered: seq<Publication<M>>, replica: Versioned<S>, handedOver: nat)

  datatype Action<M> =
    | Request(message: Message<M>)  // the master handles a request
    | Subscribe                     // the replica's constructor
    | Serve                         // the master handles the replica's request for its contents
    | Deliver                       // the next publication reaches the replica
    | Install                       // the contents reach the replica

  function Start<S(!new), M(!new)>(b: Behaviour<S, M>): Net<S, M> {
    var v := Versioned(b.initial, 0);
    Net(v, [], false, 0, 0, None, true, [], v, 0)
  }

  predicate Enabled<S(!new), M(!new)>(n: Net<S, M>, a: Action<M>) {
    match a
    case Request(_) => true
    case Subscribe => !n.subscribed
    case Serve => n.subscribed && n.snapshot.None?
    case Deliver => n.subscribed && n.delivered < |n.published|
    case Install => n.waiting && n.snapshot.Some?
  }

  function Step<S(!new), M(!new)>(b: Behaviour<S, M>, n: Net<S, M>, a: Action<M>): Net<S, M>
    requires Enabled(n, a)
  {
    match a
    case Request(m) =>
      var after := Process(b, n.master, m);
      n.(master := after,
         published := n.published + if after.version != n.master.version then [Publication(n.master.version, m)]
           else [])
    case Subscribe => n.(subscribed := true, from := |n.published|, delivered := |n.published|)
    case Serve => n.(snapshot := Some(n.master))
    case Deliver =>
      var p := n.published[n.delivered];
      var n' := n.(delivered := n.delivered + 1);
      if n.waiting then n'.(buffered := n.buffered + [p]) else n'.(replica := Process(b, n.replica, p.message))
    case Install =>
      n.(waiting := false, buffered := [], handedOver := n.delivered,
        replica := Playback(b, n.snapshot.value, n.buffered))
  }

  ghost predicate Reachable<S(!new), M(!new)>(b: Behaviour<S, M>, n: Net<S, M>, run: seq<Action<M>>)
    decreases |run|
  {
    if run == [] then n == Start(b) else
      var earlier := run[..|run| - 1];
      exists before :: Reachable(b, before, earlier) && Leads(b, before, run[|run| - 1], n)
  }

  ghost predicate Leads<S(!new), M(!new)>(b: Behaviour<S, M>, n: Net<S, M>, a: Action<M>, n': Net<S, M>) {
    Enabled(n, a) && n' == Step(b, n, a)
  }

  /** The object after the master's first k changes. */
  function Prefix<S(!new), M(!new)>(b: Behaviour<S, M>, ps: seq<Publication<M>>, k: nat): Versioned<S>
    requires k <= |ps|
  {
    Replay(b, Versioned(b.initial, 0), ps[..k])
  }

  // ---- Invariants ----

  ghost predicate Numbered<S(!new), M(!new)>(b: Behaviour<S, M>, ps: seq<Publication<M>>) {
    && (forall k :: 0 <= k <= |ps| ==> Prefix(b, ps, k).version == k)
    && (forall k :: 0 <= k < |ps| ==> ps[k].version == k)
  }

  ghost predicate PublishedRight<S(!new), M(!new)>(b: Behaviour<S, M>, n: Net<S, M>) {
    n.master == Prefix(b, n.published, |n.published|) && Numbered(b, n.published)
  }

  ghost predicate ReplicaRight<S(!new), M(!new)>(b: Behaviour<S, M>, n: Net<S, M>) {
    && (!n.subscribed ==> n.waiting && n.snapshot.None? && n.from == n.delivered == 0)
    && n.from <= n.delivered <= |n.published|
    && (n.waiting ==> n.buffered == n.published[n.from..n.delivered])
    && (n.snapshot.Some? ==> n.from <= n.snapshot.value.version <= |n.published| &&
                             n.snapshot.value == Prefix(b, n.published, n.snapshot.value.version))
    && (!n.waiting ==> n.snapshot.Some? && n.handedOver <= n.delivered && n.replica == Followed(b, n))
  }

  /** Where the replica is after the hand-over: at the prefix delivered so far, unless publications older
      than the snapshot were still on their way; then those, and all after them, came on top of the snapshot. */
  function Followed<S(!new), M(!new)>(b: Behaviour<S, M>, n: Net<S, M>): Versioned<S>
    requires n.handedOver <= n.delivered <= |n.published| && n.snapshot.Some?
  {
    if n.handedOver >= n.snapshot.value.version then Prefix(b, n.published, n.delivered)
    else Replay(b, n.snapshot.value, n.published[n.handedOver..n.delivered])
  }

  lemma ReplayOneMore<S(!new), M(!new)>(b: Behaviour<S, M>, v: Versioned<S>, ps: seq<Publication<M>>, i: nat, j: nat)
    requires i <= j < |ps|
    ensures Replay(b, v, ps[i..j + 1]) == Process(b, Replay(b, v, ps[i..j]), ps[j].message)
  {
    assert ps[i..j + 1][..j - i] == ps[i..j];
  }

  lemma PrefixOneMore<S(!new), M(!new)>(b: Behaviour<S, M>, ps: seq<Publication<M>>, k: nat)
    requires k < |ps|
    ensures Prefix(b, ps, k + 1) == Process(b, Prefix(b, ps, k), ps[k].message)
  {
    assert ps[..k + 1][..k] == ps[..k];
  }

  lemma PrefixesStay<S(!new), M(!new)>(b: Behaviour<S, M>, ps: seq<Publication<M>>, longer: seq<Publication<M>>)
    requires ps <= longer
    ensures forall k :: 0 <= k <= |ps| ==> Prefix(b, longer, k) == Prefix(b, ps, k)
  {
    forall k | 0 <= k <= |ps| ensures Prefix(b, longer, k) == Prefix(b, ps, k) {
      assert longer[..k] == ps[..k];
    }
  }

  /** Playing back a buffer that starts no later than the snapshot skips what the snapshot has and applies the
      rest once. */
  lemma {:induction false} PlaybackSkips<S(!new),
    M(!new)>(b: Behaviour<S, M>, ps: seq<Publication<M>>, from: nat, s: nat, j: nat)
    requires Numbered(b, ps) && from <= j <= |ps| && from <= s <= |ps|
    ensures Playback(b, Prefix(b, ps, s), ps[from..j]) == Prefix(b, ps, if j >= s then j else s)
    decreases j
  {
    hide Replay, Process;
    if j > from {
      PlaybackSkips(b, ps, from, s, j - 1);
      hide Prefix;
      assert ps[from..j][..j - 1 - from] == ps[from..j - 1];
      PrefixOneMore(b, ps, j - 1);
    }
  }

  /** More publications are nothing to the replica until they arrive. */
  lemma ReplicaWaits<S(!new), M(!new)>(b: Behaviour<S, M>, n: Net<S, M>, n': Net<S, M>)
    requires ReplicaRight(b, n) && n.published <= n'.published
    requires n' == n.(master := n'.master, published := n'.published)
    ensures ReplicaRight(b, n')
  {
    PrefixesStay(b, n.published, n'.published);
    hide Replay, Process, Prefix;
    assert n'.published[n.from..n.delivered] == n.published[n.from..n.delivered];
    if !n.waiting { assert n'.published[n.handedOver..n.delivered] == n.published[n.handedOver..n.delivered]; }
  }

  lemma RequestKeeps<S(!new), M(!new)>(b: Behaviour<S, M>, n: Net<S, M>, m: Message<M>)
    requires b.Honest() && PublishedRight(b, n)
    ensures PublishedRight(b, Step(b, n, Request(m)))
  {
    var n' := Step(b, n, Request(m));
    assert n'.master == Process(b, n.master, m);
    assert n'.master.version == n.master.version ==> n'.master == n.master;
    assert n'.master.version <= n.master.version + 1;
    hide Replay, Process, Prefix;
    PrefixesStay(b, n.published, n'.published);
    if |n'.published| > |n.published| { PrefixOneMore(b, n'.published, |n.published|); }
  }

  lemma DeliverKeeps<S(!new), M(!new)>(b: Behaviour<S, M>, n: Net<S, M>)
    requires ReplicaRight(b, n) && Enabled(n, Deliver)
    ensures ReplicaRight(b, Step(b, n, Deliver))
  {
    hide Replay, Prefix, Process;
    var d := n.delivered;
    if n.waiting {
      assert n.published[n.from..d + 1] == n.published[n.from..d] + [n.published[d]];
    } else if n.handedOver >= n.snapshot.value.version {
      PrefixOneMore(b, n.published, d);
    } else {
      ReplayOneMore(b, n.snapshot.value, n.published, n.handedOver, d);
    }
  }

  lemma StepKeeps<S(!new), M(!new)>(b: Behaviour<S, M>, n: Net<S, M>, a: Action<M>)
    requires b.Honest() && PublishedRight(b, n) && ReplicaRight(b, n) && Enabled(n, a)
    ensures PublishedRight(b, Step(b, n, a)) && ReplicaRight(b, Step(b, n, a))
  {
    match a
    case Request(m) =>
      RequestKeeps(b, n, m);
      ReplicaWaits(b, n, Step(b, n, a));
    case Deliver => DeliverKeeps(b, n);
    case Install =>
      PlaybackSkips(b, n.published, n.from, n.snapshot.value.version, n.delivered);
      assert n.published[n.delivered..n.delivered] == [];
    case _ =>
  }

  lemma {:induction false} ReachableRight<S(!new), M(!new)>(b: Behaviour<S, M>, n: Net<S, M>, run: seq<Action<M>>)
    requires b.Honest() && Reachable(b, n, run)
    ensures PublishedRight(b, n) && ReplicaRight(b, n)
    decreases |run|
  {
    if run != [] {
      var before :| Reachable(b, before, run[..|run| - 1]) && Leads(b, before, run[|run| - 1], n);
      ReachableRight(b, before, run[..|run| - 1]);
      StepKeeps(b, before, run[|run| - 1]);
    }
  }

  // ---- Prefix consistency ----

  /** Nothing older than the snapshot was still on its way when it was installed. */
  predicate CaughtUp<S(!new), M(!new)>(n: Net<S, M>)
    requires n.snapshot.Some?
  {
    n.handedOver >= n.snapshot.value.version
  }

  /** If the replica had caught up with the snapshot when it installed it, then from there on it is at
      version v the fold of the master's first v changes, each applied once, whatever the overlap of
      buffer and snapshot; with everything delivered it is the master. */
  lemma PrefixConsistency<S(!new), M(!new)>(b: Behaviour<S, M>, n: Net<S, M>, run: seq<Action<M>>)
    requires b.Honest() && Reachable(b, n, run) && !n.waiting
    ensures n.snapshot.Some? && n.delivered <= |n.published|
    ensures CaughtUp(n) ==> n.replica == Prefix(b, n.published, n.delivered) && n.replica.version == n.delivered
    ensures CaughtUp(n) && n.delivered == |n.published| ==> n.replica == n.master
  {
    ReachableRight(b, n, run);
  }

  /** The master's object is the fold of what it published, which carries the versions 0, 1, 2 and so on. */
  lemma MasterIsTheFold<S(!new), M(!new)>(b: Behaviour<S, M>, n: Net<S, M>, run: seq<Action<M>>)
    requires b.Honest() && Reachable(b, n, run)
    ensures n.master == Prefix(b, n.published, |n.published|) && n.master.version == |n.published|
    ensures forall k :: 0 <= k < |n.published| ==> n.published[k].version == k
  {
    ReachableRight(b, n, run);
  }

  /** The requests of a run, in order. */
  function Requests<M>(run: seq<Action<M>>): seq<Message<M>> {
    if run == [] then [] else
      Requests(run[..|run| - 1]) + if run[|run| - 1].Request? then [run[|run| - 1].message] else []
  }

  predicate IsUpdate<M>(m: Message<M>) { m.flags.update && !m.flags.serialized }

  /** The object's own state after the updates among the requests. */
  function Updated<S(!new), M(!new)>(b: Behaviour<S, M>, ms: seq<Message<M>>): S {
    if ms == [] then b.initial else
      var before := Updated(b, ms[..|ms| - 1]);
      if IsUpdate(ms[|ms| - 1]) then b.apply(before, ms[|ms| - 1].body) else before
  }

  /** The updates among the requests that reported a change, numbered from 0. */
  function Reported<S(!new), M(!new)>(b: Behaviour<S, M>, ms: seq<Message<M>>): seq<Publication<M>> {
    if ms == [] then [] else
      var before, last := ms[..|ms| - 1], ms[|ms| - 1];
      Reported(b, before) +
      if IsUpdate(last) && b.changes(Updated(b, before), last.body) then [Publication(|Reported(b, before)|, last)]
      else []
  }

  lemma OneMoreRequest<S(!new), M(!new)>(b: Behaviour<S, M>, ms: seq<Message<M>>, m: Message<M>)
    ensures var s := Updated(b, ms);
      && Updated(b, ms + [m]) == (if IsUpdate(m) then b.apply(s, m.body) else s)
      && Reported(b, ms + [m]) == Reported(b, ms) +
           if IsUpdate(m) && b.changes(s, m.body) then [Publication(|Reported(b, ms)|, m)] else []
  {
    assert (ms + [m])[..|ms|] == ms;
  }

  lemma RequestPublishes<S(!new), M(!new)>(b: Behaviour<S, M>, n: Net<S, M>, ms: seq<Message<M>>, m: Message<M>)
    requires n.published == Reported(b, ms) && n.master == Versioned(Updated(b, ms), |n.published|)
    ensures var n' := Step(b, n, Request(m));
      n'.published == Reported(b, ms + [m]) && n'.master == Versioned(Updated(b, ms + [m]), |n'.published|)
  {
    OneMoreRequest(b, ms, m);
    hide Updated, Reported;
  }

  /** A master publishes exactly the updates that reported a change, in order, each under the number of those
      before it; that number is its version. */
  lemma {:induction false} PublishesWhatChanged<S(!new), M(!new)>(b: Behaviour<S, M>, n: Net<S, M>, run: seq<Action<M>>)
    requires Reachable(b, n, run)
    ensures n.published == Reported(b, Requests(run))
    ensures n.master == Versioned(Updated(b, Requests(run)), |n.published|)
    decreases |run|
  {
    hide Updated, Reported, Process, Playback;
    if run == [] {
      NothingReported(b);
    } else {
      var earlier, last := run[..|run| - 1], run[|run| - 1];
      var before :| Reachable(b, before, earlier) && Leads(b, before, last, n);
      PublishesWhatChanged(b, before, earlier);
      if last.Request? {
        RequestPublishes(b, before, Requests(earlier), last.message);
        assert Requests(run) == Requests(earlier) + [last.message];
      } else {
        assert Requests(run) == Requests(earlier);
      }
    }
  }

  /** The subscription starts with what has been published by then, and the contents are the master's when they
      are served. */
  lemma {:induction false} TakenWhen<S(!new), M(!new)>(b: Behaviour<S, M>, n: Net<S, M>, run: seq<Action<M>>, k: nat)
    requires Reachable(b, n, run) && k < |run|
    ensures run[k].Subscribe? ==> n.subscribed && n.from == |Reported(b, Requests(run[..k]))|
    ensures run[k].Serve? ==>
      n.snapshot == Some(Versioned(Updated(b, Requests(run[..k])), |Reported(b, Requests(run[..k]))|))
    decreases |run|
  {
    hide Updated, Reported, Process, Playback, Requests;
    var earlier, last := run[..|run| - 1], run[|run| - 1];
    var before :| Reachable(b, before, earlier) && Leads(b, before, last, n);
    if k < |earlier| {
      assert earlier[..k] == run[..k] && earlier[k] == run[k];
      TakenWhen(b, before, earlier, k);
    } else {
      assert run[..k] == earlier;
      PublishesWhatChanged(b, before, earlier);
    }
  }

  lemma NothingReported<S(!new), M(!new)>(b: Behaviour<S, M>)
    ensures Updated(b, []) == b.initial && Reported(b, []) == []
  {
  }

  /** What decides it can be seen when the snapshot is installed: no version is missing between the end
      of the buffer, or the start of the subscription, and the snapshot. */
  lemma CaughtUpBeforeInstall<S(!new), M(!new)>(b: Behaviour<S, M>, n: Net<S, M>, run: seq<Action<M>>)
    requires b.Honest() && Reachable(b, n, run) && Enabled(n, Install)
    ensures n.buffered == [] ==> (CaughtUp(Step(b, n, Install)) <==> n.snapshot.value.version == n.from)
    ensures n.buffered != [] ==>
      (CaughtUp(Step(b, n, Install)) <==> n.buffered[|n.buffered| - 1].version + 1 >= n.snapshot.value.version)
  {
    ReachableRight(b, n, run);
    hide Prefix, Playback;
  }

  /** The updates report a change every time, as the interface allows. */
  ghost predicate AlwaysChanges<S(!new), M(!new)>(b: Behaviour<S, M>) {
    forall s, m :: b.changes(s, m)
  }

  lemma {:induction false} EveryReplayCounts<S(!new),
    M(!new)>(b: Behaviour<S, M>, ps: seq<Publication<M>>, v: Versioned<S>, i: nat, j: nat)
    requires AlwaysChanges(b) && Numbered(b, ps) && i <= j <= |ps|
    ensures Replay(b, v, ps[i..j]).version == v.version + (j - i)
    decreases j
  {
    if i < j {
      EveryReplayCounts(b, ps, v, i, j - 1);
      ReplayOneMore(b, v, ps, i, j - 1);
      hide Replay, Prefix;
      PrefixOneMore(b, ps, j - 1);
      assert Prefix(b, ps, j).version == Prefix(b, ps, j - 1).version + 1;
    } else {
      assert ps[i..j] == [];
    }
  }

  /** Without that, and with updates that report a change each time, the replica runs ahead of the master
      by exactly the late messages, for good; it meets the master again exactly if there were none, and
      the divergence message is printed exactly if there were some. */
  lemma LateMessagesCountTwice<S(!new), M(!new)>(b: Behaviour<S, M>, n: Net<S, M>, run: seq<Action<M>>)
    requires AlwaysChanges(b) && Reachable(b, n, run) && !n.waiting
    ensures n.snapshot.Some?
    ensures n.replica.version == n.delivered + if CaughtUp(n) then 0 else n.snapshot.value.version - n.handedOver
    ensures n.delivered == |n.published| ==> (n.replica == n.master <==> CaughtUp(n))
    ensures n.delivered < |n.published| ==> (n.published[n.delivered].version != n.replica.version <==> !CaughtUp(n))
  {
    ReachableRight(b, n, run);
    if !CaughtUp(n) {
      EveryReplayCounts(b, n.published, n.snapshot.value, n.handedOver, n.delivered);
    }
  }

  ghost function Update<M>(body: M): Message<M> { Message(Flags(false, true, false, false), body) }

  /** It happens: one update published while the contents are fetched, and delivered after them. */
  lemma LateMessageHappens<S(!new), M(!new)>(b: Behaviour<S, M>, body: M) returns (n: Net<S, M>, run: seq<Action<M>>)
    requires AlwaysChanges(b)
    ensures Reachable(b, n, run) && !n.waiting && n.delivered == |n.published| == 1
    ensures n.replica.state == b.apply(n.master.state, body) && n.replica.version == n.master.version + 1
  {
    var n0 := Start(b);
    var n1 := Step(b, n0, Subscribe);
    var n2 := Step(b, n1, Request(Update(body)));
    var n3 := Step(b, n2, Serve);
    var n4 := Step(b, n3, Install);
    n := Step(b, n4, Deliver);
    run := [Subscribe, Request(Update(body)), Serve, Install, Deliver];
    assert Reachable(b, n0, []);
    assert run[..1][..0] == [] && run[..2][..1] == run[..1] && run[..3][..2] == run[..2] && run[..4][..3] == run[..3]
      && run[..4] == run[..|run| - 1];
    assert Leads(b, n0, run[0], n1) && Leads(b, n1, run[1], n2) && Leads(b, n2, run[2], n3) && Leads(b, n3, run[3], n4)
      && Leads(b, n4, run[4], n);
    assert Reachable(b, n1, run[..1]);
    assert Reachable(b, n2, run[..2]);
    assert Reachable(b, n3, run[..3]);
    assert Reachable(b, n4, run[..4]);
  }
}

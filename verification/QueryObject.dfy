/** query_object: a versioned object driven by flagged messages. */
module QueryObject {

  /** The deterministic object behind the interface: what an update does and whether it says so. */
  datatype Behaviour<!S(!new), !M(!new)> = Behaviour(initial: S, apply: (S, M) -> S, changes: (S, M) -> bool)
  {
    /** An update that reports no change made none; one that reports a change need not have made any. */
    ghost predicate Honest() {
      forall s, m :: !changes(s, m) ==> apply(s, m) == s
    }
  }

  datatype Flags = Flags(query: bool, update: bool, noReply: bool, serialized: bool)

  datatype Message<+M> = Message(flags: Flags, body: M)

  datatype Versioned<+S> = Versioned(state: S, version: nat)

  datatype Reply<+S> = NoReply | Contents(state: S, version: nat) | Answer(version: nat)

  /** What a message does to the object: only an update counts, and asking for the contents wins over it. */
  function Process<S(!new), M(!new)>(b: Behaviour<S, M>, v: Versioned<S>, m: Message<M>): Versioned<S> {
    if m.flags.serialized || !m.flags.update then v
    else Versioned(b.apply(v.state, m.body), v.version + if b.changes(v.state, m.body) then 1 else 0)
  }

  class QueryObject<S(!new), M(!new)> {
    const behaviour: Behaviour<S, M>
    var state: S
    var version: nat

    constructor (behaviour: Behaviour<S, M>)
      ensures this.behaviour == behaviour && Now() == Versioned(behaviour.initial, 0)
    {
      this.behaviour, state, version := behaviour, behaviour.initial, 0;
    }

    function Now(): Versioned<S>
      reads this
    {
      Versioned(state, version)
    }

    method ProcessMessage(m: Message<M>) returns (changed: bool, reply: Reply<S>)
      modifies this
      ensures Now() == Process(behaviour, old(Now()), m)
      ensures changed <==> m.flags.update && !m.flags.serialized && old(behaviour.changes(state, m.body))
      ensures version == old(version) + if changed then 1 else 0
      ensures state == if m.flags.update && !m.flags.serialized then behaviour.apply(old(state), m.body) else old(state)
      ensures reply.NoReply? <==> m.flags.noReply
      ensures !m.flags.noReply ==> reply == if m.flags.serialized then Contents(state, version) else Answer(version)
    {
      changed := false;
      if m.flags.serialized {
      } else if m.flags.update {
        var oldVersion := version;
        var modified := behaviour.changes(state, m.body);
        state := behaviour.apply(state, m.body);
        if modified { version := version + 1; }
        changed := oldVersion != version;
      }
      reply := if m.flags.noReply then NoReply else if m.flags.serialized then Contents(state, version)
        else Answer(version);
    }

    method Deserialize(contents: Versioned<S>)
      modifies this
      ensures Now() == contents
    {
      state, version := contents.state, contents.version;
    }
  }
}

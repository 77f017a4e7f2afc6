/** Streams and the consumer group: internal/redis/broker.go. */
module RedisBroker {
  import opened Prelude
  import opened Messages

  /** The consumer group: entries below `start` precede it, those below `next` were delivered to some process. */
  datatype Group = Group(exists_: bool, start: nat, next: nat, pending: set<nat>, acked: set<nat>)

  const NO_GROUP := Group(false, 0, 0, {}, {})

  /** XGROUP CREATE MKSTREAM; an existing group answers BUSYGROUP and keeps its cursor. */
  function CreateGroup(g: Group, at: nat): Group {
    if g.exists_ then g else Group(true, at, at, {}, {})
  }

  /** XREADGROUP with `>` and COUNT 1: the entry at the cursor becomes pending. */
  function DeliverNext(g: Group): Group {
    g.(next := g.next + 1, pending := g.pending + {g.next})
  }

  /** XACK; it has no effect on an entry that is not pending. */
  function Acknowledge(g: Group, id: nat): Group {
    if id in g.pending then g.(pending := g.pending - {id}, acked := g.acked + {id}) else g
  }

  /** A group that is being read: what was delivered is pending or acknowledged. */
  ghost predicate GroupOk(g: Group, length: nat) {
    && g.start <= g.next <= length
    && g.pending !! g.acked
    && (forall id :: (id in g.pending || id in g.acked) <==> g.start <= id < g.next)
  }

  /** The broker Redis as one process sees it: the input stream with its group, and the streams written to. */
  class Broker<V> {
    var input: seq<Entry>
    var group: Group
    var streams: map<string, seq<V>>

    constructor (input: seq<Entry>)
      ensures this.input == input && group == NO_GROUP && streams == map[]
    {
      this.input, this.group, this.streams := input, NO_GROUP, map[];
    }

    ghost predicate Valid()
      reads this
    {
      group.exists_ ==> GroupOk(group, |input|)
    }

    function Stream(name: string): seq<V>
      reads this
    {
      if name in streams then streams[name] else []
    }

    /** Clients append requests to the input stream. */
    method Arrive(entries: seq<Entry>)
      requires Valid()
      modifies this`input
      ensures Valid() && input == old(input) + entries
    {
      input := input + entries;
    }

    /** Creates the group unless it exists. `startId` is None for "" and "$", the end of the stream. */
    method EnsureConsumerGroup(startId: Option<nat>, reply: Reply) returns (ok: bool)
      requires Valid() && (startId.Some? ==> startId.value <= |input|)
      modifies this`group
      ensures Valid() && ok == reply.Ok?
      ensures group == if reply.Applied() then CreateGroup(old(group), if startId.Some? then startId.value else |input|)
                       else old(group)
      ensures old(group.exists_) || !reply.Applied() ==> group == old(group)
      ensures !old(group.exists_) && reply.Applied() ==>
        group.exists_ && group.start == group.next == (if startId.Some? then startId.value else |input|)
    {
      var at := if startId.Some? then startId.value else |input|;
      if reply.Applied() {
        group := CreateGroup(group, at);
      }
      return reply.Ok?;
    }

    /**
     * Reads at most one entry. An entry that is returned was never delivered before,
     * and is pending from now on; nothing else is taken from the pending entries.
     */
    method ReadGroup(reply: Reply) returns (r: Option<nat>)
      requires Valid()
      modifies this`group
      ensures Valid()
      ensures group ==
        if reply.Applied() && old(group.exists_) && old(group.next) < |input| then DeliverNext(old(group))
        else old(group)
      ensures r.Some? <==> reply.Ok? && old(group.exists_) && old(group.next) < |input|
      ensures r.Some? ==>
        && old(group.start) <= r.value < |input|
        && r.value !in old(group.pending) && r.value !in old(group.acked)
        && group.pending == old(group.pending) + {r.value}
        && group.next == r.value + 1
      ensures group.acked == old(group.acked) && old(group.pending) <= group.pending
      ensures group.exists_ == old(group.exists_) && group.start == old(group.start) && old(group.next) <= group.next
      ensures !reply.Applied() ==> group == old(group)
    {
      r := None;
      if reply.Applied() && group.exists_ && group.next < |input| {
        if reply.Ok? {
          r := Some(group.next);
        }
        group := DeliverNext(group);
      }
    }

    /** Acknowledges one delivered entry. */
    method Ack(id: nat, reply: Reply)
      requires Valid()
      modifies this`group
      ensures Valid()
      ensures group == if reply.Applied() then Acknowledge(old(group), id) else old(group)
      ensures reply.Applied() && id in old(group.pending) ==>
        group.pending == old(group.pending) - {id} && group.acked == old(group.acked) + {id}
      ensures !reply.Applied() || id !in old(group.pending) ==> group == old(group)
      ensures group.exists_ == old(group.exists_) && group.start == old(group.start) && group.next == old(group.next)
    {
      if reply.Applied() {
        group := Acknowledge(group, id);
      }
    }

    /** XADD without trimming: the entry goes to the end of its stream and to no other. */
    method AddToStream(name: string, value: V, reply: Reply) returns (ok: bool)
      modifies this`streams
      ensures ok == reply.Ok?
      ensures Stream(name) == old(Stream(name)) + if reply.Applied() then [value] else []
      ensures forall other :: other != name ==> Stream(other) == old(Stream(other))
    {
      if reply.Applied() {
        streams := streams[name := Stream(name) + [value]];
      }
      return reply.Ok?;
    }
  }
}

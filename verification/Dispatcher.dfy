/** The choice of sink for one item: internal/dispatcher/worker.go:60-111. */
module Dispatcher {
  import opened Prelude
  import opened Messages
  import opened RedisBackend
  import opened Rounds

  /** Where an item ends up. */
  datatype Sink =
    | Counting(routingKey: string)             // completion counter of the buffer hash
    | LiveService                              // POST of an SSE event
    | NoLiveService                            // SSE event without a configured service
    | Buffer(routingKey: string, field: string) // field of the buffer hash
    | Topic(key: string)                       // Kafka output topic
    | Stream(name: string)                     // Redis output stream
    | Nowhere                                  // nothing to send

  /** Applies the output override. */
  function Overridden(cfg: Config, routingKey: string): string {
    if cfg.overrideOutput && cfg.overrideRoutingKey != "" then cfg.overrideRoutingKey else routingKey
  }

  /** The full stream key for a routing key; the override is applied here once more. */
  function OutputStreamName(cfg: Config, routingKey: string): string {
    cfg.outputStreamPrefix + Overridden(cfg, routingKey)
  }

  function SinkOf(cfg: Config, item: Item): Sink {
    match item
    case Blank(_) => Nowhere
    case Marker(_, routingKey) => Counting(routingKey)
    case Widget(_, message, routingKey) =>
      if message.streamTech == "SSE" then (if cfg.liveServiceUrl == "" then NoLiveService else LiveService)
      else if message.streamTech == "API" then Buffer(Overridden(cfg, routingKey), FieldOf(message))
      else if cfg.useKafka && cfg.kafkaOut then Topic(Overridden(cfg, routingKey))
      else Stream(OutputStreamName(cfg, Overridden(cfg, routingKey)))
  }

  /** A sink whose content is an append-only log. */
  predicate IsLog(sink: Sink) {
    sink.LiveService? || sink.Topic? || sink.Stream?
  }

  /** Overriding in the worker and again in the stream name is overriding once. */
  lemma OverrideIsIdempotent(cfg: Config, routingKey: string)
    ensures OutputStreamName(cfg, Overridden(cfg, routingKey)) == OutputStreamName(cfg, routingKey)
  {
  }

  /** The write for `item` takes effect on some sink. */
  predicate Written(cfg: Config, item: Item, reply: Reply) {
    reply.Applied() && (SinkOf(cfg, item).Buffer? || IsLog(SinkOf(cfg, item)))
  }

  /** The handled items whose write to `sink` took effect, in the order in which they were handled. */
  function Routed(cfg: Config, handled: seq<Item>, landed: seq<bool>, sink: Sink): seq<Item>
    requires |landed| == |handled|
  {
    if handled == [] then []
    else
      var n := |handled| - 1;
      Routed(cfg, handled[..n], landed[..n], sink)
      + (if landed[n] && SinkOf(cfg, handled[n]) == sink then [handled[n]] else [])
  }

  lemma RoutedAppend(cfg: Config, handled: seq<Item>, landed: seq<bool>, item: Item, b: bool, sink: Sink)
    requires |landed| == |handled|
    ensures Routed(cfg, handled + [item], landed + [b], sink)
         == Routed(cfg, handled, landed, sink) + (if b && SinkOf(cfg, item) == sink then [item] else [])
  {
    hide SinkOf;
    assert (handled + [item])[..|handled|] == handled && (landed + [b])[..|handled|] == landed;
  }

  /** The ends of the commands one item can meet: its write, or the three commands of a completion check. */
  datatype Replies = Replies(write: Reply, look: Reply, set_: Reply)

  function Log(outputs: map<Sink, seq<Item>>, sink: Sink): seq<Item> {
    if sink in outputs then outputs[sink] else []
  }

  /** The buffer store after one item was handled. */
  function StoreAfter(cfg: Config, store: Store, item: Item, r: Replies): Store {
    match SinkOf(cfg, item)
    case Counting(rk) => CheckAlone(store, rk, r.write, r.look, r.set_)
    case Buffer(rk, field) => if r.write.Applied() then HSet(store, rk, field, Payload(item.message)) else store
    case _ => store
  }

  /** The buffer store after the first `n` items were handled, one after the other. */
  function StoreAfterAll(cfg: Config, store: Store, items: seq<Item>, replies: seq<Replies>, n: nat): Store
    requires n <= |items| && n <= |replies|
  {
    if n == 0 then store
    else StoreAfter(cfg, StoreAfterAll(cfg, store, items, replies, n - 1), items[n - 1], replies[n - 1])
  }

  /** Which of the items had their write applied. */
  function Landed(cfg: Config, items: seq<Item>, replies: seq<Replies>): (r: seq<bool>)
    requires |items| == |replies|
    ensures |r| == |items|
    ensures forall k :: 0 <= k < |items| ==> r[k] == Written(cfg, items[k], replies[k].write)
  {
    seq(|items|, k requires 0 <= k < |items| => Written(cfg, items[k], replies[k].write))
  }

  /** What the first `n` items add to a log, given how their writes end. */
  function Added(cfg: Config, items: seq<Item>, replies: seq<Replies>, n: nat, sink: Sink): seq<Item>
    requires n <= |items| && n <= |replies|
  {
    Routed(cfg, items[..n], Landed(cfg, items[..n], replies[..n]), sink)
  }

  lemma StoreAfterNone(cfg: Config, store: Store, items: seq<Item>, replies: seq<Replies>)
    ensures StoreAfterAll(cfg, store, items, replies, 0) == store
  {
  }

  /** What was handled before does not depend on what comes after. */
  lemma {:induction false} StoreAfterPrefix(cfg: Config, store: Store, items: seq<Item>, replies: seq<Replies>, n: nat,
                                            items': seq<Item>, replies': seq<Replies>)
    requires n <= |items| && n <= |replies| && items <= items' && replies <= replies'
    ensures StoreAfterAll(cfg, store, items', replies', n) == StoreAfterAll(cfg, store, items, replies, n)
  {
    hide StoreAfter;
    if n > 0 {
      StoreAfterPrefix(cfg, store, items, replies, n - 1, items', replies');
    }
  }

  lemma StoreAfterNext(cfg: Config, store: Store, items: seq<Item>, replies: seq<Replies>, item: Item, r: Replies)
    requires |items| == |replies|
    ensures StoreAfterAll(cfg, store, items + [item], replies + [r], |items| + 1)
         == StoreAfter(cfg, StoreAfterAll(cfg, store, items, replies, |items|), item, r)
  {
    hide StoreAfter;
    StoreAfterPrefix(cfg, store, items, replies, |items|, items + [item], replies + [r]);
  }

  lemma AddedNone(cfg: Config, items: seq<Item>, replies: seq<Replies>, sink: Sink)
    ensures Added(cfg, items, replies, 0, sink) == []
  {
  }

  lemma AddedGrows(cfg: Config, items: seq<Item>, replies: seq<Replies>, n: nat, sink: Sink)
    requires n < |items| && n < |replies|
    ensures Added(cfg, items, replies, n + 1, sink)
         == Added(cfg, items, replies, n, sink)
            + (if Written(cfg, items[n], replies[n].write) && SinkOf(cfg, items[n]) == sink then [items[n]] else [])
  {
    hide Written, SinkOf;
    var landed, b := Landed(cfg, items[..n], replies[..n]), Written(cfg, items[n], replies[n].write);
    assert items[..n + 1] == items[..n] + [items[n]];
    assert Landed(cfg, items[..n + 1], replies[..n + 1]) == landed + [b];
    RoutedAppend(cfg, items[..n], landed, items[n], b, sink);
  }

  lemma AddedNext(cfg: Config, items: seq<Item>, replies: seq<Replies>, item: Item, r: Replies, sink: Sink)
    requires |items| == |replies|
    ensures Added(cfg, items + [item], replies + [r], |items| + 1, sink)
         == Added(cfg, items, replies, |items|, sink)
            + (if Written(cfg, item, r.write) && SinkOf(cfg, item) == sink then [item] else [])
  {
    hide Written, SinkOf, Landed, Routed;
    assert (items + [item])[..|items|] == items == items[..|items|];
    assert (replies + [r])[..|items|] == replies == replies[..|items|];
    AddedGrows(cfg, items + [item], replies + [r], |items|, sink);
  }

  // ---- The turns of the loop ----

  /** What one turn of the loop meets: what was sent since the last one, and the ends of its commands. */
  datatype WorkerTurn = WorkerTurn(arrivals: seq<Item>, replies: Replies)

  /** The queue, and what was taken from it with which command ends. */
  datatype Belt = Belt(queue: seq<Item>, handled: seq<Item>, used: seq<Replies>)

  /** One item is taken from the front; on an empty queue the select blocks. */
  function AfterTurn(b: Belt, t: WorkerTurn): Belt {
    var queue := b.queue + t.arrivals;
    if queue == [] then b.(queue := queue)
    else Belt(queue[1..], b.handled + [queue[0]], b.used + [t.replies])
  }

  function AfterTurns(b: Belt, turns: seq<WorkerTurn>): Belt {
    if turns == [] then b else AfterTurn(AfterTurns(b, turns[..|turns| - 1]), turns[|turns| - 1])
  }

  function Arrivals(turns: seq<WorkerTurn>): seq<Item> {
    if turns == [] then [] else Arrivals(turns[..|turns| - 1]) + turns[|turns| - 1].arrivals
  }

  /** What the turns find when `waiting` items are there before; a turn can always take one. */
  function ChancesOf(waiting: nat, turns: seq<WorkerTurn>): (r: seq<Chance>)
    ensures |r| == |turns|
  {
    if turns == [] then []
    else ChancesOf(waiting, turns[..|turns| - 1]) + [Chance(waiting + |Arrivals(turns)|, true)]
  }

  /** The ends of the commands in the turns that took an item. */
  function UsedIn(turns: seq<WorkerTurn>, given: seq<nat>): (r: seq<Replies>)
    requires forall n :: 0 <= n < |given| ==> given[n] < |turns|
    ensures |r| == |given| && forall n :: 0 <= n < |given| ==> r[n] == turns[given[n]].replies
  {
    seq(|given|, n requires 0 <= n < |given| => turns[given[n]].replies)
  }

  /**
   * Nothing is lost, invented or reordered on the belt; item `n` is taken in turn
   * `given[n]` and meets the commands of that turn; a turn that finds an item takes one.
   */
  ghost predicate Conserves(queue: seq<Item>, turns: seq<WorkerTurn>, b: Belt, given: seq<nat>) {
    && b.handled + b.queue == queue + Arrivals(turns)
    && |given| == |b.handled|
    && Greedy(ChancesOf(|queue|, turns), given)
    && (forall n :: 0 <= n < |given| ==> given[n] < |turns|)
    && b.used == UsedIn(turns, given)
  }

  /** The turns that took an item, after one more. */
  function GivenNext(b: Belt, t: WorkerTurn, given: seq<nat>, i: nat): seq<nat> {
    if b.queue + t.arrivals == [] then given else given + [i]
  }

  lemma ConservesNext(queue: seq<Item>, turns: seq<WorkerTurn>, t: WorkerTurn, b: Belt, given: seq<nat>)
    requires Conserves(queue, turns, b, given)
    ensures Conserves(queue, turns + [t], AfterTurn(b, t), GivenNext(b, t, given, |turns|))
  {
    hide Greedy;
    var all := turns + [t];
    assert all[..|turns|] == turns;
    GreedyNext(ChancesOf(|queue|, turns), given, Chance(|queue| + |Arrivals(all)|, true));
    TurnTakes(b, t);
    UsedNext(turns, t, given);
    assert |b.queue| + |t.arrivals| == |queue| + |Arrivals(all)| - |b.handled|;
    hide UsedIn, Arrivals, ChancesOf;
  }

  lemma UsedNext(turns: seq<WorkerTurn>, t: WorkerTurn, given: seq<nat>)
    requires forall n :: 0 <= n < |given| ==> given[n] < |turns|
    ensures UsedIn(turns + [t], given) == UsedIn(turns, given)
    ensures UsedIn(turns + [t], given + [|turns|]) == UsedIn(turns, given) + [t.replies]
  {
  }

  lemma TurnTakes(b: Belt, t: WorkerTurn)
    ensures AfterTurn(b, t).handled + AfterTurn(b, t).queue == b.handled + b.queue + t.arrivals
    ensures AfterTurn(b, t).used == b.used + (if b.queue + t.arrivals == [] then [] else [t.replies])
    ensures |AfterTurn(b, t).handled| == |b.handled| + (if b.queue + t.arrivals == [] then 0 else 1)
  {
  }

  lemma NothingHandled(queue: seq<Item>)
    ensures Conserves(queue, [], Belt(queue, [], []), [])
  {
    hide Greedy;
    NothingTaken();
  }

  /** So it is for all turns; while enough items wait every turn takes one. */
  lemma {:induction false} BeltConserves(queue: seq<Item>, turns: seq<WorkerTurn>) returns (given: seq<nat>)
    ensures Conserves(queue, turns, AfterTurns(Belt(queue, [], []), turns), given)
    ensures |queue| >= |turns| ==> |given| == |turns| && forall n :: 0 <= n < |given| ==> given[n] == n
  {
    hide Conserves;
    if turns == [] {
      given := [];
      NothingHandled(queue);
    } else {
      var last := |turns| - 1;
      given := BeltConserves(queue, turns[..last]);
      var b := AfterTurns(Belt(queue, [], []), turns[..last]);
      assert turns == turns[..last] + [turns[last]];
      ConservesNext(queue, turns[..last], turns[last], b, given);
      given := GivenNext(b, turns[last], given, last);
    }
    EnoughForAll(queue, turns, AfterTurns(Belt(queue, [], []), turns), given);
  }

  lemma EnoughForAll(queue: seq<Item>, turns: seq<WorkerTurn>, b: Belt, given: seq<nat>)
    requires Conserves(queue, turns, b, given)
    ensures |queue| >= |turns| ==> |given| == |turns| && forall n :: 0 <= n < |given| ==> given[n] == n
  {
    hide Greedy;
    if |queue| >= |turns| {
      AlwaysOpen(|queue|, turns);
      EveryRoundTakes(ChancesOf(|queue|, turns), given);
    }
  }

  lemma {:induction false} AlwaysOpen(waiting: nat, turns: seq<WorkerTurn>)
    ensures forall i :: 0 <= i < |turns| ==>
      ChancesOf(waiting, turns)[i].open && waiting <= ChancesOf(waiting, turns)[i].supply
  {
    if turns != [] {
      AlwaysOpen(waiting, turns[..|turns| - 1]);
    }
  }

  /** The worker: the channel it drains, the backend it shares, and the logs it appends to. */
  class Worker {
    const cfg: Config
    const backend: BackendRedis
    var queue: seq<Item>
    var outputs: map<Sink, seq<Item>>

    constructor (cfg: Config, backend: BackendRedis, queue: seq<Item>)
      ensures this.cfg == cfg && this.backend == backend && this.queue == queue && outputs == map[]
    {
      this.cfg, this.backend, this.queue, this.outputs := cfg, backend, queue, map[];
    }

    method Append(sink: Sink, item: Item, reply: Reply)
      modifies this`outputs
      ensures outputs ==
        if reply.Applied() then old(outputs)[sink := Log(old(outputs), sink) + [item]] else old(outputs)
    {
      if reply.Applied() {
        outputs := outputs[sink := Log(outputs, sink) + [item]];
      }
    }

    /** The logs with the item at the end of one. */
    function Extended(sink: Sink, item: Item): map<Sink, seq<Item>>
      reads this
    {
      outputs[sink := Log(outputs, sink) + [item]]
    }

    /**
     * Sends one item to the one sink that is its own: an SSE widget to the live service
     * if there is one, an API widget to the buffer hash, any other to the Kafka topic or
     * the Redis stream of its effective routing key, a marker to the completion check.
     */
    method HandleItem(item: Item, r: Replies)
      modifies this`outputs, backend
      ensures item.Widget? ==>
        var tech := item.message.streamTech;
        var overridden := cfg.overrideOutput && cfg.overrideRoutingKey != "";
        var key := if overridden then cfg.overrideRoutingKey else item.routingKey;
        var field := if item.message.eventName == "" then "payload" else item.message.eventName;
        && outputs == (
          if !r.write.Applied() || tech == "API" then old(outputs)
          else if tech == "SSE" then
            if cfg.liveServiceUrl != "" then old(Extended(LiveService, item)) else old(outputs)
          else if cfg.useKafka && cfg.kafkaOut then old(Extended(Topic(key), item))
          else old(Extended(Stream(cfg.outputStreamPrefix + key), item)))
        && backend.buffers == (
          if r.write.Applied() && tech == "API"
          then old(backend.buffers)[key := old(backend.Fields(key))[field := Payload(item.message)]]
          else old(backend.buffers))
        && backend.status == old(backend.status)
      ensures item.Marker? ==>
        var rk := item.routingKey;
        var n, total := old(backend.NextCount(rk)), old(backend.TotalOf(rk));
        && outputs == old(outputs)
        && backend.buffers == (
          if r.write.Applied() && n.Some?
          then old(backend.buffers)[rk := old(backend.Fields(rk))["__processed_count__" := Number(n.value)]]
          else old(backend.buffers))
        && backend.status == (
          if r.write.Ok? && r.look.Ok? && r.set_.Applied() && n.Some? && total.Some? && n.value >= total.value
          then old(backend.status)[rk := "BUFFERED_EVENT_IN_GO_DISPATCHER_TO_REDIS"] else old(backend.status))
      ensures item.Blank? ==> outputs == old(outputs) && backend.AsStore() == old(backend.AsStore())
      ensures backend.AsStore() == StoreAfter(cfg, old(backend.AsStore()), item, r)
      ensures forall sink :: IsLog(sink) ==>
        Log(outputs, sink) == Log(old(outputs), sink)
          + if Written(cfg, item, r.write) && SinkOf(cfg, item) == sink then [item] else []
    {
      match item {
        case Blank(_) =>
        case Marker(_, routingKey) =>
          var _ := backend.IncrementAndCheckCompletion(routingKey, r.write, r.look, r.set_);
        case Widget(_, message, key) =>
          var routingKey := key;
          if cfg.overrideOutput && cfg.overrideRoutingKey != "" {
            routingKey := cfg.overrideRoutingKey;
          }
          if message.streamTech == "SSE" {
            if cfg.liveServiceUrl != "" {
              Append(LiveService, item, r.write);
            }
          } else if message.streamTech == "API" {
            var _ := backend.StoreDataInRedis(routingKey, message, r.write);
          } else if cfg.useKafka && cfg.kafkaOut {
            Append(Topic(routingKey), item, r.write);
          } else {
            Append(Stream(OutputStreamName(cfg, routingKey)), item, r.write);
          }
      }
    }

    /**
     * The loop, over the turns it gets until shutdown. Item `n` is taken from the front
     * in turn `given[n]`, whenever there is one, and the store and every log end as the
     * handled items, in order, make them.
     */
    method Run(turns: seq<WorkerTurn>) returns (handled: seq<Item>, used: seq<Replies>, given: seq<nat>)
      modifies this`queue, this`outputs, backend
      ensures Belt(queue, handled, used) == AfterTurns(Belt(old(queue), [], []), turns)
      ensures Conserves(old(queue), turns, Belt(queue, handled, used), given)
      ensures |used| == |handled|
      ensures backend.AsStore() == StoreAfterAll(cfg, old(backend.AsStore()), handled, used, |handled|)
      ensures forall sink :: IsLog(sink) ==>
        Log(outputs, sink) == Log(old(outputs), sink) + Added(cfg, handled, used, |handled|, sink)
    {
      hide StoreAfter, Written, SinkOf, Added, Landed, Routed, IsLog, Log, StoreAfterAll, Conserves;
      handled, used, given := [], [], [];
      forall sink ensures Added(cfg, handled, used, 0, sink) == [] {
        AddedNone(cfg, handled, used, sink);
      }
      StoreAfterNone(cfg, backend.AsStore(), handled, used);
      var i := 0;
      NothingHandled(queue);
      assert turns[..0] == [];
      while i < |turns|
        invariant 0 <= i <= |turns| && |used| == |handled|
        invariant Belt(queue, handled, used) == AfterTurns(Belt(old(queue), [], []), turns[..i])
        invariant Conserves(old(queue), turns[..i], Belt(queue, handled, used), given)
        invariant backend.AsStore() == StoreAfterAll(cfg, old(backend.AsStore()), handled, used, |handled|)
        invariant forall sink :: IsLog(sink) ==>
          Log(outputs, sink) == Log(old(outputs), sink) + Added(cfg, handled, used, |handled|, sink)
      {
        ghost var before := outputs;
        assert turns[..i + 1] == turns[..i] + [turns[i]] && turns[..i + 1][..i] == turns[..i];
        ConservesNext(old(queue), turns[..i], turns[i], Belt(queue, handled, used), given);
        queue := queue + turns[i].arrivals;
        if queue != [] {
          var item := queue[0];
          queue := queue[1..];
          HandleItem(item, turns[i].replies);
          forall sink | IsLog(sink)
            ensures Log(outputs, sink) == Log(old(outputs), sink)
                      + Added(cfg, handled + [item], used + [turns[i].replies], |handled| + 1, sink)
          {
            AddedNext(cfg, handled, used, item, turns[i].replies, sink);
          }
          StoreAfterNext(cfg, old(backend.AsStore()), handled, used, item, turns[i].replies);
          handled, used, given := handled + [item], used + [turns[i].replies], given + [i];
        }
        i := i + 1;
      }
      assert turns[..i] == turns;
    }
  }
}

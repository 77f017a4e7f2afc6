/** Where the items of one process end, told by the fields of the messages: internal/dispatcher/worker.go:60-119. */
module SinkOrder {
  import opened Prelude
  import opened Messages
  import opened RedisBackend
  import opened Dispatcher
  import opened Cluster
  import opened ClusterInvariant
  import opened Effects

  /** The place of every item, by the fields of its message and the settings. */
  lemma SinkTable(cfg: Config, item: Item)
    ensures item.Blank? ==> SinkOf(cfg, item) == Nowhere
    ensures item.Marker? ==> SinkOf(cfg, item) == Counting(item.routingKey)
    ensures item.Widget? ==>
      var tech := item.message.streamTech;
      var key := if cfg.overrideOutput && cfg.overrideRoutingKey != "" then cfg.overrideRoutingKey else item.routingKey;
      var field := if item.message.eventName == "" then "payload" else item.message.eventName;
      && (SinkOf(cfg, item) == LiveService <==> tech == "SSE" && cfg.liveServiceUrl != "")
      && (SinkOf(cfg, item) == NoLiveService <==> tech == "SSE" && cfg.liveServiceUrl == "")
      && (SinkOf(cfg, item) == Buffer(key, field) <==> tech == "API")
      && (SinkOf(cfg, item) == Topic(key) <==> tech != "SSE" && tech != "API" && cfg.useKafka && cfg.kafkaOut)
      && (SinkOf(cfg, item) == Stream(cfg.outputStreamPrefix + key) <==>
            tech != "SSE" && tech != "API" && !(cfg.useKafka && cfg.kafkaOut))
  {
  }

  /** The log is the one for the item, by the fields of its message and the settings. */
  predicate IsFor(cfg: Config, item: Item, sink: Sink) {
    && item.Widget?
    && var tech := item.message.streamTech;
    var key := if cfg.overrideOutput && cfg.overrideRoutingKey != "" then cfg.overrideRoutingKey else item.routingKey;
    match sink
    case LiveService => tech == "SSE" && cfg.liveServiceUrl != ""
    case Topic(topicKey) => tech != "SSE" && tech != "API" && cfg.useKafka && cfg.kafkaOut && topicKey == key
    case Stream(name) =>
      tech != "SSE" && tech != "API" && !(cfg.useKafka && cfg.kafkaOut) && name == cfg.outputStreamPrefix + key
    case _ => false
  }

  lemma IsForIff(cfg: Config, item: Item, sink: Sink)
    ensures IsLog(sink) ==> (IsFor(cfg, item, sink) <==> SinkOf(cfg, item) == sink)
  {
  }

  /** One send: the item and how its write ended. */
  datatype Sending = Sending(item: Item, reply: Reply)

  /** What the step makes process `p` send. */
  function SendingOf(s: State, step: Step, p: nat): seq<Sending> {
    if step.Worker? && step.p == p && step.w.Emit? && Alive(s, p) && s.procs[p].worker.Hand?
    then [Sending(s.procs[p].worker.item, step.w.reply)] else []
  }

  /** All sends of process `p` in the first `i` steps, in order. */
  function Sendings(run: seq<State>, steps: seq<Step>, p: nat, i: nat): seq<Sending>
    requires i < |run| && i <= |steps|
  {
    if i == 0 then [] else Sendings(run, steps, p, i - 1) + SendingOf(run[i - 1], steps[i - 1], p)
  }

  /** The items for the log whose write was applied. */
  function Selected(cfg: Config, sendings: seq<Sending>, sink: Sink): seq<Item> {
    if sendings == [] then []
    else
      var last := sendings[|sendings| - 1];
      Selected(cfg, sendings[..|sendings| - 1], sink)
      + (if last.reply.Applied() && IsFor(cfg, last.item, sink) then [last.item] else [])
  }

  lemma SelectedNext(cfg: Config, sendings: seq<Sending>, last: Sending, sink: Sink)
    ensures Selected(cfg, sendings + [last], sink) ==
      Selected(cfg, sendings, sink) + (if last.reply.Applied() && IsFor(cfg, last.item, sink) then [last.item] else [])
  {
    hide IsFor;
    assert (sendings + [last])[..|sendings|] == sendings;
  }

  lemma EmitAppends(cfg: Config, s: State, p: nat, reply: Reply, q: nat, sink: Sink)
    requires Enabled(s, Worker(p, Emit(reply))) && IsLog(sink)
    ensures FromProc(LogOf(ApplyWorker(cfg, s, p, Emit(reply)).outputs, sink), q) ==
      FromProc(LogOf(s.outputs, sink), q)
        + (if q == p && reply.Applied() && IsFor(cfg, s.procs[p].worker.item, sink)
           then [s.procs[p].worker.item] else [])
  {
    var item := s.procs[p].worker.item;
    IsForIff(cfg, item, sink);
    EmitWrites(cfg, s, p, reply);
    hide IsFor, SinkOf, ApplyWorker, FromProc;
    FromProcAppend(LogOf(s.outputs, sink), Out(p, item), q);
  }

  lemma EmitWrites(cfg: Config, s: State, p: nat, reply: Reply)
    requires Enabled(s, Worker(p, Emit(reply)))
    ensures var item := s.procs[p].worker.item;
      var sink := SinkOf(cfg, item);
      ApplyWorker(cfg, s, p, Emit(reply)).outputs ==
        if reply.Applied() && IsLog(sink) then s.outputs[sink := LogOf(s.outputs, sink) + [Out(p, item)]] else s.outputs
  {
    hide SinkOf, HSet, WorkerAfter, LogOf;
  }

  lemma StepSends(cfg: Config, s: State, step: Step, p: nat, sink: Sink)
    requires Enabled(s, step) && IsLog(sink)
    ensures FromProc(LogOf(Apply(cfg, s, step).outputs, sink), p) ==
      FromProc(LogOf(s.outputs, sink), p) + Selected(cfg, SendingOf(s, step, p), sink)
  {
    hide FromProc, IsFor, ApplyWorker, ApplyConsumer, ApplyEnv, IsLog;
    match step {
      case Environment(move) => FieldsKeptByEnv(s, move);
      case Consumer(q, move) => FieldsKeptByConsumer(cfg, s, q, move);
      case Worker(q, move) =>
        if move.Emit? {
          EmitAppends(cfg, s, q, move.reply, p, sink);
        } else {
          MarkerMove(cfg, s, q, move);
        }
    }
  }

  lemma {:induction false} SelectedConcat(cfg: Config, a: seq<Sending>, b: seq<Sending>, sink: Sink)
    requires |b| <= 1
    ensures Selected(cfg, a + b, sink) == Selected(cfg, a, sink) + Selected(cfg, b, sink)
  {
    hide IsFor, Selected;
    NothingSent(cfg, 0, sink);
    if b == [] {
      assert a + b == a;
    } else {
      SelectedNext(cfg, a, b[0], sink);
      SelectedNext(cfg, [], b[0], sink);
      assert [] + [b[0]] == b && a + [b[0]] == a + b;
    }
  }

  /**
   * In every reachable state the part of an output log that one process wrote is the
   * ordered selection of what that process sent so far, by the fields of the messages
   * and whether the write was applied: the live service gets the SSE widgets when it
   * is configured; a topic key gets the widgets that are neither SSE nor API and have
   * that key, when Kafka is on for output; a stream gets the rest of them.
   */
  lemma {:induction false} LogsByFields(cfg: Config, run: seq<State>, steps: seq<Step>, i: nat, p: nat, sink: Sink)
    requires IsRun(cfg, run, steps) && i < |run| && IsLog(sink)
    ensures FromProc(LogOf(run[i].outputs, sink), p) == Selected(cfg, Sendings(run, steps, p, i), sink)
  {
    hide FromProc, Apply, IsFor, SendingOf, IsLog, Selected, Enabled;
    if i == 0 {
      NothingSent(cfg, p, sink);
    } else {
      LogsByFields(cfg, run, steps, i - 1, p, sink);
      StepSends(cfg, run[i - 1], steps[i - 1], p, sink);
      SendsOnce(run[i - 1], steps[i - 1], p);
      SelectedConcat(cfg, Sendings(run, steps, p, i - 1), SendingOf(run[i - 1], steps[i - 1], p), sink);
    }
  }

  lemma SendsOnce(s: State, step: Step, p: nat)
    ensures |SendingOf(s, step, p)| <= 1
  {
  }

  lemma NothingSent(cfg: Config, p: nat, sink: Sink)
    ensures FromProc(LogOf(INITIAL.outputs, sink), p) == [] && Selected(cfg, [], sink) == []
  {
  }

  // ---- What is sent is what was handled ----

  /** The items that are no completion markers. */
  function Unmarking(items: seq<Item>): seq<Item> {
    if items == [] then []
    else
      var n := |items| - 1;
      Unmarking(items[..n]) + (if items[n].Marker? then [] else [items[n]])
  }

  lemma UnmarkingNext(items: seq<Item>, item: Item)
    ensures Unmarking(items + [item]) == Unmarking(items) + (if item.Marker? then [] else [item])
  {
    assert (items + [item])[..|items|] == items;
  }

  function Items(sendings: seq<Sending>): (r: seq<Item>)
    ensures |r| == |sendings| && forall k :: 0 <= k < |r| ==> r[k] == sendings[k].item
  {
    seq(|sendings|, k requires 0 <= k < |sendings| => sendings[k].item)
  }

  function HandledBy(s: State, p: nat): seq<Item> {
    if p < |s.procs| then s.procs[p].handled else []
  }

  lemma StepHandles(cfg: Config, s: State, step: Step, p: nat)
    requires Enabled(s, step)
    ensures Unmarking(HandledBy(Apply(cfg, s, step), p)) ==
      Unmarking(HandledBy(s, p)) + Items(SendingOf(s, step, p))
  {
    hide ApplyWorker, ApplyConsumer, ApplyEnv, Unmarking;
    match step {
      case Environment(move) => EnvHandles(s, move, p);
      case Consumer(q, move) => FieldsKeptByConsumer(cfg, s, q, move);
      case Worker(q, move) =>
        if move.Emit? {
          FieldsKeptByWorker(cfg, s, q, move);
          EmitStores(cfg, s, q, move.reply);
          UnmarkingNext(s.procs[q].handled, s.procs[q].worker.item);
        } else {
          MarkerMove(cfg, s, q, move);
          if InHand(s.procs[q].worker) != [] {
            UnmarkingNext(s.procs[q].handled, s.procs[q].worker.item);
          }
        }
    }
  }

  lemma EnvHandles(s: State, move: EnvMove, p: nat)
    requires EnvCan(s, move)
    ensures HandledBy(ApplyEnv(s, move), p) == HandledBy(s, p)
  {
    hide HSet, DropBuffer, DropStatus;
  }

  /** What a process sent are the items it handled, markers left out, in the same order. */
  lemma {:induction false} SendingsAreHandled(cfg: Config, run: seq<State>, steps: seq<Step>, i: nat, p: nat)
    requires IsRun(cfg, run, steps) && i < |run|
    ensures Items(Sendings(run, steps, p, i)) == Unmarking(HandledBy(run[i], p))
  {
    hide Apply, SendingOf, Enabled, Unmarking, HandledBy;
    if i == 0 {
      NothingHandled(p);
    } else {
      SendingsAreHandled(cfg, run, steps, i - 1, p);
      StepHandles(cfg, run[i - 1], steps[i - 1], p);
      assert Items(Sendings(run, steps, p, i)) ==
        Items(Sendings(run, steps, p, i - 1)) + Items(SendingOf(run[i - 1], steps[i - 1], p));
    }
  }

  lemma NothingHandled(p: nat)
    ensures Unmarking(HandledBy(INITIAL, p)) == []
  {
  }
}

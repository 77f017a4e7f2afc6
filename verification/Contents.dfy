/**
 * What the buffer hash holds: every payload in it was put there by a handled
 * widget, and a widget's own payload stays until another widget with the same
 * field is handled.
 */
module Contents {
  import opened Prelude
  import opened Messages
  import opened Admission
  import opened Controller
  import opened RedisBackend
  import opened Dispatcher
  import opened Cluster
  import opened ClusterInvariant
  import opened OpHistory
  import opened CompletionReached
  import opened Effects

  // ---- Whose payload a field holds ----

  /** The `j`-th handled item of process `q` was a widget, and it was written to this field. */
  ghost predicate Wrote(cfg: Config, procs: seq<Proc>, rk: string, field: string, q: nat, j: nat) {
    && q < |procs| && j < |procs[q].handled| && j < |procs[q].landed| && procs[q].landed[j]
    && procs[q].handled[j].Widget? && SinkOf(cfg, procs[q].handled[j]) == Buffer(rk, field)
  }

  /** The field holds what the `j`-th handled item of process `q` wrote. */
  ghost predicate Holds(cfg: Config, s: State, rk: string, field: string, q: nat, j: nat) {
    && Wrote(cfg, s.procs, rk, field, q, j)
    && field in HashOf(s.store, rk) && HashOf(s.store, rk)[field] == Payload(s.procs[q].handled[j].message)
  }

  predicate IsData(field: string) {
    field != COUNT_FIELD && field != META_FIELD
  }

  ghost predicate CellBacked(cfg: Config, s: State, rk: string, field: string) {
    exists q: nat, j: nat :: Holds(cfg, s, rk, field, q, j)
  }

  ghost predicate ContentsInv(cfg: Config, s: State) {
    forall rk, field :: IsData(field) && field in HashOf(s.store, rk) ==> CellBacked(cfg, s, rk, field)
  }

  ghost predicate HistoriesGrow(procs: seq<Proc>, procs': seq<Proc>) {
    && |procs| <= |procs'|
    && forall q :: 0 <= q < |procs| ==>
         procs[q].handled <= procs'[q].handled && procs[q].landed <= procs'[q].landed
  }

  /** The field holds after the step what it held before. */
  ghost predicate SameCell(store: Store, store': Store, rk: string, field: string) {
    field in HashOf(store', rk) ==> field in HashOf(store, rk) && HashOf(store', rk)[field] == HashOf(store, rk)[field]
  }

  lemma StaysBacked(cfg: Config, s: State, s': State, rk: string, field: string)
    requires ContentsInv(cfg, s) && HistoriesGrow(s.procs, s'.procs) && SameCell(s.store, s'.store, rk, field)
    requires IsData(field) && field in HashOf(s'.store, rk)
    ensures CellBacked(cfg, s', rk, field)
  {
    hide SinkOf, HashOf, IsData;
    assert CellBacked(cfg, s, rk, field);
    var q: nat, j: nat :| Holds(cfg, s, rk, field, q, j);
    assert Holds(cfg, s', rk, field, q, j);
  }

  /** No data field changes but the given one. */
  lemma ContentsFrame(cfg: Config, s: State, s': State, at: Option<(string, string)>)
    requires ContentsInv(cfg, s) && HistoriesGrow(s.procs, s'.procs)
    requires forall rk, field :: IsData(field) && at != Some((rk, field)) ==> SameCell(s.store, s'.store, rk, field)
    requires at.Some? ==> CellBacked(cfg, s', at.value.0, at.value.1)
    ensures ContentsInv(cfg, s')
  {
    forall rk, field | IsData(field) && field in HashOf(s'.store, rk) ensures CellBacked(cfg, s', rk, field) {
      hide ContentsInv, HashOf, SameCell, CellBacked, HistoriesGrow, IsData;
      if at != Some((rk, field)) { StaysBacked(cfg, s, s', rk, field); }
    }
  }

  lemma EnvKeepsContents(cfg: Config, s: State, move: EnvMove)
    requires ContentsInv(cfg, s) && EnvCan(s, move)
    ensures ContentsInv(cfg, ApplyEnv(s, move))
  {
    hide ContentsInv, COUNT_FIELD, META_FIELD;
    ContentsFrame(cfg, s, ApplyEnv(s, move), None);
  }

  lemma ConsumerKeepsContents(cfg: Config, s: State, p: nat, move: ConsumerMove)
    requires ContentsInv(cfg, s) && Enabled(s, Consumer(p, move))
    ensures ContentsInv(cfg, ApplyConsumer(cfg, s, p, move))
  {
    FieldsKeptByConsumer(cfg, s, p, move);
    ConsumerOps(cfg, s, p, move);
    hide ContentsInv, ApplyConsumer, ConsumerAfter, FieldsKept, IsData;
    ContentsFrame(cfg, s, ApplyConsumer(cfg, s, p, move), None);
  }

  lemma WorkerGrowsHistories(cfg: Config, s: State, p: nat, move: WorkerMove)
    requires Enabled(s, Worker(p, move))
    ensures HistoriesGrow(s.procs, ApplyWorker(cfg, s, p, move).procs)
  {
    WorkerTouches(cfg, s, p, move);
    hide ApplyWorker, SinkOf, Written, CanIncrement, Counter, ReadMeta, Completes;
  }

  /** A write is backed by the item that made it. */
  lemma EmitKeepsContents(cfg: Config, s: State, p: nat, reply: Reply)
    requires ContentsInv(cfg, s) && ProcsInv(cfg, s) && Enabled(s, Worker(p, Emit(reply)))
    ensures ContentsInv(cfg, ApplyWorker(cfg, s, p, Emit(reply)))
  {
    WorkerGrowsHistories(cfg, s, p, Emit(reply));
    var s' := ApplyWorker(cfg, s, p, Emit(reply));
    var pr := s.procs[p];
    var item := pr.worker.item;
    var sink := SinkOf(cfg, item);
    assert |pr.landed| == |pr.handled| by { hide ItemOk, StageOk; assert ProcInv(cfg, s.stream, s.owner, p, pr); }
    hide ContentsInv, ProcsInv, HistoriesGrow, IsData, SinkOf, HSet;
    if Written(cfg, item, reply) && sink.Buffer? {
      BufferItem(cfg, item);
      EmitHolds(cfg, s, p, reply);
      forall rk, field | (rk, field) != (sink.routingKey, sink.field) ensures SameCell(s.store, s'.store, rk, field) {
        OtherCell(s.store, sink.routingKey, sink.field, Payload(item.message), rk, field);
      }
      ContentsFrame(cfg, s, s', Some((sink.routingKey, sink.field)));
    } else {
      ContentsFrame(cfg, s, s', None);
    }
  }

  lemma BufferItem(cfg: Config, item: Item)
    ensures SinkOf(cfg, item).Buffer? ==> item.Widget?
  {
  }

  lemma OtherCell(store: Store, rk: string, field: string, cell: Cell, rk': string, field': string)
    requires rk' != rk || field' != field
    ensures SameCell(store, HSet(store, rk, field, cell), rk', field')
  {
  }

  lemma EmitHolds(cfg: Config, s: State, p: nat, reply: Reply)
    requires Enabled(s, Worker(p, Emit(reply))) && |s.procs[p].landed| == |s.procs[p].handled|
    requires Written(cfg, s.procs[p].worker.item, reply) && SinkOf(cfg, s.procs[p].worker.item).Buffer?
    ensures var sink := SinkOf(cfg, s.procs[p].worker.item);
      CellBacked(cfg, ApplyWorker(cfg, s, p, Emit(reply)), sink.routingKey, sink.field)
  {
    var s', item := ApplyWorker(cfg, s, p, Emit(reply)), s.procs[p].worker.item;
    var sink := SinkOf(cfg, item);
    BufferItem(cfg, item);
    hide SinkOf;
    assert Holds(cfg, s', sink.routingKey, sink.field, p, |s.procs[p].handled|);
  }

  lemma WorkerKeepsContents(cfg: Config, s: State, p: nat, move: WorkerMove)
    requires ContentsInv(cfg, s) && ProcsInv(cfg, s) && Enabled(s, Worker(p, move))
    ensures ContentsInv(cfg, ApplyWorker(cfg, s, p, move))
  {
    match move {
      case Emit(reply) => EmitKeepsContents(cfg, s, p, reply);
      case _ =>
        WorkerGrowsHistories(cfg, s, p, move);
        hide ContentsInv, ProcsInv, HistoriesGrow, WorkerAfter, META_FIELD, COUNT_FIELD, ReadMeta, SinkOf;
        ContentsFrame(cfg, s, ApplyWorker(cfg, s, p, move), None);
    }
  }

  /** At every point of every run each data field holds the payload of a handled widget that was written to it. */
  lemma {:induction false} ContentsAlways(cfg: Config, run: seq<State>, steps: seq<Step>, i: nat)
    requires IsRun(cfg, run, steps) && i < |run|
    ensures ContentsInv(cfg, run[i])
  {
    hide ContentsInv, ApplyEnv, ApplyConsumer, ApplyWorker, Inv;
    if i == 0 {
      NoContentsYet(cfg);
    } else {
      var s := run[i - 1];
      ContentsAlways(cfg, run, steps, i - 1);
      InvAlways(cfg, run, steps, i - 1);
      InvParts(cfg, s);
      match steps[i - 1] {
        case Environment(move) => EnvKeepsContents(cfg, s, move);
        case Consumer(p, move) => ConsumerKeepsContents(cfg, s, p, move);
        case Worker(p, move) => WorkerKeepsContents(cfg, s, p, move);
      }
    }
  }

  lemma NoContentsYet(cfg: Config)
    ensures ContentsInv(cfg, INITIAL)
  {
  }

  // ---- What a reader finds ----

  /** No item but the `j`-th of process `q` was written to the field. */
  ghost predicate OnlyWriter(cfg: Config, procs: seq<Proc>, rk: string, field: string, q: nat, j: nat) {
    forall q': nat, j': nat :: Wrote(cfg, procs, rk, field, q', j') ==> q' == q && j' == j
  }

  /**
   * A reader finds the data. While the hash of `rk` never expired, a counted
   * request whose strategy answered and whose write was applied has its field in
   * that hash. The field holds the payload of some handled widget written to it:
   * the request's own, unless another widget was written to the same field.
   */
  lemma CountedDataIsStored(cfg: Config, run: seq<State>, steps: seq<Step>, i: nat, rk: string, id: nat, k: nat)
    requires IsRun(cfg, run, steps) && i < |run| && id in CountedIds(run[i].ops, rk)
    requires WidgetThenMarker(cfg, run[i], rk, id, k)
    requires run[i].procs[run[i].owner[id]].landed[k]
    requires HasStrategy(cfg.strategyKeys, Prepared(cfg, run[i].stream[id]).value) && Overridden(cfg, rk) == rk
    requires Dropped(rk) !in run[i].ops
    ensures var s := run[i];
      var message := WidgetOf(cfg.strategyKeys, id, Prepared(cfg, s.stream[id]).value).message;
      var field := FieldOf(message);
      && field in HashOf(s.store, rk)
      && (exists q: nat, j: nat :: Holds(cfg, s, rk, field, q, j))
      && (OnlyWriter(cfg, s.procs, rk, field, s.owner[id], k) ==> HashOf(s.store, rk)[field] == Payload(message))
  {
    hide IsRun, WidgetOf, HasStrategy, Prepared, Overridden, OutputsInv, Checked, HashOf, ContentsInv, IsData;
    EffectsAlways(cfg, run, steps, i);
    ContentsAlways(cfg, run, steps, i);
    var s := run[i];
    var info := Prepared(cfg, s.stream[id]).value;
    var item := WidgetOf(cfg.strategyKeys, id, info);
    assert ProcEffects(cfg, s.store, s.ops, s.procs[s.owner[id]]);
    assert StillStored(cfg, s.store, s.ops, item);
    WidgetShape(cfg.strategyKeys, id, info);
    SameHashIff(cfg, id, info);
    var field := FieldOf(item.message);
    assert SinkOf(cfg, item) == Buffer(rk, field);
    DataField(cfg, id, info);
    FieldIsBacked(cfg, s, rk, field);
    var q: nat, j: nat :| Holds(cfg, s, rk, field, q, j);
  }

  lemma DataField(cfg: Config, id: nat, info: EventInfo)
    ensures IsData(FieldOf(WidgetOf(cfg.strategyKeys, id, info).message))
  {
    StoredFieldsAreSafe(cfg.strategyKeys, id, info);
    hide COUNT_FIELD, META_FIELD, WidgetOf;
  }

  lemma FieldIsBacked(cfg: Config, s: State, rk: string, field: string)
    requires ContentsInv(cfg, s) && IsData(field) && field in HashOf(s.store, rk)
    ensures CellBacked(cfg, s, rk, field)
  {
  }

  // ---- When data is overwritten ----

  /** The stub names its field after the page, and no two pages share a name. */
  lemma StubNames(a: EventInfo, b: EventInfo)
    ensures StubItem(0, a).message.eventName == StubItem(0, b).message.eventName <==> a.pageName == b.pageName
    ensures StubItem(0, a).message.eventName != ""
  {
    var x, y := StubItem(0, a).message.eventName, StubItem(0, b).message.eventName;
    if a.pageName != "" { assert x[..|a.pageName|] == a.pageName && x[|x| - 1] == 'b'; }
    if b.pageName != "" { assert y[..|b.pageName|] == b.pageName && y[|y| - 1] == 'b'; }
    assert "Stub__Widget"[|"Stub__Widget"| - 1] == 't';
  }

  /** Both requests want completion and are answered by the stub. */
  predicate BothStored(cfg: Config, a: EventInfo, b: EventInfo) {
    && WantsCompletion(a) && HasStrategy(cfg.strategyKeys, a)
    && WantsCompletion(b) && HasStrategy(cfg.strategyKeys, b)
  }

  /**
   * Exactly when one request destroys the data of another: after both widgets were
   * stored, the second one's write left the first one's data in place if and only
   * if the two go to different hashes, or ask for different pages, or agree in
   * routing key and queue name, so that nothing tells their messages apart.
   */
  lemma DataSurvivesIff(cfg: Config, store: Store, x: nat, a: EventInfo, y: nat, b: EventInfo, r: Replies, r': Replies)
    requires BothStored(cfg, a, b) && r.write.Applied() && r'.write.Applied()
    ensures var first := WidgetOf(cfg.strategyKeys, x, a);
      var store' := StoreAfter(cfg, StoreAfter(cfg, store, first, r), WidgetOf(cfg.strategyKeys, y, b), r');
      var hash := HashOf(store', Overridden(cfg, a.routingKey));
      && FieldOf(first.message) in hash
      && (hash[FieldOf(first.message)] == Payload(first.message) <==>
            || Overridden(cfg, a.routingKey) != Overridden(cfg, b.routingKey)
            || a.pageName != b.pageName
            || (a.routingKey == b.routingKey && a.queueName == b.queueName))
  {
    StubSink(cfg, x, a);
    StubSink(cfg, y, b);
    StubNames(a, b);
    hide HasStrategy, WidgetOf, SinkOf, Overridden, StubItem;
    StubMessages(x, a, y, b);
  }

  lemma StubSink(cfg: Config, id: nat, info: EventInfo)
    requires WantsCompletion(info) && HasStrategy(cfg.strategyKeys, info)
    ensures var item := WidgetOf(cfg.strategyKeys, id, info);
      && item == StubItem(id, info) && item.message == StubItem(0, info).message
      && FieldOf(item.message) == item.message.eventName
      && SinkOf(cfg, item) == Buffer(Overridden(cfg, info.routingKey), FieldOf(item.message))
  {
    assert "API"[0] != "SSE"[0];
    StubNames(info, info);
    hide HasStrategy;
  }

  lemma StubMessages(x: nat, a: EventInfo, y: nat, b: EventInfo)
    requires a.streamTech == b.streamTech
    ensures StubItem(x, a).message == StubItem(y, b).message <==>
      a.pageName == b.pageName && a.routingKey == b.routingKey && a.queueName == b.queueName
  {
  }
}

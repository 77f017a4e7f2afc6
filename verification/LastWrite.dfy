/**
 * The data fields of the buffer hashes over whole runs: each holds the payload of
 * the last widget stored in it, and a request's own payload is there as long as
 * nothing was stored over it.
 */
module LastWrite {
  import opened Prelude
  import opened Messages
  import opened Admission
  import opened Controller
  import opened RedisBackend
  import opened Dispatcher
  import opened Cluster
  import opened ClusterInvariant
  import opened OpHistory
  import opened CompletionReached
  import opened Effects
  import opened Contents

  /** What was stored last in the field, in the current life of its hash. */
  function LastStored(ops: seq<Op>, rk: string, field: string): Option<Outgoing> {
    if ops == [] then None
    else
      var last := ops[|ops| - 1];
      if last.Stored? && last.rk == rk && last.field == field then Some(last.message)
      else if last == Dropped(rk) then None
      else LastStored(ops[..|ops| - 1], rk, field)
  }

  /** The field holds exactly what was stored last in it. */
  ghost predicate FieldIsLast(store: Store, ops: seq<Op>, rk: string, field: string) {
    match LastStored(ops, rk, field)
    case Some(message) => field in HashOf(store, rk) && HashOf(store, rk)[field] == Payload(message)
    case None => field !in HashOf(store, rk)
  }

  ghost predicate LastInv(s: State) {
    forall rk, field :: IsData(field) ==> FieldIsLast(s.store, s.ops, rk, field)
  }

  // ---- One operation more ----

  lemma LastAppend(ops: seq<Op>, op: Op, rk: string, field: string)
    ensures LastStored(ops + [op], rk, field) ==
      if op.Stored? && op.rk == rk && op.field == field then Some(op.message)
      else if op == Dropped(rk) then None
      else LastStored(ops, rk, field)
  {
    assert (ops + [op])[..|ops|] == ops;
  }

  /** The field is the same in both stores, or absent from both. */
  ghost predicate FieldKept(store: Store, store': Store, rk: string, field: string) {
    && (field in HashOf(store', rk) <==> field in HashOf(store, rk))
    && (field in HashOf(store, rk) ==> HashOf(store', rk)[field] == HashOf(store, rk)[field])
  }

  /** Operations that neither store widgets nor drop hashes leave the data fields alone. */
  lemma LastKept(s: State, s': State, more: seq<Op>)
    requires LastInv(s) && s'.ops == s.ops + more && |more| <= 1
    requires more != [] ==> !more[0].Stored? && !more[0].Dropped?
    requires forall rk, field :: IsData(field) ==> FieldKept(s.store, s'.store, rk, field)
    ensures LastInv(s')
  {
    hide HashOf, IsData, LastStored;
    forall rk, field | IsData(field) ensures FieldIsLast(s'.store, s'.ops, rk, field) {
      assert FieldIsLast(s.store, s.ops, rk, field) && FieldKept(s.store, s'.store, rk, field);
      if more != [] {
        assert more == [more[0]];
        LastAppend(s.ops, more[0], rk, field);
      } else {
        assert s'.ops == s.ops;
      }
    }
  }

  lemma StoredIsLast(s: State, s': State, rk: string, id: nat, field: string, message: Outgoing)
    requires LastInv(s) && s'.ops == s.ops + [Stored(rk, id, field, message)]
    requires s'.store == HSet(s.store, rk, field, Payload(message))
    ensures LastInv(s')
  {
    hide IsData, LastStored;
    forall rk', field' | IsData(field') ensures FieldIsLast(s'.store, s'.ops, rk', field') {
      assert FieldIsLast(s.store, s.ops, rk', field');
      LastAppend(s.ops, Stored(rk, id, field, message), rk', field');
    }
  }

  lemma DroppedIsGone(s: State, s': State, rk: string)
    requires LastInv(s) && s'.ops == s.ops + [Dropped(rk)] && s'.store == DropBuffer(s.store, rk)
    ensures LastInv(s')
  {
    hide IsData, LastStored;
    forall rk', field' | IsData(field') ensures FieldIsLast(s'.store, s'.ops, rk', field') {
      assert FieldIsLast(s.store, s.ops, rk', field');
      LastAppend(s.ops, Dropped(rk), rk', field');
    }
  }

  lemma BookkeepingKept(store: Store, rk: string, field: string, cell: Cell)
    requires !IsData(field)
    ensures forall rk', field' :: IsData(field') ==> FieldKept(store, HSet(store, rk, field, cell), rk', field')
  {
    hide COUNT_FIELD, META_FIELD;
  }

  lemma SameBuffers(store: Store, store': Store)
    requires store'.buffers == store.buffers
    ensures forall rk, field :: FieldKept(store, store', rk, field)
  {
  }

  // ---- Every step keeps it ----

  lemma EnvKeepsLast(s: State, move: EnvMove)
    requires LastInv(s) && EnvCan(s, move)
    ensures LastInv(ApplyEnv(s, move))
  {
    hide LastInv, IsData, HSet, DropBuffer, FieldKept;
    var s' := ApplyEnv(s, move);
    match move {
      case ExpireBuffer(rk) => DroppedIsGone(s, s', rk);
      case SetMeta(rk, meta) =>
        MetaIsNoData();
        BookkeepingKept(s.store, rk, META_FIELD, MetaText(meta));
        LastKept(s, s', []);
      case _ =>
        SameBuffers(s.store, s'.store);
        LastKept(s, s', []);
    }
  }

  lemma MetaIsNoData()
    ensures !IsData(META_FIELD) && !IsData(COUNT_FIELD)
  {
  }

  lemma ConsumerKeepsLast(cfg: Config, s: State, p: nat, move: ConsumerMove)
    requires LastInv(s) && Enabled(s, Consumer(p, move))
    ensures LastInv(ApplyConsumer(cfg, s, p, move))
  {
    ConsumerOps(cfg, s, p, move);
    hide LastInv, IsData, FieldKept, ApplyConsumer, Enabled;
    var s' := ApplyConsumer(cfg, s, p, move);
    SameBuffers(s.store, s'.store);
    LastKept(s, s', s'.ops[|s.ops|..]);
  }

  lemma WorkerKeepsLast(cfg: Config, s: State, p: nat, move: WorkerMove)
    requires LastInv(s) && Enabled(s, Worker(p, move))
    ensures LastInv(ApplyWorker(cfg, s, p, move))
  {
    hide LastInv, IsData, FieldKept, HSet, SetStatus, SinkOf, Written, CanIncrement, Counter, ReadMeta, WorkerAfter;
    var s' := ApplyWorker(cfg, s, p, move);
    var item := if s.procs[p].worker.Resting? || s.procs[p].worker.Gone? then Blank(0) else s.procs[p].worker.item;
    SameBuffers(s.store, s.store);
    match move {
      case Emit(reply) =>
        var sink := SinkOf(cfg, item);
        if Written(cfg, item, reply) && sink.Buffer? {
          BufferItem(cfg, item);
          StoredIsLast(s, s', sink.routingKey, item.src, sink.field, item.message);
        } else {
          LastKept(s, s', []);
        }
      case Increment(reply) =>
        MetaIsNoData();
        BookkeepingKept(s.store, item.routingKey, COUNT_FIELD, Number(Counter(s.store, item.routingKey) + 1));
        LastKept(s, s', s'.ops[|s.ops|..]);
      case Complete(reply) =>
        StatusOnly(s.store, item.routingKey);
        SameBuffers(s.store, s'.store);
        LastKept(s, s', s'.ops[|s.ops|..]);
      case _ =>
        LastKept(s, s', s'.ops[|s.ops|..]);
    }
  }

  lemma StatusOnly(store: Store, rk: string)
    ensures SetStatus(store, rk, BUFFERED).buffers == store.buffers
  {
  }

  /**
   * At every point of every run, each data field of each hash holds exactly the
   * payload of the last widget stored in it since the hash was created, and a field
   * in which nothing was stored since is absent.
   */
  lemma {:induction false} FieldsHoldTheLastWrite(cfg: Config, run: seq<State>, steps: seq<Step>, i: nat)
    requires IsRun(cfg, run, steps) && i < |run|
    ensures LastInv(run[i])
  {
    hide LastInv, ApplyEnv, ApplyConsumer, ApplyWorker;
    if i == 0 {
      NothingStored();
    } else {
      FieldsHoldTheLastWrite(cfg, run, steps, i - 1);
      match steps[i - 1] {
        case Environment(move) => EnvKeepsLast(run[i - 1], move);
        case Consumer(p, move) => ConsumerKeepsLast(cfg, run[i - 1], p, move);
        case Worker(p, move) => WorkerKeepsLast(cfg, run[i - 1], p, move);
      }
    }
  }

  lemma NothingStored()
    ensures LastInv(INITIAL)
  {
  }

  // ---- A request's own write ----

  /** The item's write is in the history. */
  ghost predicate Recorded(cfg: Config, ops: seq<Op>, item: Item) {
    var sink := SinkOf(cfg, item);
    item.Widget? && sink.Buffer? ==> Stored(sink.routingKey, item.src, sink.field, item.message) in ops
  }

  ghost predicate AllRecorded(cfg: Config, ops: seq<Op>, pr: Proc) {
    && |pr.landed| == |pr.handled|
    && forall k :: 0 <= k < |pr.handled| && pr.landed[k] ==> Recorded(cfg, ops, pr.handled[k])
  }

  ghost predicate RecordInv(cfg: Config, s: State) {
    forall p :: 0 <= p < |s.procs| ==> AllRecorded(cfg, s.ops, s.procs[p])
  }

  lemma RecordsGrow(cfg: Config, ops: seq<Op>, ops': seq<Op>, pr: Proc, pr': Proc)
    requires AllRecorded(cfg, ops, pr) && ops <= ops' && pr'.handled == pr.handled && pr'.landed == pr.landed
    ensures AllRecorded(cfg, ops', pr')
  {
    hide SinkOf;
    forall k | 0 <= k < |pr'.handled| && pr'.landed[k] ensures Recorded(cfg, ops', pr'.handled[k]) {
      assert Recorded(cfg, ops, pr.handled[k]);
    }
  }

  /** All writes stay recorded when only process `p` moves. */
  lemma RecordFrame(cfg: Config, s: State, s': State, p: nat)
    requires RecordInv(cfg, s) && s.ops <= s'.ops && |s.procs| <= |s'.procs|
    requires forall q :: 0 <= q < |s.procs| && q != p ==>
      s'.procs[q].handled == s.procs[q].handled && s'.procs[q].landed == s.procs[q].landed
    requires forall q :: |s.procs| <= q < |s'.procs| ==> s'.procs[q] == NEW_PROC
    requires p < |s.procs| ==> AllRecorded(cfg, s'.ops, s'.procs[p])
    ensures RecordInv(cfg, s')
  {
    hide Recorded;
    forall q | 0 <= q < |s'.procs| ensures AllRecorded(cfg, s'.ops, s'.procs[q]) {
      if q < |s.procs| && q != p { RecordsGrow(cfg, s.ops, s'.ops, s.procs[q], s'.procs[q]); }
    }
  }

  lemma EnvKeepsRecords(cfg: Config, s: State, move: EnvMove)
    requires RecordInv(cfg, s) && EnvCan(s, move)
    ensures RecordInv(cfg, ApplyEnv(s, move))
  {
    var s' := ApplyEnv(s, move);
    FieldsKeptByEnv(s, move);
    hide FieldsKept, HSet, DropBuffer, DropStatus, Recorded;
    var p := if move.Timeout? || move.Cancel? || move.Crash? then move.proc else |s.procs|;
    if p < |s.procs| { RecordsGrow(cfg, s.ops, s'.ops, s.procs[p], s'.procs[p]); }
    RecordFrame(cfg, s, s', p);
  }

  lemma ConsumerKeepsRecords(cfg: Config, s: State, p: nat, move: ConsumerMove)
    requires RecordInv(cfg, s) && Enabled(s, Consumer(p, move))
    ensures RecordInv(cfg, ApplyConsumer(cfg, s, p, move))
  {
    var s' := ApplyConsumer(cfg, s, p, move);
    FieldsKeptByConsumer(cfg, s, p, move);
    hide FieldsKept, ApplyConsumer, ConsumerAfter, Recorded;
    RecordsGrow(cfg, s.ops, s'.ops, s.procs[p], s'.procs[p]);
    RecordFrame(cfg, s, s', p);
  }

  lemma FinishedIsRecorded(cfg: Config, ops: seq<Op>, pr: Proc, landed: bool)
    requires AllRecorded(cfg, ops, pr) && InHand(pr.worker) != []
    requires landed ==> Recorded(cfg, ops, pr.worker.item)
    ensures AllRecorded(cfg, ops, FinishItem(pr, landed))
  {
    hide Recorded;
  }

  lemma EmitRecords(cfg: Config, s: State, p: nat, reply: Reply)
    requires Enabled(s, Worker(p, Emit(reply)))
    ensures var s', item := ApplyWorker(cfg, s, p, Emit(reply)), s.procs[p].worker.item;
      && s'.procs[p] == FinishItem(s.procs[p], Written(cfg, item, reply))
      && (Written(cfg, item, reply) ==> Recorded(cfg, s'.ops, item))
  {
    hide HSet, SinkOf;
    var s', item := ApplyWorker(cfg, s, p, Emit(reply)), s.procs[p].worker.item;
    if Written(cfg, item, reply) && SinkOf(cfg, item).Buffer? {
      assert s'.ops[|s.ops|] in s'.ops;
    }
  }

  lemma WorkerKeepsRecords(cfg: Config, s: State, p: nat, move: WorkerMove)
    requires RecordInv(cfg, s) && Enabled(s, Worker(p, move))
    ensures RecordInv(cfg, ApplyWorker(cfg, s, p, move))
  {
    var s' := ApplyWorker(cfg, s, p, move);
    var pr, pr' := s.procs[p], s'.procs[p];
    FieldsKeptByWorker(cfg, s, p, move);
    if move.Emit? { EmitRecords(cfg, s, p, move.reply); } else { MarkerMove(cfg, s, p, move); }
    hide FieldsKept, ApplyWorker, WorkerAfter, SinkOf, Written;
    RecordsGrow(cfg, s.ops, s'.ops, pr, pr);
    if pr'.worker.Resting? {
      var landed := pr'.landed[|pr.landed|];
      assert pr' == FinishItem(pr, landed);
      FinishedIsRecorded(cfg, s'.ops, pr, landed);
    } else {
      RecordsGrow(cfg, s.ops, s'.ops, pr, pr');
    }
    RecordFrame(cfg, s, s', p);
  }

  /** At every point of every run each widget whose write took effect has it in the history of the backend. */
  lemma {:induction false} RecordsAlways(cfg: Config, run: seq<State>, steps: seq<Step>, i: nat)
    requires IsRun(cfg, run, steps) && i < |run|
    ensures RecordInv(cfg, run[i])
  {
    hide RecordInv, ApplyEnv, ApplyConsumer, ApplyWorker;
    if i == 0 {
      NothingRecorded(cfg);
    } else {
      RecordsAlways(cfg, run, steps, i - 1);
      match steps[i - 1] {
        case Environment(move) => EnvKeepsRecords(cfg, run[i - 1], move);
        case Consumer(p, move) => ConsumerKeepsRecords(cfg, run[i - 1], p, move);
        case Worker(p, move) => WorkerKeepsRecords(cfg, run[i - 1], p, move);
      }
    }
  }

  lemma NothingRecorded(cfg: Config)
    ensures RecordInv(cfg, INITIAL)
  {
  }

  // ---- What a reader finds ----

  /** After operation `w` nothing was stored in the field, and its hash was not dropped. */
  ghost predicate Untouched(ops: seq<Op>, rk: string, field: string, w: nat) {
    forall j :: w < j < |ops| ==> ops[j] != Dropped(rk) && !(ops[j].Stored? && ops[j].rk == rk && ops[j].field == field)
  }

  lemma {:induction false} UntouchedIsLast(ops: seq<Op>, rk: string, field: string, w: nat)
    requires w < |ops| && ops[w].Stored? && ops[w].rk == rk && ops[w].field == field && Untouched(ops, rk, field, w)
    ensures LastStored(ops, rk, field) == Some(ops[w].message)
  {
    if w < |ops| - 1 {
      UntouchedIsLast(ops[..|ops| - 1], rk, field, w);
    }
  }

  /**
   * A request's own data. The write of a counted request whose strategy answered
   * and whose write was applied is in the history; the field holds the payload of
   * the last write to it, so the request's own as long as nothing was stored over it
   * and the hash was not dropped.
   */
  lemma OwnDataUntilOverwritten(cfg: Config, run: seq<State>, steps: seq<Step>, i: nat, rk: string, id: nat, k: nat)
    returns (w: nat)
    requires IsRun(cfg, run, steps) && i < |run| && WidgetThenMarker(cfg, run[i], rk, id, k)
    requires run[i].procs[run[i].owner[id]].landed[k]
    requires HasStrategy(cfg.strategyKeys, Prepared(cfg, run[i].stream[id]).value) && Overridden(cfg, rk) == rk
    ensures var s := run[i];
      var message := WidgetOf(cfg.strategyKeys, id, Prepared(cfg, s.stream[id]).value).message;
      var field := FieldOf(message);
      && FieldIsLast(s.store, s.ops, rk, field)
      && w < |s.ops| && s.ops[w] == Stored(rk, id, field, message)
      && (Untouched(s.ops, rk, field, w) ==>
            field in HashOf(s.store, rk) && HashOf(s.store, rk)[field] == Payload(message))
  {
    hide IsRun, WidgetOf, HasStrategy, Prepared, Overridden, HashOf, IsData, LastStored, Untouched;
    FieldsHoldTheLastWrite(cfg, run, steps, i);
    RecordsAlways(cfg, run, steps, i);
    var s := run[i];
    var info := Prepared(cfg, s.stream[id]).value;
    var item := WidgetOf(cfg.strategyKeys, id, info);
    assert AllRecorded(cfg, s.ops, s.procs[s.owner[id]]);
    assert Recorded(cfg, s.ops, item);
    WidgetShape(cfg.strategyKeys, id, info);
    SameHashIff(cfg, id, info);
    var field := FieldOf(item.message);
    assert SinkOf(cfg, item) == Buffer(rk, field);
    DataField(cfg, id, info);
    assert FieldIsLast(s.store, s.ops, rk, field);
    w :| 0 <= w < |s.ops| && s.ops[w] == Stored(rk, id, field, item.message);
    if Untouched(s.ops, rk, field, w) { UntouchedIsLast(s.ops, rk, field, w); }
  }
}

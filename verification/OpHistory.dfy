/** The history of the backend Redis: the counter, the draws and who made them. */
module OpHistory {
  import opened Prelude
  import opened Messages
  import opened Admission
  import opened Controller
  import opened RedisBackend
  import opened RedisBroker
  import opened Dispatcher
  import opened Cluster
  import opened ClusterInvariant

  /** Increments under `rk` since its buffer hash was last gone. */
  function SinceDrop(ops: seq<Op>, rk: string): nat {
    if ops == [] then 0
    else
      var last := ops[|ops| - 1];
      var before := SinceDrop(ops[..|ops| - 1], rk);
      if last.Counted? && last.rk == rk then before + 1
      else if last.Dropped? && last.rk == rk then 0
      else before
  }

  /** The requests whose marker was ever counted under `rk`. */
  function CountedIds(ops: seq<Op>, rk: string): set<nat> {
    if ops == [] then {}
    else
      var last := ops[|ops| - 1];
      CountedIds(ops[..|ops| - 1], rk) + (if last.Counted? && last.rk == rk then {last.id} else {})
  }

  // ---- The invariant ----

  /** The bookkeeping fields hold what the completion check expects of them. */
  ghost predicate CellsOk(store: Store) {
    forall rk :: rk in store.buffers ==>
      && (COUNT_FIELD in store.buffers[rk] ==> store.buffers[rk][COUNT_FIELD].Number?)
      && (META_FIELD in store.buffers[rk] ==> store.buffers[rk][META_FIELD].MetaText?)
  }

  /** The counter cell of every routing key counts exactly the increments since its hash was created. */
  ghost predicate CounterInv(store: Store, ops: seq<Op>) {
    forall rk :: Counter(store, rk) == SinceDrop(ops, rk)
  }

  /** Each draw is one more than the number of draws before it. */
  ghost predicate DrawsInv(ops: seq<Op>) {
    forall i :: 0 <= i < |ops| && ops[i].Counted? ==> ops[i].n == SinceDrop(ops[..i], ops[i].rk) + 1
  }

  /** No request is counted twice, under whatever key. */
  ghost predicate CountedOnce(ops: seq<Op>) {
    forall i, j :: 0 <= i < j < |ops| && ops[i].Counted? && ops[j].Counted? ==> ops[i].id != ops[j].id
  }

  /** The worker is done with the item, or past its HINCRBY. */
  ghost predicate Spent(pr: Proc, item: Item) {
    item in pr.handled || ((pr.worker.Drawn? || pr.worker.Completing?) && pr.worker.item == item)
  }

  ghost predicate SpentByOwner(s: State, op: Op)
    requires op.Counted?
  {
    op.id in s.owner && s.owner[op.id] < |s.procs| && Spent(s.procs[s.owner[op.id]], Marker(op.id, op.rk))
  }

  ghost predicate SpentInv(s: State) {
    forall i :: 0 <= i < |s.ops| && s.ops[i].Counted? ==> SpentByOwner(s, s.ops[i])
  }

  /** A worker that is about to read the total, or to write BUFFERED, did what precedes it. */
  ghost predicate WorkerBacked(pr: Proc, ops: seq<Op>) {
    var w := pr.worker;
    && (w.Drawn? || w.Completing? ==> w.item.Marker?)
    && (w.Drawn? ==> Counted(w.item.routingKey, w.item.src, w.n) in ops)
    && (w.Completing? ==>
          && w.n >= w.total
          && Counted(w.item.routingKey, w.item.src, w.n) in ops
          && Looked(w.item.routingKey, w.item.src, w.n, Some(Total(w.total))) in ops)
  }

  ghost predicate WorkersBacked(s: State) {
    forall p :: 0 <= p < |s.procs| ==> WorkerBacked(s.procs[p], s.ops)
  }

  /** BUFFERED is only ever written by the worker whose own draw reached the total it read. */
  ghost predicate BufferedInv(ops: seq<Op>) {
    forall i :: 0 <= i < |ops| && ops[i].Buffered? ==>
      && ops[i].n >= ops[i].total
      && Counted(ops[i].rk, ops[i].id, ops[i].n) in ops[..i]
      && Looked(ops[i].rk, ops[i].id, ops[i].n, Some(Total(ops[i].total))) in ops[..i]
  }

  ghost predicate OpsInv(s: State) {
    && CellsOk(s.store)
    && CounterInv(s.store, s.ops)
    && DrawsInv(s.ops)
    && CountedOnce(s.ops)
    && SpentInv(s)
    && WorkersBacked(s)
    && BufferedInv(s.ops)
  }

  // ---- The counter ----

  lemma SetOtherField(store: Store, rk: string, field: string, cell: Cell)
    requires CellsOk(store)
    requires field == COUNT_FIELD ==> cell.Number?
    requires field == META_FIELD ==> cell.MetaText?
    ensures CellsOk(HSet(store, rk, field, cell))
    ensures forall k :: Counter(HSet(store, rk, field, cell), k)
                        == (if k == rk && field == COUNT_FIELD then cell.n else Counter(store, k))
  {
    FieldsDiffer();
    hide COUNT_FIELD, META_FIELD;
  }

  lemma FieldsDiffer()
    ensures COUNT_FIELD != META_FIELD
  {
    assert |COUNT_FIELD| != |META_FIELD|;
  }

  lemma DropResets(store: Store, rk: string)
    requires CellsOk(store)
    ensures CellsOk(DropBuffer(store, rk))
    ensures forall k :: Counter(DropBuffer(store, rk), k) == if k == rk then 0 else Counter(store, k)
  {
    hide COUNT_FIELD, META_FIELD;
  }

  lemma StatusIsNoField(store: Store, status: map<string, string>)
    ensures CellsOk(store.(status := status)) <==> CellsOk(store)
    ensures forall k :: Counter(store.(status := status), k) == Counter(store, k)
  {
  }

  lemma AppendOp(ops: seq<Op>, op: Op)
    ensures (ops + [op])[..|ops|] == ops
    ensures forall rk :: SinceDrop(ops + [op], rk)
                         == (if op.Counted? && op.rk == rk then SinceDrop(ops, rk) + 1
                             else if op.Dropped? && op.rk == rk then 0
                             else SinceDrop(ops, rk))
  {
    assert (ops + [op])[..|ops|] == ops;
  }

  lemma DrawsGrow(ops: seq<Op>, op: Op)
    requires DrawsInv(ops)
    requires op.Counted? ==> op.n == SinceDrop(ops, op.rk) + 1
    ensures DrawsInv(ops + [op])
  {
    var ops' := ops + [op];
    forall i | 0 <= i < |ops'| && ops'[i].Counted? ensures ops'[i].n == SinceDrop(ops'[..i], ops'[i].rk) + 1 {
      assert ops'[..i] == ops[..i];
      if i == |ops| { assert ops[..i] == ops; }
    }
  }

  lemma BufferedGrows(ops: seq<Op>, op: Op)
    requires BufferedInv(ops)
    requires op.Buffered? ==>
      && op.n >= op.total && Counted(op.rk, op.id, op.n) in ops
      && Looked(op.rk, op.id, op.n, Some(Total(op.total))) in ops
    ensures BufferedInv(ops + [op])
  {
    var ops' := ops + [op];
    forall i | 0 <= i < |ops'| && ops'[i].Buffered?
      ensures ops'[i].n >= ops'[i].total
      ensures Counted(ops'[i].rk, ops'[i].id, ops'[i].n) in ops'[..i]
      ensures Looked(ops'[i].rk, ops'[i].id, ops'[i].n, Some(Total(ops'[i].total))) in ops'[..i]
    {
      assert ops'[..i] == ops[..i];
      if i == |ops| { assert ops[..i] == ops; }
    }
  }

  /** The names the strategies produce are never names of bookkeeping fields. */
  lemma StoredFieldsAreSafe(keys: set<string>, src: nat, info: EventInfo)
    ensures var field := FieldOf(WidgetOf(keys, src, info).message);
      field != COUNT_FIELD && field != META_FIELD
  {
    var name := WidgetOf(keys, src, info).message.eventName;
    assert name == "Dispatcher__Placeholder" || name == "Stub__Widget" || name == info.pageName + "__stub";
    assert "Dispatcher__Placeholder"[0] != '_' && "Stub__Widget"[0] != '_';
    assert (info.pageName + "__stub")[|info.pageName| + 5] == 'b';
    assert COUNT_FIELD[|COUNT_FIELD| - 1] == '_' && META_FIELD[|META_FIELD| - 1] == '_';
    assert COUNT_FIELD[0] == '_' && META_FIELD[0] == '_';
  }

  // ---- Preservation ----

  /** A process step that spends what was spent, and a longer history, keep everything about the past. */
  ghost predicate KeepsSpent(s: State, s': State) {
    && s.owner.Keys <= s'.owner.Keys && (forall id :: id in s.owner ==> s'.owner[id] == s.owner[id])
    && |s.procs| <= |s'.procs|
    && (forall p, item :: 0 <= p < |s.procs| && Spent(s.procs[p], item) ==> Spent(s'.procs[p], item))
  }

  lemma SpentKeeps(s: State, s': State)
    requires SpentInv(s) && KeepsSpent(s, s')
    requires s'.ops == s.ops || (|s'.ops| == |s.ops| + 1 && s'.ops[..|s.ops|] == s.ops)
    requires |s'.ops| > |s.ops| && s'.ops[|s.ops|].Counted? ==> SpentByOwner(s', s'.ops[|s.ops|])
    ensures SpentInv(s')
  {
    forall i | 0 <= i < |s'.ops| && s'.ops[i].Counted? ensures SpentByOwner(s', s'.ops[i]) {
      if i < |s.ops| {
        assert s'.ops[i] == s'.ops[..|s.ops|][i] == s.ops[i];
        assert SpentByOwner(s, s.ops[i]);
      }
    }
  }

  /** What an operation must satisfy to extend the history. */
  ghost predicate Admissible(s: State, op: Op) {
    && (op.Counted? ==> op.n == SinceDrop(s.ops, op.rk) + 1)
    && (op.Counted? ==> forall i :: 0 <= i < |s.ops| && s.ops[i].Counted? ==> s.ops[i].id != op.id)
    && (op.Buffered? ==>
          && op.n >= op.total && Counted(op.rk, op.id, op.n) in s.ops
          && Looked(op.rk, op.id, op.n, Some(Total(op.total))) in s.ops)
  }

  lemma OpsUnchanged(s: State, s': State)
    requires OpsInv(s) && s'.ops == s.ops && KeepsSpent(s, s') && WorkersBacked(s')
    requires CellsOk(s'.store) && forall rk :: Counter(s'.store, rk) == Counter(s.store, rk)
    ensures OpsInv(s')
  {
    hide Counter, CellsOk, Spent, WorkersBacked, BufferedInv, DrawsInv, KeepsSpent;
    SpentKeeps(s, s');
  }

  lemma OpsAppended(s: State, s': State, op: Op)
    requires OpsInv(s) && s'.ops == s.ops + [op] && KeepsSpent(s, s') && WorkersBacked(s')
    requires Admissible(s, op)
    requires op.Counted? ==> SpentByOwner(s', op)
    requires CellsOk(s'.store)
    requires forall rk :: Counter(s'.store, rk)
                          == (if op.Counted? && op.rk == rk then Counter(s.store, rk) + 1
                              else if op.Dropped? && op.rk == rk then 0
                              else Counter(s.store, rk))
    ensures OpsInv(s')
  {
    hide Counter, CellsOk, Spent, WorkersBacked, BufferedInv, DrawsInv, KeepsSpent;
    AppendOp(s.ops, op);
    DrawsGrow(s.ops, op);
    BufferedGrows(s.ops, op);
    OnceGrows(s.ops, op);
    SpentKeeps(s, s');
    hide CountedOnce, SpentInv, SpentByOwner, SinceDrop;
    assert CounterInv(s'.store, s'.ops);
  }

  lemma OnceGrows(ops: seq<Op>, op: Op)
    requires CountedOnce(ops)
    requires op.Counted? ==> forall i :: 0 <= i < |ops| && ops[i].Counted? ==> ops[i].id != op.id
    ensures CountedOnce(ops + [op])
  {
  }

  lemma BackedGrows(pr: Proc, ops: seq<Op>, more: seq<Op>)
    requires WorkerBacked(pr, ops)
    ensures WorkerBacked(pr, ops + more)
  {
  }

  /** Only the process `p` changed, and its worker is backed by the longer history. */
  lemma WorkersStayBacked(s: State, s': State, p: nat, more: seq<Op>)
    requires WorkersBacked(s) && s'.ops == s.ops + more
    requires |s.procs| <= |s'.procs|
    requires forall q :: 0 <= q < |s.procs| && q != p ==> s'.procs[q].worker == s.procs[q].worker
    requires forall q :: |s.procs| <= q < |s'.procs| ==> s'.procs[q] == NEW_PROC
    requires p < |s.procs| ==> WorkerBacked(s'.procs[p], s'.ops)
    ensures WorkersBacked(s')
  {
    forall q | 0 <= q < |s'.procs| ensures WorkerBacked(s'.procs[q], s'.ops) {
      if q < |s.procs| && q != p { BackedGrows(s.procs[q], s.ops, more); }
    }
  }

  lemma EnvKeepsOps(s: State, move: EnvMove)
    requires OpsInv(s) && EnvCan(s, move)
    ensures OpsInv(ApplyEnv(s, move))
  {
    hide OpsInv, CellsOk, CounterInv, DrawsInv, CountedOnce, SpentInv, BufferedInv;
    hide Counter, SinceDrop, HSet, DropBuffer;
    var s' := ApplyEnv(s, move);
    assert CellsOk(s.store) && WorkersBacked(s) by { OpsParts(s); }
    var more := if move.ExpireBuffer? then [Dropped(move.rk)] else [];
    WorkersStayBacked(s, s', |s.procs|, more);
    match move {
      case SetMeta(rk, meta) =>
        SetOtherField(s.store, rk, META_FIELD, MetaText(meta));
        FieldsDiffer();
        OpsUnchanged(s, s');
      case ExpireBuffer(rk) =>
        DropResets(s.store, rk);
        OpsAppended(s, s', Dropped(rk));
      case ExpireStatus(rk) =>
        StatusIsNoField(s.store, s'.store.status);
        OpsUnchanged(s, s');
      case _ =>
        OpsUnchanged(s, s');
    }
  }

  lemma OpsParts(s: State)
    requires OpsInv(s)
    ensures CellsOk(s.store) && CounterInv(s.store, s.ops) && WorkersBacked(s) && SpentInv(s) && CountedOnce(s.ops)
  {
  }

  /** A consumer touches the backend Redis only to announce. */
  lemma ConsumerOps(cfg: Config, s: State, p: nat, move: ConsumerMove)
    requires Enabled(s, Consumer(p, move))
    ensures var s' := ApplyConsumer(cfg, s, p, move);
      && s'.outputs == s.outputs
      && if move.Announce? && move.reply.Applied()
         then var c := s.procs[p].consumer;
           && s'.store == SetStatus(s.store, c.info.routingKey, PROCESSING)
           && s'.ops == s.ops + [Announced(c.info.routingKey, c.id)]
         else s'.store == s.store && s'.ops == s.ops
  {
    hide ConsumerAfter, CreateGroup, DeliverNext, Acknowledge, SetStatus;
  }

  lemma ConsumerKeepsOps(cfg: Config, s: State, p: nat, move: ConsumerMove)
    requires ProcsInv(cfg, s) && GroupInv(s) && OpsInv(s) && Enabled(s, Consumer(p, move))
    ensures OpsInv(ApplyConsumer(cfg, s, p, move))
  {
    OpsParts(s);
    SameWorker(cfg, s, s.procs[p], move);
    KeepsOwners(cfg, s, p, move);
    OwnersKept(cfg, s, p, move);
    ConsumerOps(cfg, s, p, move);
    BackedWorker(s, p);
    hide OpsInv, CellsOk, CounterInv, DrawsInv, CountedOnce, SpentInv, BufferedInv;
    hide Counter, SinceDrop, SetStatus, Spent;
    hide ProcsInv, GroupInv, WorkersBacked, WorkerBacked, KeepsSpent, ConsumerAfter, ApplyConsumer;
    var s' := ApplyConsumer(cfg, s, p, move);
    var c := s.procs[p].consumer;
    var more := if move.Announce? && move.reply.Applied() then [Announced(c.info.routingKey, c.id)] else [];
    assert s'.ops == s.ops + more;
    BackedGrows(s.procs[p], s.ops, more);
    SameBacked(s.procs[p], s'.procs[p], s'.ops);
    WorkersStayBacked(s, s', p, more);
    if more != [] {
      SetStatusFacts(s.store, c.info.routingKey, PROCESSING);
      OpsAppended(s, s', more[0]);
    } else {
      OpsUnchanged(s, s');
    }
  }

  lemma SameBacked(pr: Proc, pr': Proc, ops: seq<Op>)
    requires pr'.worker == pr.worker && WorkerBacked(pr, ops)
    ensures WorkerBacked(pr', ops)
  {
  }

  lemma BackedWorker(s: State, p: nat)
    requires WorkersBacked(s) && p < |s.procs|
    ensures WorkerBacked(s.procs[p], s.ops)
  {
  }

  lemma SetStatusFacts(store: Store, rk: string, status: string)
    ensures CellsOk(SetStatus(store, rk, status)) <==> CellsOk(store)
    ensures forall k :: Counter(SetStatus(store, rk, status), k) == Counter(store, k)
  {
  }

  lemma SameWorker(cfg: Config, s: State, pr: Proc, move: ConsumerMove)
    requires ConsumerCan(s, pr, move)
    ensures var pr' := ConsumerAfter(cfg, s, pr, move);
      pr'.worker == pr.worker && pr'.handled == pr.handled && pr'.landed == pr.landed
  {
    hide Decision, WidgetOf, WantsCompletion;
  }

  lemma KeepsOwners(cfg: Config, s: State, p: nat, move: ConsumerMove)
    requires GroupInv(s) && Enabled(s, Consumer(p, move))
    ensures KeepsSpent(s, ApplyConsumer(cfg, s, p, move))
  {
    SameWorker(cfg, s, s.procs[p], move);
    SameSpent(s.procs[p], ConsumerAfter(cfg, s, s.procs[p], move));
    OwnersKept(cfg, s, p, move);
    hide ApplyConsumer, ConsumerAfter, Spent, GroupInv;
  }

  lemma SameSpent(pr: Proc, pr': Proc)
    requires pr'.worker == pr.worker && pr'.handled == pr.handled
    ensures forall item :: Spent(pr, item) <==> Spent(pr', item)
  {
  }

  lemma OwnersKept(cfg: Config, s: State, p: nat, move: ConsumerMove)
    requires GroupInv(s) && Enabled(s, Consumer(p, move))
    ensures var s' := ApplyConsumer(cfg, s, p, move);
      && s.owner.Keys <= s'.owner.Keys && (forall id :: id in s.owner ==> s'.owner[id] == s.owner[id])
      && s'.procs == s.procs[p := ConsumerAfter(cfg, s, s.procs[p], move)]
  {
    hide ConsumerAfter, CreateGroup, DeliverNext, Acknowledge, SetStatus, HeldBy;
  }

  /** The item in a worker's hand is the next one of the pushed history, and obeys its rules. */
  lemma HandItem(cfg: Config, s: State, p: nat)
    requires ProcsInv(cfg, s) && p < |s.procs| && InHand(s.procs[p].worker) != []
    ensures var pr := s.procs[p];
      && |pr.handled| < |pr.pushed| && pr.pushed[|pr.handled|] == pr.worker.item
      && pr.pushed[..|pr.handled|] == pr.handled
      && ItemOk(cfg, s.stream, s.owner, p, pr.pushed, |pr.handled|)
  {
    hide ItemOk, StageOk;
    assert ProcInv(cfg, s.stream, s.owner, p, s.procs[p]);
  }

  /** A marker still in the hand was not counted, and nothing of its request was. */
  lemma HandMarkerIsUncounted(cfg: Config, s: State, p: nat)
    requires ProcsInv(cfg, s) && OpsInv(s) && p < |s.procs| && s.procs[p].worker.Hand? && s.procs[p].worker.item.Marker?
    ensures forall i :: 0 <= i < |s.ops| && s.ops[i].Counted? ==> s.ops[i].id != s.procs[p].worker.item.src
  {
    hide ItemOk, CellsOk, CounterInv, DrawsInv, BufferedInv, WorkersBacked;
    var pr := s.procs[p];
    HandItem(cfg, s, p);
    assert ProcInv(cfg, s.stream, s.owner, p, pr);
    forall i | 0 <= i < |s.ops| && s.ops[i].Counted? ensures s.ops[i].id != pr.worker.item.src {
      if s.ops[i].id == pr.worker.item.src {
        assert SpentByOwner(s, s.ops[i]);
        assert s.owner[s.ops[i].id] == p by { MarkerOwner(cfg, s, p, |pr.handled|); }
        var k :| 0 <= k < |pr.handled| && pr.handled[k] == Marker(s.ops[i].id, s.ops[i].rk);
        assert pr.pushed[k] == pr.handled[k];
        LastSrcIsLargest(cfg, s.stream, s.owner, p, pr.pushed, k, |pr.handled|);
        assert false;
      }
    }
  }

  lemma MarkerOwner(cfg: Config, s: State, p: nat, i: nat)
    requires ProcsInv(cfg, s) && p < |s.procs| && i < |s.procs[p].pushed|
    ensures s.procs[p].pushed[i].src in s.owner && s.owner[s.procs[p].pushed[i].src] == p
  {
    hide Prepared, WidgetOf, WantsCompletion;
    assert ProcInv(cfg, s.stream, s.owner, p, s.procs[p]);
    assert ItemOk(cfg, s.stream, s.owner, p, s.procs[p].pushed, i);
  }

  /** A worker move spends what was spent. */
  lemma WorkerKeepsSpent(cfg: Config, s: State, p: nat, move: WorkerMove)
    requires Enabled(s, Worker(p, move))
    ensures KeepsSpent(s, ApplyWorker(cfg, s, p, move))
    ensures forall item :: Spent(s.procs[p], item) ==> Spent(WorkerAfter(cfg, s.store, s.procs[p], move), item)
  {
    hide SinkOf, Completes, ReadMeta, Counter, CanIncrement, HSet, HIncr, SetStatus, Written;
    forall item | Spent(s.procs[p], item) ensures Spent(WorkerAfter(cfg, s.store, s.procs[p], move), item) {
    }
    assert ApplyWorker(cfg, s, p, move).procs == s.procs[p := WorkerAfter(cfg, s.store, s.procs[p], move)];
  }

  lemma EmitKeepsOps(cfg: Config, s: State, p: nat, reply: Reply)
    requires ProcsInv(cfg, s) && OpsInv(s) && Enabled(s, Worker(p, Emit(reply)))
    ensures OpsInv(ApplyWorker(cfg, s, p, Emit(reply)))
  {
    hide OpsInv, CellsOk, CounterInv, DrawsInv, CountedOnce, SpentInv, BufferedInv, Counter;
    hide SinceDrop, HSet, Spent, KeepsSpent;
    hide ProcsInv, WorkersBacked, COUNT_FIELD, META_FIELD, WidgetOf, Prepared, WantsCompletion;
    var s' := ApplyWorker(cfg, s, p, Emit(reply));
    var item := s.procs[p].worker.item;
    OpsParts(s);
    WorkerKeepsSpent(cfg, s, p, Emit(reply));
    HandItem(cfg, s, p);
    var sink := SinkOf(cfg, item);
    if Written(cfg, item, reply) && sink.Buffer? {
      var op := Stored(sink.routingKey, item.src, sink.field, item.message);
      WorkersStayBacked(s, s', p, [op]);
      StoredFieldsAreSafe(cfg.strategyKeys, item.src, Prepared(cfg, s.stream[item.src]).value);
      SetOtherField(s.store, sink.routingKey, sink.field, Payload(item.message));
      OpsAppended(s, s', op);
    } else {
      assert s'.ops == s.ops + [];
      WorkersStayBacked(s, s', p, []);
      OpsUnchanged(s, s');
    }
  }

  lemma IncrementKeepsOps(cfg: Config, s: State, p: nat, reply: Reply)
    requires ProcsInv(cfg, s) && OpsInv(s) && Enabled(s, Worker(p, Increment(reply)))
    ensures OpsInv(ApplyWorker(cfg, s, p, Increment(reply)))
  {
    hide OpsInv, CellsOk, CounterInv, DrawsInv, CountedOnce, SpentInv, BufferedInv;
    hide Counter, SinceDrop, HSet, KeepsSpent;
    hide ProcsInv, WorkersBacked, COUNT_FIELD, META_FIELD, WidgetOf, Prepared, WantsCompletion;
    var s' := ApplyWorker(cfg, s, p, Increment(reply));
    var item := s.procs[p].worker.item;
    var rk := item.routingKey;
    OpsParts(s);
    WorkerKeepsSpent(cfg, s, p, Increment(reply));
    if !reply.Applied() || !CanIncrement(s.store, rk) {
      assert s'.ops == s.ops + [];
      WorkersStayBacked(s, s', p, []);
      OpsUnchanged(s, s');
    } else {
      var op := Counted(rk, item.src, Counter(s.store, rk) + 1);
      assert op in s'.ops;
      WorkersStayBacked(s, s', p, [op]);
      CounterMatches(s, rk);
      HandMarkerIsUncounted(cfg, s, p);
      HandMarker(cfg, s, p);
      FieldsDiffer();
      SetOtherField(s.store, rk, COUNT_FIELD, Number(Counter(s.store, rk) + 1));
      OpsAppended(s, s', op);
    }
  }

  lemma CounterMatches(s: State, rk: string)
    requires CounterInv(s.store, s.ops)
    ensures Counter(s.store, rk) == SinceDrop(s.ops, rk)
  {
  }

  lemma HandMarker(cfg: Config, s: State, p: nat)
    requires ProcsInv(cfg, s) && p < |s.procs| && s.procs[p].worker.Hand? && s.procs[p].worker.item.Marker?
    ensures s.procs[p].worker.item.src in s.owner && s.owner[s.procs[p].worker.item.src] == p
  {
    hide ItemOk;
    HandItem(cfg, s, p);
    MarkerOwner(cfg, s, p, |s.procs[p].handled|);
  }

  lemma LookKeepsOps(cfg: Config, s: State, p: nat, reply: Reply)
    requires OpsInv(s) && Enabled(s, Worker(p, Look(reply)))
    ensures OpsInv(ApplyWorker(cfg, s, p, Look(reply)))
  {
    hide OpsInv, CellsOk, CounterInv, DrawsInv, CountedOnce, SpentInv, BufferedInv;
    hide Counter, SinceDrop, Spent, KeepsSpent;
    hide WorkersBacked, ReadMeta;
    var s' := ApplyWorker(cfg, s, p, Look(reply));
    var w := s.procs[p].worker;
    OpsParts(s);
    BackedWorker(s, p);
    WorkerKeepsSpent(cfg, s, p, Look(reply));
    if !reply.Ok? {
      assert s'.ops == s.ops + [];
      WorkersStayBacked(s, s', p, []);
      OpsUnchanged(s, s');
    } else {
      var op := Looked(w.item.routingKey, w.item.src, w.n, ReadMeta(s.store, w.item.routingKey));
      assert op in s'.ops;
      WorkersStayBacked(s, s', p, [op]);
      OpsAppended(s, s', op);
    }
  }

  lemma CompleteKeepsOps(cfg: Config, s: State, p: nat, reply: Reply)
    requires OpsInv(s) && Enabled(s, Worker(p, Complete(reply)))
    ensures OpsInv(ApplyWorker(cfg, s, p, Complete(reply)))
  {
    hide OpsInv, CellsOk, CounterInv, DrawsInv, CountedOnce, SpentInv, BufferedInv;
    hide Counter, SinceDrop, Spent, KeepsSpent;
    hide WorkersBacked, SetStatus;
    var s' := ApplyWorker(cfg, s, p, Complete(reply));
    var w := s.procs[p].worker;
    OpsParts(s);
    BackedWorker(s, p);
    WorkerKeepsSpent(cfg, s, p, Complete(reply));
    if !reply.Applied() {
      assert s'.ops == s.ops + [];
      WorkersStayBacked(s, s', p, []);
      OpsUnchanged(s, s');
    } else {
      var op := Buffered(w.item.routingKey, w.item.src, w.n, w.total);
      WorkersStayBacked(s, s', p, [op]);
      SetStatusFacts(s.store, w.item.routingKey, BUFFERED);
      OpsAppended(s, s', op);
    }
  }

  lemma WorkerKeepsOps(cfg: Config, s: State, p: nat, move: WorkerMove)
    requires ProcsInv(cfg, s) && OpsInv(s) && Enabled(s, Worker(p, move))
    ensures OpsInv(ApplyWorker(cfg, s, p, move))
  {
    match move {
      case Emit(reply) => EmitKeepsOps(cfg, s, p, reply);
      case Increment(reply) => IncrementKeepsOps(cfg, s, p, reply);
      case Look(reply) => LookKeepsOps(cfg, s, p, reply);
      case Complete(reply) => CompleteKeepsOps(cfg, s, p, reply);
      case _ =>
        hide OpsInv, ProcsInv, Counter, CellsOk, Spent, KeepsSpent, WorkersBacked;
        var s' := ApplyWorker(cfg, s, p, move);
        OpsParts(s);
        WorkerKeepsSpent(cfg, s, p, move);
        assert s'.ops == s.ops + [];
        WorkersStayBacked(s, s', p, []);
        OpsUnchanged(s, s');
    }
  }

  // ---- Every reachable state ----

  ghost predicate Inv(cfg: Config, s: State) {
    ProcsInv(cfg, s) && GroupInv(s) && FateInv(s) && OpsInv(s)
  }

  lemma InvParts(cfg: Config, s: State)
    requires Inv(cfg, s)
    ensures ProcsInv(cfg, s) && GroupInv(s) && FateInv(s) && OpsInv(s)
  {
  }

  lemma InitialInv(cfg: Config)
    ensures Inv(cfg, INITIAL)
  {
  }

  lemma InvStep(cfg: Config, s: State, step: Step)
    requires Inv(cfg, s) && Enabled(s, step)
    ensures Inv(cfg, Apply(cfg, s, step))
  {
    hide ProcsInv, GroupInv, FateInv, OpsInv, ApplyEnv, ApplyConsumer, ApplyWorker;
    match step {
      case Environment(move) =>
        EnvKeeps(cfg, s, move);
        EnvKeepsGroup(s, move);
        EnvKeepsOps(s, move);
      case Consumer(p, move) =>
        ConsumerMoves(cfg, s, p, move);
        GroupKeeps(cfg, s, p, move);
        FateKeeps(cfg, s, p, move);
        ConsumerKeepsOps(cfg, s, p, move);
      case Worker(p, move) =>
        WorkerMoves(cfg, s, p, move);
        WorkerKeepsGroup(cfg, s, p, move);
        WorkerKeepsOps(cfg, s, p, move);
    }
  }

  lemma EnvKeepsGroup(s: State, move: EnvMove)
    requires GroupInv(s) && FateInv(s) && EnvCan(s, move)
    ensures GroupInv(ApplyEnv(s, move)) && FateInv(ApplyEnv(s, move))
  {
    hide FateInv, HSet, DropBuffer, DropStatus;
    var s' := ApplyEnv(s, move);
    FateFrame(s, s');
    hide GroupInv;
    GroupFrame(s, s');
  }

  lemma WorkerKeepsGroup(cfg: Config, s: State, p: nat, move: WorkerMove)
    requires GroupInv(s) && FateInv(s) && Enabled(s, Worker(p, move))
    ensures GroupInv(ApplyWorker(cfg, s, p, move)) && FateInv(ApplyWorker(cfg, s, p, move))
  {
    WorkerTouches(cfg, s, p, move);
    hide FateInv, ApplyWorker, WorkerAfter;
    var s' := ApplyWorker(cfg, s, p, move);
    FateFrame(s, s');
    hide GroupInv;
    GroupFrame(s, s');
  }

  /** A worker move leaves the consumer side of the cluster alone. */
  lemma WorkerTouches(cfg: Config, s: State, p: nat, move: WorkerMove)
    requires Enabled(s, Worker(p, move))
    ensures var s' := ApplyWorker(cfg, s, p, move);
      && s'.group == s.group && s'.owner == s.owner && s'.fate == s.fate && s'.stream == s.stream
      && s'.deadLetters == s.deadLetters
      && s'.procs == s.procs[p := WorkerAfter(cfg, s.store, s.procs[p], move)]
      && s'.procs[p].consumer == s.procs[p].consumer && s'.procs[p].pushed == s.procs[p].pushed
      && s'.procs[p].alive == s.procs[p].alive
  {
    hide SinkOf, HSet, HIncr, SetStatus, ReadMeta, Completes, CanIncrement, Counter, Written;
  }

  /** The invariant holds at every point of every run. */
  lemma {:induction false} InvAlways(cfg: Config, run: seq<State>, steps: seq<Step>, i: nat)
    requires IsRun(cfg, run, steps) && i < |run|
    ensures Inv(cfg, run[i])
  {
    hide Inv, Apply, Enabled;
    if i == 0 {
      InitialInv(cfg);
    } else {
      InvAlways(cfg, run, steps, i - 1);
      InvStep(cfg, run[i - 1], steps[i - 1]);
    }
  }
}

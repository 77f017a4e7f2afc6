/**
 * What handled items leave behind: entries of the output logs, fields of the
 * buffer hash, and completed completion checks.
 */
module Effects {
  import opened Prelude
  import opened Messages
  import opened RedisBackend
  import opened Dispatcher
  import opened Cluster
  import opened ClusterInvariant
  import opened OpHistory

  // ---- Output logs ----

  /** The items of one process in a log, in log order. */
  function FromProc(log: seq<Out>, p: nat): seq<Item> {
    if log == [] then []
    else
      var last := log[|log| - 1];
      FromProc(log[..|log| - 1], p) + (if last.proc == p then [last.item] else [])
  }

  ghost predicate LogMatches(cfg: Config, s: State, p: nat, sink: Sink)
    requires p < |s.procs|
  {
    && |s.procs[p].landed| == |s.procs[p].handled|
    && FromProc(LogOf(s.outputs, sink), p) == Routed(cfg, s.procs[p].handled, s.procs[p].landed, sink)
  }

  /** Only log sinks have logs, and only started processes wrote to them. */
  ghost predicate LogsOk(s: State) {
    forall sink :: sink in s.outputs ==>
      IsLog(sink) && forall i :: 0 <= i < |s.outputs[sink]| ==> s.outputs[sink][i].proc < |s.procs|
  }

  ghost predicate OutputsInv(cfg: Config, s: State) {
    && LogsOk(s)
    && forall p, sink :: 0 <= p < |s.procs| && IsLog(sink) ==> LogMatches(cfg, s, p, sink)
  }

  // ---- Stored fields ----

  /** The item was written to a field of the buffer hash that is still there, unless the hash went away since. */
  ghost predicate StillStored(cfg: Config, store: Store, ops: seq<Op>, item: Item) {
    var sink := SinkOf(cfg, item);
    sink.Buffer? ==> sink.field in HashOf(store, sink.routingKey) || Dropped(sink.routingKey) in ops
  }

  // ---- Completion checks ----

  /** The whole completion check for the marker took effect: draw, look, and BUFFERED if the draw reached the total. */
  ghost predicate CheckRan(ops: seq<Op>, rk: string, id: nat, n: int, meta: Option<Meta>) {
    && Counted(rk, id, n) in ops
    && Looked(rk, id, n, meta) in ops
    && (Completes(meta, n).Some? ==> Buffered(rk, id, n, Completes(meta, n).value) in ops)
  }

  ghost predicate Checked(ops: seq<Op>, item: Item) {
    item.Marker? ==> exists n, meta :: CheckRan(ops, item.routingKey, item.src, n, meta)
  }

  /** Every item that had its effect still shows it. */
  ghost predicate ProcEffects(cfg: Config, store: Store, ops: seq<Op>, pr: Proc) {
    && |pr.landed| == |pr.handled|
    && forall k :: 0 <= k < |pr.handled| && pr.landed[k] ==>
         StillStored(cfg, store, ops, pr.handled[k]) && Checked(ops, pr.handled[k])
  }

  ghost predicate EffectsInv(cfg: Config, s: State) {
    && OutputsInv(cfg, s)
    && forall p :: 0 <= p < |s.procs| ==> ProcEffects(cfg, s.store, s.ops, s.procs[p])
  }

  // ---- Preservation ----

  /** Fields are never removed except with their whole hash. */
  ghost predicate FieldsKept(store: Store, store': Store, ops': seq<Op>) {
    forall rk, field :: field in HashOf(store, rk) ==> field in HashOf(store', rk) || Dropped(rk) in ops'
  }

  lemma ProcEffectsGrow(cfg: Config, store: Store, store': Store, ops: seq<Op>, ops': seq<Op>, pr: Proc, pr': Proc)
    requires ProcEffects(cfg, store, ops, pr)
    requires ops <= ops' && FieldsKept(store, store', ops')
    requires pr'.handled == pr.handled && pr'.landed == pr.landed
    ensures ProcEffects(cfg, store', ops', pr')
  {
    hide SinkOf, HashOf, Completes;
    forall k | 0 <= k < |pr'.handled| && pr'.landed[k]
      ensures StillStored(cfg, store', ops', pr'.handled[k]) && Checked(ops', pr'.handled[k])
    {
      var item := pr.handled[k];
      assert StillStored(cfg, store, ops, item) && Checked(ops, item);
      if item.Marker? {
        var n, meta :| CheckRan(ops, item.routingKey, item.src, n, meta);
        assert CheckRan(ops', item.routingKey, item.src, n, meta);
      }
    }
  }

  lemma ProcEffectsFinish(cfg: Config, store: Store, ops: seq<Op>, pr: Proc, landed: bool)
    requires ProcEffects(cfg, store, ops, pr) && InHand(pr.worker) != []
    requires landed ==> StillStored(cfg, store, ops, pr.worker.item) && Checked(ops, pr.worker.item)
    ensures ProcEffects(cfg, store, ops, FinishItem(pr, landed))
  {
    hide StillStored, Checked;
  }

  lemma FieldsKeptByEnv(s: State, move: EnvMove)
    requires EnvCan(s, move)
    ensures FieldsKept(s.store, ApplyEnv(s, move).store, ApplyEnv(s, move).ops)
    ensures s.ops <= ApplyEnv(s, move).ops && ApplyEnv(s, move).outputs == s.outputs
  {
  }

  lemma FieldsKeptByConsumer(cfg: Config, s: State, p: nat, move: ConsumerMove)
    requires Enabled(s, Consumer(p, move))
    ensures var s' := ApplyConsumer(cfg, s, p, move);
      && FieldsKept(s.store, s'.store, s'.ops) && s.ops <= s'.ops && s'.outputs == s.outputs
      && s'.procs == s.procs[p := ConsumerAfter(cfg, s, s.procs[p], move)]
      && s'.procs[p].handled == s.procs[p].handled && s'.procs[p].landed == s.procs[p].landed
  {
    SameWorker(cfg, s, s.procs[p], move);
    ConsumerOps(cfg, s, p, move);
    ConsumerProcs(cfg, s, p, move);
    hide ApplyConsumer, ConsumerAfter;
  }

  lemma FieldsKeptByWorker(cfg: Config, s: State, p: nat, move: WorkerMove)
    requires Enabled(s, Worker(p, move))
    ensures var s' := ApplyWorker(cfg, s, p, move);
      && FieldsKept(s.store, s'.store, s'.ops) && s.ops <= s'.ops
      && s'.procs == s.procs[p := WorkerAfter(cfg, s.store, s.procs[p], move)]
  {
    hide WorkerAfter, SinkOf, Written, Counter, CanIncrement, ReadMeta;
  }

  lemma FromProcAppend(log: seq<Out>, out: Out, p: nat)
    ensures FromProc(log + [out], p) == FromProc(log, p) + (if out.proc == p then [out.item] else [])
  {
    assert (log + [out])[..|log|] == log;
  }

  lemma {:induction false} NothingFromNewProc(log: seq<Out>, p: nat)
    requires forall i :: 0 <= i < |log| ==> log[i].proc < p
    ensures FromProc(log, p) == []
  {
    if log != [] {
      NothingFromNewProc(log[..|log| - 1], p);
    }
  }

  /** Outputs are only written by workers finishing an item; everything else leaves the logs as they match. */
  lemma OutputsUnmoved(cfg: Config, s: State, s': State)
    requires OutputsInv(cfg, s) && s'.outputs == s.outputs && |s.procs| <= |s'.procs|
    requires forall p :: 0 <= p < |s.procs| ==>
      s'.procs[p].handled == s.procs[p].handled && s'.procs[p].landed == s.procs[p].landed
    requires forall p :: |s.procs| <= p < |s'.procs| ==> s'.procs[p] == NEW_PROC
    ensures OutputsInv(cfg, s')
  {
    hide SinkOf;
    forall p, sink | 0 <= p < |s'.procs| && IsLog(sink) ensures LogMatches(cfg, s', p, sink) {
      if p < |s.procs| {
        assert LogMatches(cfg, s, p, sink);
      } else {
        NothingFromNewProc(LogOf(s'.outputs, sink), p);
      }
    }
  }

  /** A worker finishes an item that went to no log. */
  lemma OutputsFinish(cfg: Config, s: State, s': State, p: nat, landed: bool)
    requires OutputsInv(cfg, s) && p < |s.procs| && InHand(s.procs[p].worker) != []
    requires s'.procs == s.procs[p := FinishItem(s.procs[p], landed)] && s'.outputs == s.outputs
    requires landed ==> !IsLog(SinkOf(cfg, s.procs[p].worker.item))
    ensures OutputsInv(cfg, s')
  {
    hide SinkOf;
    forall q, sink | 0 <= q < |s'.procs| && IsLog(sink) ensures LogMatches(cfg, s', q, sink) {
      assert LogMatches(cfg, s, q, sink);
      if q == p {
        RoutedAppend(cfg, s.procs[p].handled, s.procs[p].landed, s.procs[p].worker.item, landed, sink);
      }
    }
  }

  /** A worker finishes an item by appending it to its log. */
  lemma OutputsLogged(cfg: Config, s: State, s': State, p: nat)
    requires OutputsInv(cfg, s) && p < |s.procs| && InHand(s.procs[p].worker) != []
    requires s'.procs == s.procs[p := FinishItem(s.procs[p], true)]
    requires var sink := SinkOf(cfg, s.procs[p].worker.item);
      && IsLog(sink)
      && s'.outputs == s.outputs[sink := LogOf(s.outputs, sink) + [Out(p, s.procs[p].worker.item)]]
    ensures OutputsInv(cfg, s')
  {
    hide SinkOf;
    var item := s.procs[p].worker.item;
    forall q, sink | 0 <= q < |s'.procs| && IsLog(sink) ensures LogMatches(cfg, s', q, sink) {
      assert LogMatches(cfg, s, q, sink);
      if q == p {
        RoutedAppend(cfg, s.procs[p].handled, s.procs[p].landed, item, true, sink);
      }
      if sink == SinkOf(cfg, item) {
        FromProcAppend(LogOf(s.outputs, sink), Out(p, item), q);
      }
    }
  }

  lemma EmitKeepsOutputs(cfg: Config, s: State, p: nat, reply: Reply)
    requires OutputsInv(cfg, s) && Enabled(s, Worker(p, Emit(reply)))
    ensures OutputsInv(cfg, ApplyWorker(cfg, s, p, Emit(reply)))
  {
    hide OutputsInv, HSet, SinkOf;
    var s' := ApplyWorker(cfg, s, p, Emit(reply));
    var item := s.procs[p].worker.item;
    if Written(cfg, item, reply) && !SinkOf(cfg, item).Buffer? {
      OutputsLogged(cfg, s, s', p);
    } else {
      OutputsFinish(cfg, s, s', p, Written(cfg, item, reply));
    }
  }

  /** How a move other than Emit leaves the process: it finished a marker, or handled nothing. */
  lemma MarkerMove(cfg: Config, s: State, p: nat, move: WorkerMove)
    requires Enabled(s, Worker(p, move)) && !move.Emit?
    ensures ApplyWorker(cfg, s, p, move).outputs == s.outputs
    ensures ApplyWorker(cfg, s, p, move).procs == s.procs[p := WorkerAfter(cfg, s.store, s.procs[p], move)]
    ensures var pr, pr' := s.procs[p], WorkerAfter(cfg, s.store, s.procs[p], move);
      if pr'.worker.Resting?
      then InHand(pr.worker) != [] && pr.worker.item.Marker?
           && (pr' == FinishItem(pr, true) || pr' == FinishItem(pr, false))
      else pr'.handled == pr.handled && pr'.landed == pr.landed
  {
    hide HSet, HIncr, SetStatus, ReadMeta, Completes, CanIncrement, Counter;
  }

  lemma WorkerKeepsOutputs(cfg: Config, s: State, p: nat, move: WorkerMove)
    requires OutputsInv(cfg, s) && Enabled(s, Worker(p, move))
    ensures OutputsInv(cfg, ApplyWorker(cfg, s, p, move))
  {
    if move.Emit? {
      EmitKeepsOutputs(cfg, s, p, move.reply);
    } else {
      MarkerMove(cfg, s, p, move);
      hide OutputsInv, ApplyWorker, WorkerAfter, SinkOf;
      var s' := ApplyWorker(cfg, s, p, move);
      var pr, pr' := s.procs[p], s'.procs[p];
      if pr'.worker.Resting? {
        MarkerSink(cfg, pr.worker.item);
        OutputsFinish(cfg, s, s', p, pr' == FinishItem(pr, true));
      } else {
        OutputsUnmoved(cfg, s, s');
      }
    }
  }

  lemma MarkerSink(cfg: Config, item: Item)
    ensures item.Marker? ==> SinkOf(cfg, item) == Counting(item.routingKey)
  {
  }

  // ---- Preservation: effects of workers ----

  /** What the worker's own step adds for the item it finishes. */
  lemma FinishedItemEffects(cfg: Config, s: State, p: nat, move: WorkerMove)
    requires WorkersBacked(s) && Enabled(s, Worker(p, move))
    ensures var s' := ApplyWorker(cfg, s, p, move);
      var pr, pr' := s.procs[p], s'.procs[p];
      pr'.worker.Resting? ==>
        && InHand(pr.worker) != []
        && |pr'.landed| == |pr.landed| + 1
        && pr' == FinishItem(pr, pr'.landed[|pr.landed|])
        && (pr'.landed[|pr.landed|] ==>
              StillStored(cfg, s'.store, s'.ops, pr.worker.item) && Checked(s'.ops, pr.worker.item))
  {
    var s' := ApplyWorker(cfg, s, p, move);
    var w := s.procs[p].worker;
    match move {
      case Emit(reply) =>
        EmitStores(cfg, s, p, reply);
      case Look(reply) =>
        LookChecks(cfg, s, p, reply);
      case Complete(reply) =>
        CompleteChecks(cfg, s, p, reply);
      case Increment(reply) =>
        hide Counter, CanIncrement, HIncr, StillStored, Checked;
      case _ =>
    }
  }

  lemma EmitStores(cfg: Config, s: State, p: nat, reply: Reply)
    requires Enabled(s, Worker(p, Emit(reply)))
    ensures var s' := ApplyWorker(cfg, s, p, Emit(reply));
      && s'.procs[p] == FinishItem(s.procs[p], Written(cfg, s.procs[p].worker.item, reply))
      && (Written(cfg, s.procs[p].worker.item, reply) ==> StillStored(cfg, s'.store, s'.ops, s.procs[p].worker.item))
  {
    hide SinkOf;
  }

  lemma LookChecks(cfg: Config, s: State, p: nat, reply: Reply)
    requires WorkersBacked(s) && Enabled(s, Worker(p, Look(reply)))
    ensures var s' := ApplyWorker(cfg, s, p, Look(reply));
      var pr, pr' := s.procs[p], s'.procs[p];
      pr'.worker.Resting? ==>
        && pr' == FinishItem(pr, pr'.landed[|pr.landed|])
        && (pr'.landed[|pr.landed|] ==> Checked(s'.ops, pr.worker.item))
  {
    hide ReadMeta;
    var w := s.procs[p].worker;
    BackedWorker(s, p);
    if reply.Ok? {
      var meta := ReadMeta(s.store, w.item.routingKey);
      var ops' := s.ops + [Looked(w.item.routingKey, w.item.src, w.n, meta)];
      assert Looked(w.item.routingKey, w.item.src, w.n, meta) in ops';
      if Completes(meta, w.n).None? {
        assert CheckRan(ops', w.item.routingKey, w.item.src, w.n, meta);
      }
    }
  }

  lemma CompleteChecks(cfg: Config, s: State, p: nat, reply: Reply)
    requires WorkersBacked(s) && Enabled(s, Worker(p, Complete(reply)))
    ensures var s' := ApplyWorker(cfg, s, p, Complete(reply));
      && s'.procs[p] == FinishItem(s.procs[p], reply.Applied())
      && (reply.Applied() ==> Checked(s'.ops, s.procs[p].worker.item))
  {
    hide SetStatus;
    var w := s.procs[p].worker;
    BackedWorker(s, p);
    if reply.Applied() {
      var op := Buffered(w.item.routingKey, w.item.src, w.n, w.total);
      assert op in s.ops + [op];
      assert CheckRan(s.ops + [op], w.item.routingKey, w.item.src, w.n, Some(Total(w.total)));
    }
  }

  /** All effects stay visible when only process `p` moves and history and fields grow. */
  lemma EffectsOfOthers(cfg: Config, s: State, s': State, p: nat)
    requires EffectsInv(cfg, s) && OutputsInv(cfg, s')
    requires s.ops <= s'.ops && FieldsKept(s.store, s'.store, s'.ops) && |s.procs| <= |s'.procs|
    requires forall q :: 0 <= q < |s.procs| && q != p ==>
      s'.procs[q].handled == s.procs[q].handled && s'.procs[q].landed == s.procs[q].landed
    requires forall q :: |s.procs| <= q < |s'.procs| ==> s'.procs[q] == NEW_PROC
    requires p < |s.procs| ==> ProcEffects(cfg, s'.store, s'.ops, s'.procs[p])
    ensures EffectsInv(cfg, s')
  {
    hide OutputsInv, FieldsKept, StillStored, Checked;
    forall q | 0 <= q < |s'.procs| ensures ProcEffects(cfg, s'.store, s'.ops, s'.procs[q]) {
      if q < |s.procs| && q != p {
        ProcEffectsGrow(cfg, s.store, s'.store, s.ops, s'.ops, s.procs[q], s'.procs[q]);
      }
    }
  }

  lemma EnvKeepsEffects(cfg: Config, s: State, move: EnvMove)
    requires EffectsInv(cfg, s) && EnvCan(s, move)
    ensures EffectsInv(cfg, ApplyEnv(s, move))
  {
    var s' := ApplyEnv(s, move);
    FieldsKeptByEnv(s, move);
    hide FieldsKept, OutputsInv, ProcEffects, HSet, DropBuffer, DropStatus;
    OutputsUnmoved(cfg, s, s');
    var p := if move.Timeout? || move.Cancel? || move.Crash? then move.proc else |s.procs|;
    if p < |s.procs| {
      ProcEffectsGrow(cfg, s.store, s'.store, s.ops, s'.ops, s.procs[p], s'.procs[p]);
    }
    EffectsOfOthers(cfg, s, s', p);
  }

  lemma ConsumerKeepsEffects(cfg: Config, s: State, p: nat, move: ConsumerMove)
    requires EffectsInv(cfg, s) && Enabled(s, Consumer(p, move))
    ensures EffectsInv(cfg, ApplyConsumer(cfg, s, p, move))
  {
    var s' := ApplyConsumer(cfg, s, p, move);
    FieldsKeptByConsumer(cfg, s, p, move);
    hide FieldsKept, OutputsInv, ProcEffects, ApplyConsumer, ConsumerAfter;
    OutputsUnmoved(cfg, s, s');
    ProcEffectsGrow(cfg, s.store, s'.store, s.ops, s'.ops, s.procs[p], s'.procs[p]);
    EffectsOfOthers(cfg, s, s', p);
  }

  lemma WorkerKeepsEffects(cfg: Config, s: State, p: nat, move: WorkerMove)
    requires EffectsInv(cfg, s) && WorkersBacked(s) && Enabled(s, Worker(p, move))
    ensures EffectsInv(cfg, ApplyWorker(cfg, s, p, move))
  {
    var s' := ApplyWorker(cfg, s, p, move);
    var pr, pr' := s.procs[p], s'.procs[p];
    FieldsKeptByWorker(cfg, s, p, move);
    WorkerKeepsOutputs(cfg, s, p, move);
    FinishedItemEffects(cfg, s, p, move);
    WorkerHandles(cfg, s, p, move);
    hide FieldsKept, OutputsInv, ProcEffects, ApplyWorker, WorkerAfter, StillStored, Checked, WorkersBacked;
    if pr'.worker.Resting? {
      ProcEffectsGrow(cfg, s.store, s'.store, s.ops, s'.ops, pr, pr);
      ProcEffectsFinish(cfg, s'.store, s'.ops, pr, pr'.landed[|pr.landed|]);
    } else {
      ProcEffectsGrow(cfg, s.store, s'.store, s.ops, s'.ops, pr, pr');
    }
    EffectsOfOthers(cfg, s, s', p);
  }

  lemma WorkerHandles(cfg: Config, s: State, p: nat, move: WorkerMove)
    requires Enabled(s, Worker(p, move))
    ensures var pr, pr' := s.procs[p], ApplyWorker(cfg, s, p, move).procs[p];
      !pr'.worker.Resting? ==> pr'.handled == pr.handled && pr'.landed == pr.landed
  {
    if move.Emit? { EmitStores(cfg, s, p, move.reply); } else { MarkerMove(cfg, s, p, move); }
  }

  /** The effects are there at every point of every run. */
  lemma {:induction false} EffectsAlways(cfg: Config, run: seq<State>, steps: seq<Step>, i: nat)
    requires IsRun(cfg, run, steps) && i < |run|
    ensures EffectsInv(cfg, run[i])
  {
    hide EffectsInv, ApplyEnv, ApplyConsumer, ApplyWorker, Inv;
    if i == 0 {
      NoEffectsYet(cfg);
    } else {
      var s := run[i - 1];
      EffectsAlways(cfg, run, steps, i - 1);
      InvAlways(cfg, run, steps, i - 1);
      match steps[i - 1] {
        case Environment(move) => EnvKeepsEffects(cfg, s, move);
        case Consumer(p, move) => ConsumerKeepsEffects(cfg, s, p, move);
        case Worker(p, move) =>
          assert WorkersBacked(s) by { InvBacked(cfg, s); }
          WorkerKeepsEffects(cfg, s, p, move);
      }
    }
  }

  lemma InvBacked(cfg: Config, s: State)
    requires Inv(cfg, s)
    ensures WorkersBacked(s)
  {
  }

  lemma NoEffectsYet(cfg: Config)
    ensures EffectsInv(cfg, INITIAL)
  {
  }

  // ---- Per-sink order ----

  /**
   * In every reachable state of every run, what one process has in an output log
   * is exactly the order-preserving selection of its handled history: the items
   * whose sink is that log and whose write took effect.
   */
  lemma PerSinkOrder(cfg: Config, run: seq<State>, steps: seq<Step>, i: nat, p: nat, sink: Sink)
    requires IsRun(cfg, run, steps) && i < |run| && p < |run[i].procs| && IsLog(sink)
    ensures |run[i].procs[p].landed| == |run[i].procs[p].handled|
    ensures FromProc(LogOf(run[i].outputs, sink), p) ==
      Routed(cfg, run[i].procs[p].handled, run[i].procs[p].landed, sink)
  {
    hide IsRun, SinkOf;
    EffectsAlways(cfg, run, steps, i);
    assert LogMatches(cfg, run[i], p, sink);
  }
}

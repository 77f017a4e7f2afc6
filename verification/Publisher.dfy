/** What the publisher has to do so that completion is reached: `__meta__` in time, and never another total. */
module Publisher {
  import opened Prelude
  import opened Messages
  import opened Admission
  import opened Controller
  import opened RedisBackend
  import opened Dispatcher
  import opened Cluster
  import opened ClusterInvariant
  import opened OpHistory
  import opened Completion
  import opened CompletionReached

  /** If `__meta__` is there, it holds the total. */
  ghost predicate OnlyTotal(store: Store, rk: string, total: int) {
    META_FIELD in HashOf(store, rk) ==> HashOf(store, rk)[META_FIELD] == MetaText(Total(total))
  }

  ghost predicate HasMeta(store: Store, rk: string) {
    META_FIELD in HashOf(store, rk)
  }

  ghost predicate NoneCounted(ops: seq<Op>, rk: string) {
    forall i :: 0 <= i < |ops| ==> !(ops[i].Counted? && ops[i].rk == rk)
  }

  /** Whoever looked at the total of `rk` saw it. */
  ghost predicate AllSaw(ops: seq<Op>, rk: string, total: int) {
    forall i :: 0 <= i < |ops| && ops[i].Looked? && ops[i].rk == rk ==> ops[i].meta == Some(Total(total))
  }

  /** The step leaves the `__meta__` of `rk` as it was. */
  ghost predicate MetaKept(store: Store, store': Store, rk: string) {
    && HasMeta(store', rk) == HasMeta(store, rk)
    && (HasMeta(store, rk) ==> HashOf(store', rk)[META_FIELD] == HashOf(store, rk)[META_FIELD])
  }

  lemma OtherFieldKeepsMeta(store: Store, rk: string, rk': string, field: string, cell: Cell)
    requires field != META_FIELD || rk' != rk
    ensures MetaKept(store, HSet(store, rk', field, cell), rk)
  {
    hide META_FIELD;
  }

  lemma WorkerKeepsMeta(cfg: Config, s: State, p: nat, move: WorkerMove, rk: string)
    requires ProcsInv(cfg, s) && Enabled(s, Worker(p, move))
    ensures MetaKept(s.store, ApplyWorker(cfg, s, p, move).store, rk)
  {
    hide ProcsInv, META_FIELD, COUNT_FIELD, WidgetOf, Prepared, WantsCompletion, MetaKept;
    hide HSet, Counter, CanIncrement, ReadMeta;
    SameMeta(s.store, s.store, rk);
    match move {
      case Emit(reply) =>
        var item := s.procs[p].worker.item;
        HandItem(cfg, s, p);
        StoredFieldsAreSafe(cfg.strategyKeys, item.src, Prepared(cfg, s.stream[item.src]).value);
        var sink := SinkOf(cfg, item);
        if sink.Buffer? {
          OtherFieldKeepsMeta(s.store, rk, sink.routingKey, sink.field, Payload(item.message));
        }
      case Increment(reply) =>
        FieldsDiffer();
        var key := s.procs[p].worker.item.routingKey;
        OtherFieldKeepsMeta(s.store, rk, key, COUNT_FIELD, Number(Counter(s.store, key) + 1));
      case Complete(reply) =>
        SameMeta(s.store, SetStatus(s.store, s.procs[p].worker.item.routingKey, BUFFERED), rk);
      case _ =>
    }
  }

  lemma SameMeta(store: Store, store': Store, rk: string)
    requires store'.buffers == store.buffers
    ensures MetaKept(store, store', rk)
  {
  }

  lemma ConsumerKeepsMeta(cfg: Config, s: State, p: nat, move: ConsumerMove, rk: string)
    requires Enabled(s, Consumer(p, move))
    ensures MetaKept(s.store, ApplyConsumer(cfg, s, p, move).store, rk)
  {
    ConsumerOps(cfg, s, p, move);
    hide ApplyConsumer, MetaKept;
    SameMeta(s.store, ApplyConsumer(cfg, s, p, move).store, rk);
  }

  /** Whoever looks has counted before. */
  lemma LookerCounted(cfg: Config, s: State, p: nat, reply: Reply)
    requires WorkersBacked(s) && Enabled(s, Worker(p, Look(reply)))
    ensures !NoneCounted(s.ops, s.procs[p].worker.item.routingKey)
  {
    BackedWorker(s, p);
    var w := s.procs[p].worker;
    var i :| 0 <= i < |s.ops| && s.ops[i] == Counted(w.item.routingKey, w.item.src, w.n);
  }

  lemma WorkerSees(cfg: Config, s: State, p: nat, move: WorkerMove, rk: string, total: int)
    requires WorkersBacked(s) && Enabled(s, Worker(p, move))
    requires AllSaw(s.ops, rk, total) && OnlyTotal(s.store, rk, total)
    requires HasMeta(s.store, rk) || NoneCounted(s.ops, rk)
    ensures AllSaw(ApplyWorker(cfg, s, p, move).ops, rk, total)
  {
    if move.Look? { LookerCounted(cfg, s, p, move.reply); }
    hide WorkersBacked, WorkerAfter, SinkOf, Written, NoneCounted, CanIncrement, Counter;
    hide HSet, HIncr, SetStatus, META_FIELD;
  }

  /** What is known of `rk` before and after the publisher wrote its total. */
  ghost predicate Guarded(s: State, rk: string, total: int, published: bool) {
    && OnlyTotal(s.store, rk, total) && AllSaw(s.ops, rk, total)
    && (if published then HasMeta(s.store, rk) else NoneCounted(s.ops, rk))
  }

  /** A step that neither touches `__meta__` nor looks at it wrongly. */
  lemma GuardFrame(s: State, s': State, rk: string, total: int, published: bool, published': bool)
    requires Guarded(s, rk, total, published) && MetaKept(s.store, s'.store, rk) && AllSaw(s'.ops, rk, total)
    requires published' ==> published
    requires !published' ==> NoneCounted(s'.ops, rk)
    ensures Guarded(s', rk, total, published')
  {
    hide META_FIELD, NoneCounted, AllSaw;
  }

  lemma EnvGuard(s: State, move: EnvMove, rk: string, total: int, published: bool, published': bool)
    requires EnvCan(s, move) && Guarded(s, rk, total, published)
    requires move.SetMeta? && move.rk == rk ==> move.meta == Total(total)
    requires published' ==> published || move == SetMeta(rk, Total(total))
    requires !published' ==> NoneCounted(ApplyEnv(s, move).ops, rk)
    requires Dropped(rk) !in ApplyEnv(s, move).ops
    ensures Guarded(ApplyEnv(s, move), rk, total, published')
  {
    hide META_FIELD, NoneCounted;
    if move.ExpireBuffer? {
      assert Dropped(move.rk) == ApplyEnv(s, move).ops[|s.ops|];
    }
  }

  lemma ConsumerSees(cfg: Config, s: State, p: nat, move: ConsumerMove, rk: string, total: int)
    requires Enabled(s, Consumer(p, move)) && AllSaw(s.ops, rk, total)
    ensures AllSaw(ApplyConsumer(cfg, s, p, move).ops, rk, total)
  {
    ConsumerOps(cfg, s, p, move);
    hide ApplyConsumer;
  }

  lemma GuardStep(cfg: Config, s: State, step: Step, rk: string, total: int, published: bool, published': bool)
    requires Inv(cfg, s) && Enabled(s, step) && Guarded(s, rk, total, published)
    requires step.Environment? && step.env.SetMeta? && step.env.rk == rk ==> step.env.meta == Total(total)
    requires published' ==> published || step == Environment(SetMeta(rk, Total(total)))
    requires !published' ==> NoneCounted(Apply(cfg, s, step).ops, rk)
    requires Dropped(rk) !in Apply(cfg, s, step).ops
    ensures Guarded(Apply(cfg, s, step), rk, total, published')
  {
    hide Inv, ProcsInv, OpsInv, ApplyWorker, ApplyConsumer, ApplyEnv;
    hide META_FIELD, NoneCounted, AllSaw, OnlyTotal, HasMeta, MetaKept;
    InvParts(cfg, s);
    OpsParts(s);
    hide Guarded;
    match step {
      case Environment(move) =>
        EnvGuard(s, move, rk, total, published, published');
      case Worker(p, move) =>
        GuardParts(s, rk, total, published);
        WorkerKeepsMeta(cfg, s, p, move, rk);
        WorkerSees(cfg, s, p, move, rk, total);
        GuardFrame(s, Apply(cfg, s, step), rk, total, published, published');
      case Consumer(p, move) =>
        GuardParts(s, rk, total, published);
        ConsumerKeepsMeta(cfg, s, p, move, rk);
        ConsumerSees(cfg, s, p, move, rk, total);
        GuardFrame(s, Apply(cfg, s, step), rk, total, published, published');
    }
  }

  lemma GuardParts(s: State, rk: string, total: int, published: bool)
    requires Guarded(s, rk, total, published)
    ensures OnlyTotal(s.store, rk, total) && AllSaw(s.ops, rk, total)
    ensures HasMeta(s.store, rk) || NoneCounted(s.ops, rk)
  {
  }

  /**
   * The publisher's part, up to the state `i`: at step `k` it wrote `total` for
   * `rk`, before anything was counted under `rk`, and never wrote another value.
   */
  ghost predicate PublishedInTime(run: seq<State>, steps: seq<Step>, k: nat, i: nat, rk: string, total: int) {
    && k < i < |run| && i <= |steps|
    && steps[k] == Environment(SetMeta(rk, Total(total)))
    && NoneCounted(run[k].ops, rk)
    && forall j :: 0 <= j < i && steps[j].Environment? && steps[j].env.SetMeta? && steps[j].env.rk == rk ==>
         steps[j].env.meta == Total(total)
  }

  lemma PrefixUncounted(ops: seq<Op>, ops': seq<Op>, rk: string)
    requires ops <= ops' && NoneCounted(ops', rk)
    ensures NoneCounted(ops, rk)
  {
    forall i | 0 <= i < |ops| ensures !(ops[i].Counted? && ops[i].rk == rk) {
      assert ops[i] == ops'[i];
    }
  }

  lemma {:induction false} GuardAlways(cfg: Config, run: seq<State>, steps: seq<Step>, k: nat, i: nat, j: nat,
                                      rk: string, total: int)
    requires IsRun(cfg, run, steps) && PublishedInTime(run, steps, k, i, rk, total) && Dropped(rk) !in run[i].ops
    requires j <= i
    ensures Guarded(run[j], rk, total, j > k)
  {
    hide Inv, Apply, Enabled, Guarded, NoneCounted;
    if j == 0 {
      NothingYet(rk, total);
    } else {
      GuardAlways(cfg, run, steps, k, i, j - 1, rk, total);
      InvAlways(cfg, run, steps, j - 1);
      OpsOnlyGrow(cfg, run, steps, j, i);
      if j <= k {
        OpsOnlyGrow(cfg, run, steps, j, k);
        PrefixUncounted(run[j].ops, run[k].ops, rk);
      }
      GuardStep(cfg, run[j - 1], steps[j - 1], rk, total, j - 1 > k, j > k);
    }
  }

  lemma NothingYet(rk: string, total: int)
    ensures Guarded(INITIAL, rk, total, false)
  {
  }

  /**
   * Completion is reached. Let the publisher write `total` for `rk` before
   * anything is counted under `rk`, and never another value, and let the hash
   * not expire. When all workers have drained their queues without a Redis error
   * on the completion checks for `rk`, and at least `total` requests for `rk` were
   * processed with their markers, then BUFFERED has been written, by the very
   * worker that drew `total`.
   */
  lemma CompletionIsReached(cfg: Config, run: seq<State>, steps: seq<Step>, k: nat, i: nat, rk: string, total: int)
    requires IsRun(cfg, run, steps) && PublishedInTime(run, steps, k, i, rk, total)
    requires Dropped(rk) !in run[i].ops
    requires forall p :: 0 <= p < |run[i].procs| ==> Drained(run[i].procs[p], rk)
    requires |Marked(cfg, run[i], rk)| >= total >= 1
    ensures exists id :: Buffered(rk, id, total, total) in run[i].ops
  {
    hide IsRun, Marked, Drained;
    GuardAlways(cfg, run, steps, k, i, i, rk, total);
    CompletionIfSeen(cfg, run, steps, i, rk, total);
  }
}

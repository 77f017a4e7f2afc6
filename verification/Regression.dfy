/**
 * The bound under which the status cannot regress is exact: for every total and
 * every larger number of requests there is a run, free of faults, in which
 * PROCESSING is written after BUFFERED.
 */
module Regression {
  import opened Prelude
  import opened Messages
  import opened Admission
  import opened Controller
  import opened RedisBackend
  import opened Dispatcher
  import opened Cluster
  import opened ClusterInvariant
  import opened OpHistory
  import opened Completion

  /**
   * In the run, BUFFERED is written against `total` at step `i` and PROCESSING at
   * the later step `j`, with `n` requests appended.
   */
  ghost predicate Regresses(cfg: Config, run: seq<State>, steps: seq<Step>, i: nat, j: nat, rk: string,
                            total: int, n: nat) {
    && IsRun(cfg, run, steps) && i < j < |steps|
    && WritesBuffered(run[i], steps[i], rk, total)
    && WritesProcessing(run[j], steps[j], rk)
    && |Requests(cfg, run[j], rk)| == n
  }

  // ---- One process serving equal requests, one after the other ----

  /** The bookkeeping of `rk` shows `count` increments and the total. */
  ghost predicate Books(store: Store, rk: string, count: nat, total: int) {
    CanIncrement(store, rk) && Counter(store, rk) == count && ReadMeta(store, rk) == Some(Total(total))
  }

  /** A scenario: `n` equal entries so far, all requests for `rk`, and `p` is the latest process. */
  datatype Scene = Scene(e: Entry, n: nat, rk: string, total: int, p: nat)

  /**
   * The latest process, a healthy one, stands at the given stages; `next` entries
   * were delivered, `count` were counted.
   */
  ghost predicate At(sc: Scene, s: State, c: ConsumerStage, w: WorkerStage, queue: seq<Item>, next: nat, count: nat) {
    && |s.stream| == sc.n && (forall k :: 0 <= k < sc.n ==> s.stream[k] == sc.e)
    && s.group.exists_ && s.group.start == 0 && s.group.next == next
    && |s.procs| == sc.p + 1 && s.procs[sc.p].alive && !s.procs[sc.p].cancelled
    && s.procs[sc.p].consumer == c && s.procs[sc.p].worker == w && s.procs[sc.p].queue == queue
    && Books(s.store, sc.rk, count, sc.total)
  }

  ghost predicate GoodScene(cfg: Config, sc: Scene) {
    && IsRequestFor(cfg, sc.e, sc.rk)
  }

  function InfoOf(cfg: Config, sc: Scene): EventInfo
    requires Prepared(cfg, sc.e).Some?
  {
    Prepared(cfg, sc.e).value
  }

  /** A moment at which the request is admitted. */
  lemma AdmittedAt(cfg: Config, id: nat, e: Entry) returns (now: int)
    requires Prepared(cfg, e).Some?
    ensures var info := Prepared(cfg, e).value;
      Decision(cfg, id, e, now, now, true) == if WantsCompletion(info) then Announcing(id, info) else Pushing(id, info)
  {
    var m := e.Content().message;
    var age := if cfg.eventTimeout < MESSAGE_DISPATCHER_TIMEOUT_SEC then cfg.eventTimeout
               else MESSAGE_DISPATCHER_TIMEOUT_SEC;
    now := m.eventData.value.requestTimestamp + age;
    WorkIsRunUnlessTooOld(cfg, now, now, m);
  }

  /** Storing a widget leaves the books alone. */
  lemma StoringKeepsBooks(store: Store, rk: string, count: nat, total: int, rk': string, field: string, cell: Cell)
    requires Books(store, rk, count, total) && field != COUNT_FIELD && field != META_FIELD
    ensures Books(HSet(store, rk', field, cell), rk, count, total)
  {
    hide COUNT_FIELD, META_FIELD;
  }

  lemma CountingKeepsBooks(store: Store, rk: string, count: nat, total: int)
    requires Books(store, rk, count, total)
    ensures Books(HIncr(store, rk), rk, count + 1, total)
  {
    FieldsDiffer();
    hide COUNT_FIELD, META_FIELD;
  }

  lemma StatusKeepsBooks(store: Store, rk: string, count: nat, total: int, status: string)
    requires Books(store, rk, count, total)
    ensures Books(SetStatus(store, rk, status), rk, count, total)
  {
  }

  /** The steps added to `steps` are steps of goroutines. */
  ghost predicate NoEnvironment(steps: seq<Step>, steps': seq<Step>) {
    forall k :: |steps| <= k < |steps'| ==> !steps'[k].Environment?
  }

  /** The first half of a service: from the read to the acknowledgement. */
  lemma Consume(cfg: Config, sc: Scene, run: seq<State>, steps: seq<Step>, k: nat, announceOnly: bool)
    returns (run': seq<State>, steps': seq<Step>)
    requires GoodScene(cfg, sc) && IsRun(cfg, run, steps) && k < sc.n
    requires At(sc, Last(run), Idle, Resting, [], k, k)
    ensures IsRun(cfg, run', steps') && run <= run' && steps <= steps'
    ensures NoEnvironment(steps, steps')
    ensures announceOnly ==> At(sc, Last(run'), Announcing(k, InfoOf(cfg, sc)), Resting, [], k + 1, k)
    ensures !announceOnly ==>
      At(sc, Last(run'), Idle, Resting,
         [WidgetOf(cfg.strategyKeys, k, InfoOf(cfg, sc)), MarkerOf(k, InfoOf(cfg, sc))], k + 1, k)
  {
    hide Prepared, Decision, WidgetOf, Books, SetStatus;
    var info := InfoOf(cfg, sc);
    run', steps' := Extend(cfg, run, steps, Consumer(sc.p, Read(Ok)));
    assert At(sc, Last(run'), Fetched(k), Resting, [], k + 1, k);
    var now := AdmittedAt(cfg, k, sc.e);
    run', steps' := Extend(cfg, run', steps', Consumer(sc.p, Decide(now, now, true)));
    assert At(sc, Last(run'), Announcing(k, info), Resting, [], k + 1, k);
    if announceOnly { return; }
    StatusKeepsBooks(Last(run').store, sc.rk, k, sc.total, PROCESSING);
    run', steps' := Extend(cfg, run', steps', Consumer(sc.p, Announce(Ok)));
    assert At(sc, Last(run'), Pushing(k, info), Resting, [], k + 1, k);
    run', steps' := Extend(cfg, run', steps', Consumer(sc.p, PushWidget));
    assert At(sc, Last(run'), Marking(k, info), Resting, [WidgetOf(cfg.strategyKeys, k, info)], k + 1, k);
    run', steps' := Extend(cfg, run', steps', Consumer(sc.p, PushMarker));
    assert At(sc, Last(run'), Acking(k, Processed(true)), Resting,
              [WidgetOf(cfg.strategyKeys, k, info), MarkerOf(k, info)], k + 1, k);
    run', steps' := Extend(cfg, run', steps', Consumer(sc.p, Ack(Ok)));
  }

  /** The worker stores the widget. */
  lemma DrainWidget(cfg: Config, sc: Scene, run: seq<State>, steps: seq<Step>, k: nat)
    returns (run': seq<State>, steps': seq<Step>)
    requires GoodScene(cfg, sc) && IsRun(cfg, run, steps)
    requires At(sc, Last(run), Idle, Resting,
                [WidgetOf(cfg.strategyKeys, k, InfoOf(cfg, sc)), MarkerOf(k, InfoOf(cfg, sc))], k + 1, k)
    ensures IsRun(cfg, run', steps') && run <= run' && steps <= steps'
    ensures NoEnvironment(steps, steps')
    ensures At(sc, Last(run'), Idle, Resting, [MarkerOf(k, InfoOf(cfg, sc))], k + 1, k)
  {
    hide Prepared, WidgetOf, Books, HSet, SinkOf, WantsCompletion;
    var info := InfoOf(cfg, sc);
    run', steps' := Extend(cfg, run, steps, Worker(sc.p, Take));
    assert At(sc, Last(run'), Idle, Hand(WidgetOf(cfg.strategyKeys, k, info)), [MarkerOf(k, info)], k + 1, k);
    EmitStays(cfg, sc, Last(run'), k);
    run', steps' := Extend(cfg, run', steps', Worker(sc.p, Emit(Ok)));
  }

  /** It counts the marker, and completes the event if the count is reached. */
  lemma DrainMarker(cfg: Config, sc: Scene, run: seq<State>, steps: seq<Step>, k: nat)
    returns (run': seq<State>, steps': seq<Step>, i: nat)
    requires GoodScene(cfg, sc) && IsRun(cfg, run, steps)
    requires At(sc, Last(run), Idle, Resting, [MarkerOf(k, InfoOf(cfg, sc))], k + 1, k)
    ensures IsRun(cfg, run', steps') && run <= run' && steps <= steps'
    ensures NoEnvironment(steps, steps')
    ensures At(sc, Last(run'), Idle, Resting, [], k + 1, k + 1)
    ensures k + 1 >= sc.total ==> i < |steps'| && WritesBuffered(run'[i], steps'[i], sc.rk, sc.total)
  {
    hide Prepared, Books, HIncr, SetStatus, ReadMeta, Counter, CanIncrement, WantsCompletion;
    var marker := MarkerOf(k, InfoOf(cfg, sc));
    run', steps' := Extend(cfg, run, steps, Worker(sc.p, Take));
    assert At(sc, Last(run'), Idle, Hand(marker), [], k + 1, k);
    IncrementCounts(cfg, sc, Last(run'), k);
    run', steps' := Extend(cfg, run', steps', Worker(sc.p, Increment(Ok)));
    LookDecides(cfg, sc, Last(run'), k);
    run', steps' := Extend(cfg, run', steps', Worker(sc.p, Look(Ok)));
    i := |steps'|;
    if k + 1 >= sc.total {
      StatusKeepsBooks(Last(run').store, sc.rk, k + 1, sc.total, BUFFERED);
      assert WritesBuffered(Last(run'), Worker(sc.p, Complete(Ok)), sc.rk, sc.total);
      run', steps' := Extend(cfg, run', steps', Worker(sc.p, Complete(Ok)));
    }
  }

  lemma EmitStays(cfg: Config, sc: Scene, s: State, k: nat)
    requires GoodScene(cfg, sc)
    requires var info := InfoOf(cfg, sc);
      At(sc, s, Idle, Hand(WidgetOf(cfg.strategyKeys, k, info)), [MarkerOf(k, info)], k + 1, k)
    ensures Enabled(s, Worker(sc.p, Emit(Ok)))
    ensures At(sc, ApplyWorker(cfg, s, sc.p, Emit(Ok)), Idle, Resting, [MarkerOf(k, InfoOf(cfg, sc))], k + 1, k)
  {
    hide Prepared, WidgetOf, Books, HSet, SinkOf, WantsCompletion;
    var item := s.procs[sc.p].worker.item;
    WidgetShape(cfg.strategyKeys, k, InfoOf(cfg, sc));
    StoredFieldsAreSafe(cfg.strategyKeys, k, InfoOf(cfg, sc));
    var sink := SinkOf(cfg, item);
    if sink.Buffer? {
      assert sink.field == FieldOf(item.message) by { BufferField(cfg, item); }
      StoringKeepsBooks(s.store, sc.rk, k, sc.total, sink.routingKey, sink.field, Payload(item.message));
    }
  }

  lemma BufferField(cfg: Config, item: Item)
    requires item.Widget?
    ensures SinkOf(cfg, item).Buffer? ==> SinkOf(cfg, item).field == FieldOf(item.message)
  {
  }

  lemma IncrementCounts(cfg: Config, sc: Scene, s: State, k: nat)
    requires GoodScene(cfg, sc)
    requires At(sc, s, Idle, Hand(MarkerOf(k, InfoOf(cfg, sc))), [], k + 1, k)
    ensures Enabled(s, Worker(sc.p, Increment(Ok)))
    ensures At(sc, ApplyWorker(cfg, s, sc.p, Increment(Ok)), Idle, Drawn(MarkerOf(k, InfoOf(cfg, sc)), k + 1), [],
               k + 1, k + 1)
  {
    hide Prepared, HIncr, HSet, ReadMeta, WantsCompletion;
    CountingKeepsBooks(s.store, sc.rk, k, sc.total);
  }

  lemma LookDecides(cfg: Config, sc: Scene, s: State, k: nat)
    requires GoodScene(cfg, sc)
    requires At(sc, s, Idle, Drawn(MarkerOf(k, InfoOf(cfg, sc)), k + 1), [], k + 1, k + 1)
    ensures Enabled(s, Worker(sc.p, Look(Ok)))
    ensures At(sc, ApplyWorker(cfg, s, sc.p, Look(Ok)), Idle,
               if k + 1 >= sc.total then Completing(MarkerOf(k, InfoOf(cfg, sc)), k + 1, sc.total) else Resting, [],
               k + 1, k + 1)
  {
    hide Prepared, ReadMeta, Counter, CanIncrement, WantsCompletion;
  }

  /** The scene is set: a group on the empty stream, the total in `__meta__`, then `n` appended requests. */
  lemma SetUp(cfg: Config, sc: Scene) returns (run: seq<State>, steps: seq<Step>)
    requires sc.p == 0
    ensures IsRun(cfg, run, steps) && At(sc, Last(run), Idle, Resting, [], 0, 0)
    decreases sc.n
  {
    if sc.n == 0 {
      run, steps := [INITIAL], [];
      run, steps := Extend(cfg, run, steps, Environment(Start));
      run, steps := Extend(cfg, run, steps, Consumer(sc.p, EnsureGroup(Ok)));
      FreshBooks(sc.rk, sc.total);
      run, steps := Extend(cfg, run, steps, Environment(SetMeta(sc.rk, Total(sc.total))));
    } else {
      hide Books;
      run, steps := SetUp(cfg, sc.(n := sc.n - 1));
      run, steps := Extend(cfg, run, steps, Environment(Append(sc.e)));
    }
  }

  lemma FreshBooks(rk: string, total: int)
    ensures Books(HSet(EMPTY_STORE, rk, META_FIELD, MetaText(Total(total))), rk, 0, total)
  {
    FieldsDiffer();
    hide COUNT_FIELD, META_FIELD;
  }

  /** One whole service. */
  lemma ServeOne(cfg: Config, sc: Scene, run: seq<State>, steps: seq<Step>, k: nat)
    returns (run': seq<State>, steps': seq<Step>, i: nat)
    requires GoodScene(cfg, sc) && IsRun(cfg, run, steps) && run != [] && k < sc.n
    requires At(sc, Last(run), Idle, Resting, [], k, k)
    ensures Continues(cfg, run, steps, run', steps') && run' != [] && NoEnvironment(steps, steps')
    ensures At(sc, Last(run'), Idle, Resting, [], k + 1, k + 1)
    ensures k + 1 >= sc.total ==> i < |steps'| && WritesBuffered(run'[i], steps'[i], sc.rk, sc.total)
  {
    hide At, IsRun, GoodScene, WritesBuffered, InfoOf, Prepared;
    run', steps' := Consume(cfg, sc, run, steps, k, false);
    Lengths(cfg, run', steps');
    run', steps' := DrainWidget(cfg, sc, run', steps', k);
    Lengths(cfg, run', steps');
    run', steps', i := DrainMarker(cfg, sc, run', steps', k);
    Lengths(cfg, run', steps');
  }

  /** Serving `k` requests in turn; when `k` reaches both the total and one, BUFFERED was written on the way. */
  lemma {:induction false} Serve(cfg: Config, sc: Scene, k: nat) returns (run: seq<State>, steps: seq<Step>, i: nat)
    requires GoodScene(cfg, sc) && sc.p == 0 && k <= sc.n
    ensures IsRun(cfg, run, steps) && At(sc, Last(run), Idle, Resting, [], k, k)
    ensures k >= Max(sc.total, 1) ==> i < |steps| && WritesBuffered(run[i], steps[i], sc.rk, sc.total)
  {
    if k == 0 {
      run, steps := SetUp(cfg, sc);
      i := 0;
    } else {
      hide At, IsRun, GoodScene, WritesBuffered, InfoOf, Prepared;
      run, steps, i := Serve(cfg, sc, k - 1);
      Lengths(cfg, run, steps);
      run, steps, i := ServeOne(cfg, sc, run, steps, k - 1);
    }
  }

  /** With more than max(total, 1) requests the status can regress without any fault. */
  lemma RegressionBeyondBound(cfg: Config, sc: Scene) returns (run: seq<State>, steps: seq<Step>, i: nat, j: nat)
    requires GoodScene(cfg, sc) && sc.p == 0 && sc.n > Max(sc.total, 1)
    ensures Regresses(cfg, run, steps, i, j, sc.rk, sc.total, sc.n)
  {
    hide IsRun, Prepared, Books, WantsCompletion, WritesBuffered;
    var k: nat := Max(sc.total, 1);
    run, steps, i := Serve(cfg, sc, k);
    var run', steps' := Consume(cfg, sc, run, steps, k, true);
    j := |steps'|;
    Lengths(cfg, run, steps);
    Lengths(cfg, run', steps');
    assert run'[i] == run[i] && steps'[i] == steps[i];
    RequestsOfScene(cfg, sc, Last(run'));
    assert WritesProcessing(Last(run'), Consumer(sc.p, Announce(Ok)), sc.rk);
    run, steps := Extend(cfg, run', steps', Consumer(sc.p, Announce(Ok)));
  }

  lemma RequestsOfScene(cfg: Config, sc: Scene, s: State)
    requires GoodScene(cfg, sc) && s.group.exists_ && s.group.start == 0
    requires |s.stream| == sc.n && forall k :: 0 <= k < sc.n ==> s.stream[k] == sc.e
    ensures |Requests(cfg, s, sc.rk)| == sc.n
  {
    hide Prepared, WantsCompletion;
    assert Requests(cfg, s, sc.rk) == Range(0, sc.n);
    RangeSize(0, sc.n);
  }

  /**
   * The exact condition. Given any request for `rk`, a run with `n` requests in
   * which the status regresses after completion against `total` exists if and
   * only if `n` exceeds max(total, 1).
   */
  lemma RegressionIff(cfg: Config, e: Entry, rk: string, total: int, n: nat)
    requires IsRequestFor(cfg, e, rk)
    ensures (exists run, steps, i, j :: Regresses(cfg, run, steps, i, j, rk, total, n)) <==> n > Max(total, 1)
  {
    hide IsRun, Requests, WritesBuffered, WritesProcessing, IsRequestFor, Max;
    if n > Max(total, 1) {
      SceneIsGood(cfg, Scene(e, n, rk, total, 0));
      var run, steps, i, j := RegressionBeyondBound(cfg, Scene(e, n, rk, total, 0));
      assert Regresses(cfg, run, steps, i, j, rk, total, n);
    }
    if run, steps, i, j :| Regresses(cfg, run, steps, i, j, rk, total, n) {
      if n <= Max(total, 1) {
        NoStatusRegression(cfg, run, steps, i, j, rk, total);
      }
    }
  }

  lemma SceneIsGood(cfg: Config, sc: Scene)
    requires IsRequestFor(cfg, sc.e, sc.rk)
    ensures GoodScene(cfg, sc)
  {
  }
}

/**
 * The other half of the completion protocol: data is handled before it is
 * counted, and completion is not missed.
 */
module CompletionReached {
  import opened Prelude
  import opened Messages
  import opened Admission
  import opened Controller
  import opened RedisBackend
  import opened Dispatcher
  import opened Cluster
  import opened ClusterInvariant
  import opened OpHistory
  import opened Completion
  import opened Effects

  // ---- Data before completion ----

  /** At position `k` of the owner's history lies the widget of the request, directly before its marker. */
  ghost predicate WidgetThenMarker(cfg: Config, s: State, rk: string, id: nat, k: nat) {
    && id in s.owner && s.owner[id] < |s.procs| && id < |s.stream| && IsRequestFor(cfg, s.stream[id], rk)
    && var pr := s.procs[s.owner[id]];
    && |pr.landed| == |pr.handled|
    && k < |pr.handled| && k + 1 < |pr.pushed|
    && pr.handled[k] == WidgetOf(cfg.strategyKeys, id, Prepared(cfg, s.stream[id]).value)
    && pr.pushed[k + 1] == Marker(id, rk)
  }

  lemma CountedAfterData(cfg: Config, s: State, rk: string, id: nat) returns (k: nat)
    requires Inv(cfg, s) && id in CountedIds(s.ops, rk)
    ensures WidgetThenMarker(cfg, s, rk, id, k)
  {
    hide Inv, Prepared, StageOk, WidgetOf;
    var p, m := CountedMarker(cfg, s, rk, id);
    var pr := s.procs[p];
    assert ItemOk(cfg, s.stream, s.owner, p, pr.pushed, m);
    k := m - 1;
    assert ItemOk(cfg, s.stream, s.owner, p, pr.pushed, k);
    assert pr.handled[k] == pr.pushed[k];
  }

  /**
   * The widget goes to a field of the very hash its marker is counted in exactly
   * when a strategy answered and no override moves it.
   */
  lemma SameHashIff(cfg: Config, id: nat, info: EventInfo)
    requires WantsCompletion(info)
    ensures var sink := SinkOf(cfg, WidgetOf(cfg.strategyKeys, id, info));
      (sink.Buffer? && sink.routingKey == info.routingKey)
      <==> HasStrategy(cfg.strategyKeys, info) && Overridden(cfg, info.routingKey) == info.routingKey
    ensures var sink := SinkOf(cfg, WidgetOf(cfg.strategyKeys, id, info));
      sink.Buffer? <==> HasStrategy(cfg.strategyKeys, info)
    ensures SinkOf(cfg, MarkerOf(id, info)) == Counting(info.routingKey)
  {
    assert "API"[0] != "SSE"[0];
    hide HasStrategy;
  }

  /**
   * Data before completion. Whenever BUFFERED has been written for `rk`, every
   * request counted so far had its own widget handled, by the worker of its own
   * process, directly before its marker. The widget was destined for the hash the
   * marker was counted in exactly when a strategy answered and no override is on.
   */
  lemma DataBeforeCompletion(cfg: Config, run: seq<State>, steps: seq<Step>, i: nat, rk: string, id: nat)
    requires IsRun(cfg, run, steps) && i < |run| && id in CountedIds(run[i].ops, rk)
    ensures exists k: nat :: WidgetThenMarker(cfg, run[i], rk, id, k)
    ensures var info := Prepared(cfg, run[i].stream[id]).value;
      var sink := SinkOf(cfg, WidgetOf(cfg.strategyKeys, id, info));
      (sink.Buffer? && sink.routingKey == rk)
      <==> HasStrategy(cfg.strategyKeys, info) && Overridden(cfg, rk) == rk
  {
    hide IsRun, Inv, SinkOf, WidgetOf, HasStrategy, Prepared;
    InvAlways(cfg, run, steps, i);
    var k := CountedAfterData(cfg, run[i], rk, id);
    SameHashIff(cfg, id, Prepared(cfg, run[i].stream[id]).value);
  }

  // ---- No missed completion ----

  /** The request's marker was handled and no Redis error cut its completion check short. */
  ghost predicate CheckEnded(s: State, rk: string, id: nat) {
    exists p: nat, k: nat :: CheckEndedAt(s, rk, id, p, k)
  }

  ghost predicate CheckEndedAt(s: State, rk: string, id: nat, p: nat, k: nat) {
    && p < |s.procs| && |s.procs[p].landed| == |s.procs[p].handled|
    && k < |s.procs[p].handled| && s.procs[p].handled[k] == Marker(id, rk) && s.procs[p].landed[k]
  }

  /** The worker that drew `total` read `total` in `__meta__`, if it got to read at all. */
  ghost predicate SawTotal(ops: seq<Op>, rk: string, total: int) {
    forall i :: 0 <= i < |ops| && ops[i].Looked? && ops[i].rk == rk && ops[i].n == total ==>
      ops[i].meta == Some(Total(total))
  }

  lemma DrawsOnce(ops: seq<Op>, rk: string, id: nat, n: int, m: int)
    requires CountedOnce(ops) && Counted(rk, id, n) in ops && Counted(rk, id, m) in ops
    ensures n == m
  {
    var i :| 0 <= i < |ops| && ops[i] == Counted(rk, id, n);
    var j :| 0 <= j < |ops| && ops[j] == Counted(rk, id, m);
  }

  /**
   * No missed completion: if the worker that drew `total` finished its check
   * without a Redis error and `__meta__` said `total` when it looked, BUFFERED was
   * written on its behalf, whatever other workers did between its HINCRBY, its
   * HGET and its SET.
   */
  lemma NoMissedCompletion(cfg: Config, run: seq<State>, steps: seq<Step>, i: nat, rk: string, total: int, id: nat)
    requires IsRun(cfg, run, steps) && i < |run|
    requires Counted(rk, id, total) in run[i].ops && CheckEnded(run[i], rk, id) && SawTotal(run[i].ops, rk, total)
    ensures Buffered(rk, id, total, total) in run[i].ops
  {
    hide IsRun, OutputsInv, StillStored, ProcsInv, GroupInv, FateInv, CellsOk,
      CounterInv, SpentInv, WorkersBacked, BufferedInv,
      CountedOnce, DrawsInv;
    EffectsAlways(cfg, run, steps, i);
    InvAlways(cfg, run, steps, i);
    var s := run[i];
    var p: nat, k: nat :| CheckEndedAt(s, rk, id, p, k);
    assert ProcEffects(cfg, s.store, s.ops, s.procs[p]);
    assert Checked(s.ops, s.procs[p].handled[k]);
    var n, meta :| CheckRan(s.ops, rk, id, n, meta);
    DrawsOnce(s.ops, rk, id, n, total);
    var l :| 0 <= l < |s.ops| && s.ops[l] == Looked(rk, id, total, meta);
    assert meta == Some(Total(total));
  }

  /** The requests for `rk` that were processed and got their marker sent. */
  ghost function Marked(cfg: Config, s: State, rk: string): set<nat> {
    set id | id in s.fate && s.fate[id] == Processed(true) && id < |s.stream| && IsRequestFor(cfg, s.stream[id], rk)
  }

  /** The worker handled all that was sent, and no completion check for `rk` met a Redis error. */
  ghost predicate Drained(pr: Proc, rk: string) {
    && pr.handled == pr.pushed && |pr.landed| == |pr.handled|
    && forall k :: 0 <= k < |pr.handled| && pr.handled[k].Marker? && pr.handled[k].routingKey == rk ==> pr.landed[k]
  }

  lemma MarkedIsChecked(cfg: Config, s: State, rk: string, id: nat)
    requires Inv(cfg, s) && EffectsInv(cfg, s) && id in Marked(cfg, s, rk)
    requires forall p :: 0 <= p < |s.procs| ==> Drained(s.procs[p], rk)
    ensures CheckEnded(s, rk, id) && id in CountedIds(s.ops, rk)
  {
    hide Inv, OutputsInv, StageOk, Prepared, WidgetOf, StillStored;
    InvParts(cfg, s);
    var p := s.owner[id];
    var pr := s.procs[p];
    assert FateMatches(s.fate[id], pr.pushed, id);
    var k :| 0 <= k < |pr.pushed| && pr.pushed[k].src == id && pr.pushed[k].Marker?;
    assert ProcInv(cfg, s.stream, s.owner, p, pr);
    assert ItemOk(cfg, s.stream, s.owner, p, pr.pushed, k);
    assert Drained(pr, rk);
    assert CheckEndedAt(s, rk, id, p, k);
    assert ProcEffects(cfg, s.store, s.ops, pr);
    assert Checked(s.ops, pr.handled[k]);
    var n, meta :| CheckRan(s.ops, rk, id, n, meta);
    var j :| 0 <= j < |s.ops| && s.ops[j] == Counted(rk, id, n);
    CountedIdsFacts(s.ops, rk);
  }

  lemma CountedIsChecked(cfg: Config, s: State, rk: string, id: nat)
    requires Inv(cfg, s) && id in CountedIds(s.ops, rk)
    requires forall p :: 0 <= p < |s.procs| ==> Drained(s.procs[p], rk)
    ensures CheckEnded(s, rk, id)
  {
    hide Inv, StageOk, ItemOk, Fifo;
    var p, k := CountedMarker(cfg, s, rk, id);
    assert Drained(s.procs[p], rk);
    assert CheckEndedAt(s, rk, id, p, k);
  }

  /**
   * Completion is reached, if the total is seen. When all workers have drained their queues without a
   * Redis error on the completion checks for `rk`, the hash never expired, at
   * least `total` requests for `rk` were processed with their markers, and
   * `__meta__` said `total` when the drawer of `total` looked, then BUFFERED has
   * been written, by exactly that drawer.
   */
  lemma CompletionIfSeen(cfg: Config, run: seq<State>, steps: seq<Step>, i: nat, rk: string, total: int)
    requires IsRun(cfg, run, steps) && i < |run|
    requires forall p :: 0 <= p < |run[i].procs| ==> Drained(run[i].procs[p], rk)
    requires Dropped(rk) !in run[i].ops
    requires |Marked(cfg, run[i], rk)| >= total >= 1
    requires SawTotal(run[i].ops, rk, total)
    ensures exists id :: Buffered(rk, id, total, total) in run[i].ops
  {
    hide IsRun, Inv, EffectsInv, Marked, Drained, SawTotal, CheckEnded;
    InvAlways(cfg, run, steps, i);
    EffectsAlways(cfg, run, steps, i);
    var s := run[i];
    forall id | id in Marked(cfg, s, rk) ensures id in CountedIds(s.ops, rk) {
      MarkedIsChecked(cfg, s, rk, id);
    }
    SubsetSize(Marked(cfg, s, rk), CountedIds(s.ops, rk));
    var j := DrawerOf(cfg, s, rk, total);
    CountedIsChecked(cfg, s, rk, s.ops[j].id) by { CountedIdsFacts(s.ops, rk); }
    NoMissedCompletion(cfg, run, steps, i, rk, total, s.ops[j].id);
  }

  /** While the hash lives, someone drew every number up to the number of counted requests. */
  lemma DrawerOf(cfg: Config, s: State, rk: string, m: int) returns (j: nat)
    requires Inv(cfg, s) && Dropped(rk) !in s.ops && 1 <= m <= |CountedIds(s.ops, rk)|
    ensures IsDraw(s.ops, rk, j, m)
  {
    hide ProcsInv, GroupInv, FateInv, CellsOk, CounterInv, SpentInv, WorkersBacked, BufferedInv, DrawsInv, CountedOnce;
    CountIsBacked(s.ops, rk);
    assert s.ops[..|s.ops|] == s.ops;
    EveryNumberIsDrawn(s.ops, rk, |s.ops|, m);
    j :| IsDraw(s.ops, rk, j, m);
  }
}

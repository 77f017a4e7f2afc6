/**
 * The completion protocol for stream_tech API, over every run: the draws are
 * exact, BUFFERED is never premature and never followed by PROCESSING, and the
 * data of every counted request was handled before.
 */
module Completion {
  import opened Prelude
  import opened Messages
  import opened Admission
  import opened Controller
  import opened RedisBackend
  import opened Dispatcher
  import opened Cluster
  import opened ClusterInvariant
  import opened OpHistory
  import opened Effects

  /** Entries before this one can never be delivered. */
  function FirstDeliverable(s: State): nat {
    if s.group.exists_ then s.group.start else |s.stream|
  }

  /** The entries whose completion is counted under `rk` among those the group can deliver. */
  ghost function Requests(cfg: Config, s: State, rk: string): set<nat> {
    set id: nat | id in Range(FirstDeliverable(s), |s.stream|) && IsRequestFor(cfg, s.stream[id], rk)
  }

  function Max(a: int, b: int): int { if a < b then b else a }

  // ---- The draws ----

  /** The buffer hash of `rk` lived through the operations from `i` up to, not including, `j`. */
  ghost predicate NoDrop(ops: seq<Op>, rk: string, i: int, j: int) {
    forall k :: 0 <= i <= k < j <= |ops| ==> ops[k] != Dropped(rk)
  }

  ghost predicate IsDraw(ops: seq<Op>, rk: string, j: int, m: int) {
    0 <= j < |ops| && ops[j].Counted? && ops[j].rk == rk && ops[j].n == m
  }

  /** The last operation drew `m`, or `m` was drawn before it in the same life of the hash. */
  lemma LastDraw(ops: seq<Op>, rk: string, k: nat, m: nat)
    requires DrawsInv(ops) && k <= |ops| && 1 <= m <= SinceDrop(ops[..k], rk)
    ensures k > 0 && (IsDraw(ops, rk, k - 1, m) || (ops[k - 1] != Dropped(rk) && m <= SinceDrop(ops[..k - 1], rk)))
    ensures IsDraw(ops, rk, k - 1, m) ==> NoDrop(ops, rk, k - 1, k)
  {
    assert ops[..k][..k - 1] == ops[..k - 1];
  }

  lemma NoDropNext(ops: seq<Op>, rk: string, i: int, k: nat)
    requires 1 <= k <= |ops| && NoDrop(ops, rk, i, k - 1) && ops[k - 1] != Dropped(rk)
    ensures NoDrop(ops, rk, i, k)
  {
  }

  /** Every number up to the current count was drawn in the current life of the hash. */
  lemma {:induction false} EveryNumberIsDrawn(ops: seq<Op>, rk: string, k: nat, m: nat)
    requires DrawsInv(ops) && k <= |ops| && 1 <= m <= SinceDrop(ops[..k], rk)
    ensures exists j :: j < k && IsDraw(ops, rk, j, m) && NoDrop(ops, rk, j, k)
  {
    LastDraw(ops, rk, k, m);
    hide DrawsInv, SinceDrop, IsDraw, NoDrop;
    if !IsDraw(ops, rk, k - 1, m) {
      EveryNumberIsDrawn(ops, rk, k - 1, m);
      var j :| j < k - 1 && IsDraw(ops, rk, j, m) && NoDrop(ops, rk, j, k - 1);
      NoDropNext(ops, rk, j, k);
    }
  }

  /** Within one life of the hash a later draw is larger, so no number is drawn twice. */
  lemma {:induction false} LaterDrawsAreLarger(ops: seq<Op>, rk: string, i: nat, j: nat)
    requires DrawsInv(ops) && i < j <= |ops| && ops[i].Counted? && ops[i].rk == rk && NoDrop(ops, rk, i, j)
    ensures SinceDrop(ops[..j], rk) >= ops[i].n
    ensures j < |ops| && ops[j].Counted? && ops[j].rk == rk ==> ops[i].n < ops[j].n
  {
    assert ops[..j][..j - 1] == ops[..j - 1];
    if i < j - 1 {
      LaterDrawsAreLarger(ops, rk, i, j - 1);
    }
  }

  /** Some worker drew `m` in the current life of the hash. */
  ghost predicate WasDrawn(ops: seq<Op>, rk: string, m: int) {
    exists j :: IsDraw(ops, rk, j, m) && NoDrop(ops, rk, j, |ops|)
  }

  /**
   * In every reachable state the counter cell is the number of increments since
   * the hash was created, and the numbers drawn in that time are exactly 1, 2,
   * ..., up to the counter, each drawn once, however the workers interleave.
   */
  lemma DrawsAreExact(cfg: Config, run: seq<State>, steps: seq<Step>, i: nat, rk: string)
    requires IsRun(cfg, run, steps) && i < |run|
    ensures Counter(run[i].store, rk) == SinceDrop(run[i].ops, rk)
    ensures forall m :: WasDrawn(run[i].ops, rk, m) <==> 1 <= m <= Counter(run[i].store, rk)
    ensures forall a, b, m :: IsDraw(run[i].ops, rk, a, m) && IsDraw(run[i].ops, rk, b, m) && a < b ==>
      !NoDrop(run[i].ops, rk, a, b)
  {
    hide ProcsInv, GroupInv, FateInv, CellsOk, SpentInv, WorkersBacked, BufferedInv;
    hide CountedOnce, NoDrop, Counter, IsRun;
    InvAlways(cfg, run, steps, i);
    var ops := run[i].ops;
    assert ops[..|ops|] == ops;
    forall m ensures WasDrawn(ops, rk, m) <==> 1 <= m <= SinceDrop(ops, rk) {
      if 1 <= m <= SinceDrop(ops, rk) {
        EveryNumberIsDrawn(ops, rk, |ops|, m);
      }
      if j :| IsDraw(ops, rk, j, m) && NoDrop(ops, rk, j, |ops|) {
        LaterDrawsAreLarger(ops, rk, j, |ops|);
      }
    }
    forall a, b, m | IsDraw(ops, rk, a, m) && IsDraw(ops, rk, b, m) && a < b ensures !NoDrop(ops, rk, a, b) {
      if NoDrop(ops, rk, a, b) {
        LaterDrawsAreLarger(ops, rk, a, b);
      }
    }
  }

  // ---- No premature completion ----

  lemma {:induction false} CountedIdsFacts(ops: seq<Op>, rk: string)
    ensures forall id :: id in CountedIds(ops, rk) <==>
      exists i :: 0 <= i < |ops| && ops[i].Counted? && ops[i].rk == rk && ops[i].id == id
  {
    if ops != [] {
      var n := |ops| - 1;
      CountedIdsFacts(ops[..n], rk);
      forall id ensures id in CountedIds(ops, rk) <==>
        exists i :: 0 <= i < |ops| && ops[i].Counted? && ops[i].rk == rk && ops[i].id == id
      {
        if i :| 0 <= i < |ops| && ops[i].Counted? && ops[i].rk == rk && ops[i].id == id {
          if i < n { assert ops[..n][i] == ops[i]; }
        }
        if id in CountedIds(ops[..n], rk) {
          var i :| 0 <= i < n && ops[..n][i].Counted? && ops[..n][i].rk == rk && ops[..n][i].id == id;
          assert ops[i] == ops[..n][i];
        }
      }
    }
  }

  /** The count never exceeds the number of different requests ever counted; without expiry it equals it. */
  lemma {:induction false} CountIsBacked(ops: seq<Op>, rk: string)
    requires CountedOnce(ops)
    ensures SinceDrop(ops, rk) <= |CountedIds(ops, rk)|
    ensures NoDrop(ops, rk, 0, |ops|) ==> SinceDrop(ops, rk) == |CountedIds(ops, rk)|
  {
    if ops != [] {
      var n := |ops| - 1;
      assert forall i :: 0 <= i < n ==> ops[..n][i] == ops[i];
      CountIsBacked(ops[..n], rk);
      CountedIdsFacts(ops[..n], rk);
      if ops[n].Counted? && ops[n].rk == rk {
        assert ops[n].id !in CountedIds(ops[..n], rk);
      }
    }
  }

  lemma PrefixKeepsOnce(ops: seq<Op>, k: nat)
    requires CountedOnce(ops) && k <= |ops|
    ensures CountedOnce(ops[..k])
  {
    assert forall i :: 0 <= i < k ==> ops[..k][i] == ops[i];
  }

  /** A draw of n stands for n different requests. */
  lemma DrawIsBacked(ops: seq<Op>, c: nat)
    requires DrawsInv(ops) && CountedOnce(ops) && c < |ops| && ops[c].Counted?
    ensures |CountedIds(ops[..c + 1], ops[c].rk)| >= ops[c].n >= 1
    ensures ops[c].id in CountedIds(ops[..c + 1], ops[c].rk)
  {
    assert ops[..c + 1][..c] == ops[..c];
    assert ops[..c + 1][c] == ops[c];
    PrefixKeepsOnce(ops, c + 1);
    hide CountedOnce;
    CountIsBacked(ops[..c + 1], ops[c].rk);
  }

  /** So does a completion, at the moment it is written. */
  lemma BufferedIsBacked(cfg: Config, s: State, k: nat)
    requires Inv(cfg, s) && k < |s.ops| && s.ops[k].Buffered?
    ensures |CountedIds(s.ops[..k], s.ops[k].rk)| >= s.ops[k].n >= Max(s.ops[k].total, 1)
    ensures s.ops[k].id in CountedIds(s.ops[..k], s.ops[k].rk)
  {
    hide ProcsInv, GroupInv, FateInv, CellsOk, CounterInv, SpentInv, WorkersBacked, CountedOnce, DrawsInv, CountedIds;
    var ops, op := s.ops, s.ops[k];
    var c :| 0 <= c < k && ops[..k][c] == Counted(op.rk, op.id, op.n);
    assert ops[c] == ops[..k][c];
    DrawIsBacked(ops, c);
    CountedSubset(ops, c + 1, k, op.rk);
    SubsetSize(CountedIds(ops[..c + 1], op.rk), CountedIds(ops[..k], op.rk));
  }

  /**
   * BUFFERED for `rk` is written only when at least as many different requests
   * for `rk` had been counted as the total asks for, and never for none.
   */
  lemma NoPrematureCompletion(cfg: Config, run: seq<State>, steps: seq<Step>, i: nat, k: nat)
    requires IsRun(cfg, run, steps) && i < |run|
    requires k < |run[i].ops| && run[i].ops[k].Buffered?
    ensures var op := run[i].ops[k];
      && |CountedIds(run[i].ops[..k], op.rk)| >= op.n >= Max(op.total, 1)
      && op.id in CountedIds(run[i].ops[..k], op.rk)
      && CountedIds(run[i].ops, op.rk) <= Requests(cfg, run[i], op.rk)
  {
    hide IsRun, Inv, Requests, CountedIds;
    InvAlways(cfg, run, steps, i);
    BufferedIsBacked(cfg, run[i], k);
    CountedAreRequests(cfg, run[i], run[i].ops[k].rk);
  }

  lemma {:induction false} CountedSubset(ops: seq<Op>, i: nat, j: nat, rk: string)
    requires i <= j <= |ops|
    ensures CountedIds(ops[..i], rk) <= CountedIds(ops[..j], rk)
  {
    if i < j {
      CountedSubset(ops, i, j - 1, rk);
      assert ops[..j][..j - 1] == ops[..j - 1];
    }
  }

  /** Where the marker of a counted request lies in its owner's history. */
  lemma CountedMarker(cfg: Config, s: State, rk: string, id: nat) returns (p: nat, k: nat)
    requires Inv(cfg, s) && id in CountedIds(s.ops, rk)
    ensures p < |s.procs| && id in s.owner && s.owner[id] == p
    ensures ProcInv(cfg, s.stream, s.owner, p, s.procs[p])
    ensures k < |s.procs[p].pushed| && s.procs[p].pushed[k] == Marker(id, rk) && k <= |s.procs[p].handled|
  {
    hide GroupInv, FateInv, CellsOk, CounterInv, WorkersBacked, CountedOnce, ItemOk, StageOk, DrawsInv, BufferedInv;
    CountedIdsFacts(s.ops, rk);
    var i :| 0 <= i < |s.ops| && s.ops[i].Counted? && s.ops[i].rk == rk && s.ops[i].id == id;
    assert SpentByOwner(s, s.ops[i]);
    p := s.owner[id];
    var pr := s.procs[p];
    assert ProcInv(cfg, s.stream, s.owner, p, pr);
    if Marker(id, rk) in pr.handled {
      k :| 0 <= k < |pr.handled| && pr.handled[k] == Marker(id, rk);
      assert pr.pushed[k] == pr.handled[k];
    } else {
      k := |pr.handled|;
    }
  }

  lemma CountedAreRequests(cfg: Config, s: State, rk: string)
    requires Inv(cfg, s)
    ensures CountedIds(s.ops, rk) <= Requests(cfg, s, rk)
  {
    hide Inv, StageOk, Fifo, Prepared, WidgetOf;
    forall id | id in CountedIds(s.ops, rk) ensures id in Requests(cfg, s, rk) {
      var p, k := CountedMarker(cfg, s, rk, id);
      assert ItemOk(cfg, s.stream, s.owner, p, s.procs[p].pushed, k);
      assert GroupInv(s) by { InvParts(cfg, s); }
    }
  }

  // ---- No status regression ----

  /** The step writes PROCESSING under `rk`. */
  predicate WritesProcessing(s: State, step: Step, rk: string) {
    && step.Consumer? && Enabled(s, step) && step.c.Announce? && step.c.reply.Applied()
    && s.procs[step.p].consumer.info.routingKey == rk
  }

  /** The step writes BUFFERED under `rk`, having read `total`. */
  predicate WritesBuffered(s: State, step: Step, rk: string, total: int) {
    && step.Worker? && Enabled(s, step) && step.w.Complete? && step.w.reply.Applied()
    && s.procs[step.p].worker.item.routingKey == rk && s.procs[step.p].worker.total == total
  }

  /** What the two writes leave in the status cell, and in no other. */
  lemma StatusWrites(cfg: Config, s: State, step: Step, rk: string, total: int)
    requires Enabled(s, step)
    ensures WritesBuffered(s, step, rk, total) ==>
      Apply(cfg, s, step).store.status == s.store.status[rk := "BUFFERED_EVENT_IN_GO_DISPATCHER_TO_REDIS"]
    ensures WritesProcessing(s, step, rk) ==>
      Apply(cfg, s, step).store.status == s.store.status[rk := "PROCESSING_EVENT_IN_PUBLISHER_CONTROLLER"]
    ensures "BUFFERED_EVENT_IN_GO_DISPATCHER_TO_REDIS" != "PROCESSING_EVENT_IN_PUBLISHER_CONTROLLER"
  {
    StatusTexts();
    hide PROCESSING, BUFFERED, WorkerAfter, ConsumerAfter;
  }

  /** The history of the backend Redis only grows along a run. */
  lemma {:induction false} OpsOnlyGrow(cfg: Config, run: seq<State>, steps: seq<Step>, i: nat, j: nat)
    requires IsRun(cfg, run, steps) && i <= j < |run|
    ensures run[i].ops <= run[j].ops
  {
    hide Apply, Enabled;
    if i < j {
      OpsOnlyGrow(cfg, run, steps, i, j - 1);
      OpsGrow(cfg, run[j - 1], steps[j - 1]);
    }
  }

  lemma OpsGrow(cfg: Config, s: State, step: Step)
    requires Enabled(s, step)
    ensures s.ops <= Apply(cfg, s, step).ops
  {
    hide ApplyConsumer, ApplyWorker, ApplyEnv, FieldsKept;
    match step {
      case Environment(move) => FieldsKeptByEnv(s, move);
      case Consumer(p, move) => FieldsKeptByConsumer(cfg, s, p, move);
      case Worker(p, move) => FieldsKeptByWorker(cfg, s, p, move);
    }
  }

  /** A request that still has to announce itself was not counted, under any key. */
  lemma AnnouncingIsUncounted(cfg: Config, s: State, p: nat, rk: string)
    requires Inv(cfg, s) && p < |s.procs| && s.procs[p].consumer.Announcing?
    ensures s.procs[p].consumer.id !in CountedIds(s.ops, rk)
    ensures s.procs[p].consumer.info.routingKey == rk ==> s.procs[p].consumer.id in Requests(cfg, s, rk)
  {
    hide Inv, Prepared, WidgetOf, Fifo, ItemOk;
    InvParts(cfg, s);
    var id := s.procs[p].consumer.id;
    assert ProcInv(cfg, s.stream, s.owner, p, s.procs[p]);
    if id in CountedIds(s.ops, rk) {
      var q, k := CountedMarker(cfg, s, rk, id);
    }
  }

  /** After BUFFERED against `total`, a consumer about to write PROCESSING means one request too many. */
  lemma AnnouncingAfterBuffered(cfg: Config, s: State, p: nat, op: Op)
    requires Inv(cfg, s) && op in s.ops && op.Buffered?
    requires p < |s.procs| && s.procs[p].consumer.Announcing? && s.procs[p].consumer.info.routingKey == op.rk
    ensures |Requests(cfg, s, op.rk)| > Max(op.total, 1)
  {
    hide Inv, Requests, ProcInv;
    var counted, id := CountedIds(s.ops, op.rk), s.procs[p].consumer.id;
    AnnouncingIsUncounted(cfg, s, p, op.rk);
    CountedAreRequests(cfg, s, op.rk);
    SubsetSize(counted + {id}, Requests(cfg, s, op.rk));
    EnoughCounted(cfg, s, op);
  }

  lemma EnoughCounted(cfg: Config, s: State, op: Op)
    requires Inv(cfg, s) && op in s.ops && op.Buffered?
    ensures |CountedIds(s.ops, op.rk)| >= op.n >= Max(op.total, 1)
  {
    hide Inv;
    var k :| 0 <= k < |s.ops| && s.ops[k] == op;
    BufferedIsBacked(cfg, s, k);
    CountedSubset(s.ops, k, |s.ops|, op.rk);
    assert s.ops[..|s.ops|] == s.ops;
    SubsetSize(CountedIds(s.ops[..k], op.rk), CountedIds(s.ops, op.rk));
  }

  /**
   * No status regression. Once BUFFERED was written for `rk` against `total`, and
   * as long as no more than max(total, 1) requests for `rk` were appended, no
   * process writes PROCESSING for `rk`, whatever crashes, expiries, lost replies
   * and interleavings the run contains.
   */
  lemma NoStatusRegression(cfg: Config, run: seq<State>, steps: seq<Step>, i: nat, j: nat, rk: string, total: int)
    requires IsRun(cfg, run, steps) && i < j < |steps|
    requires WritesBuffered(run[i], steps[i], rk, total)
    requires |Requests(cfg, run[j], rk)| <= Max(total, 1)
    ensures !WritesProcessing(run[j], steps[j], rk)
  {
    hide Inv, Requests;
    var w := run[i].procs[steps[i].p].worker;
    var op := Buffered(rk, w.item.src, w.n, total);
    assert op in run[i + 1].ops by { hide WorkerAfter, SetStatus; }
    OpsOnlyGrow(cfg, run, steps, i + 1, j);
    assert op in run[j].ops;
    InvAlways(cfg, run, steps, j);
    if WritesProcessing(run[j], steps[j], rk) {
      AnnouncingAfterBuffered(cfg, run[j], steps[j].p, op);
    }
  }

  /** What a reader of the status sees: BUFFERED, or nothing once it expired. */
  predicate Settled(s: State, rk: string) {
    rk in s.store.status ==> s.store.status[rk] == BUFFERED
  }

  /** From the write of BUFFERED on, under the same bound, the status cell never shows anything else. */
  lemma {:induction false} BufferedStays(cfg: Config, run: seq<State>, steps: seq<Step>, i: nat, j: nat,
                                         rk: string, total: int)
    requires IsRun(cfg, run, steps) && i < j < |run|
    requires WritesBuffered(run[i], steps[i], rk, total)
    requires |Requests(cfg, run[j], rk)| <= Max(total, 1)
    ensures Settled(run[j], rk)
  {
    hide Inv, Requests, Enabled, WritesProcessing;
    if i + 1 < j {
      RequestsOnlyGrow(cfg, run[j - 1], steps[j - 1], rk) by { assert Enabled(run[j - 1], steps[j - 1]); }
      SubsetSize(Requests(cfg, run[j - 1], rk), Requests(cfg, run[j], rk));
      BufferedStays(cfg, run, steps, i, j - 1, rk, total);
      NoStatusRegression(cfg, run, steps, i, j - 1, rk, total);
      hide WritesBuffered;
      StatusStep(cfg, run[j - 1], steps[j - 1], rk);
    } else {
      BufferedStep(cfg, run[i], steps[i], rk, total);
    }
  }

  /**
   * What a reader of the status sees from then on: it says that the event is
   * buffered, or has expired; it never again says that it is being processed.
   */
  lemma NeverProcessingAgain(cfg: Config, run: seq<State>, steps: seq<Step>, i: nat, j: nat, rk: string, total: int)
    requires IsRun(cfg, run, steps) && i < j < |run|
    requires WritesBuffered(run[i], steps[i], rk, total)
    requires |Requests(cfg, run[j], rk)| <= Max(total, 1)
    ensures rk in run[j].store.status ==>
      && run[j].store.status[rk] == "BUFFERED_EVENT_IN_GO_DISPATCHER_TO_REDIS"
      && run[j].store.status[rk] != "PROCESSING_EVENT_IN_PUBLISHER_CONTROLLER"
  {
    hide IsRun, WritesBuffered, Requests;
    BufferedStays(cfg, run, steps, i, j, rk, total);
    StatusTexts();
    hide PROCESSING, BUFFERED;
  }

  lemma EnvStatus(s: State, move: EnvMove, rk: string)
    requires EnvCan(s, move)
    ensures var status := ApplyEnv(s, move).store.status;
      rk in status ==> rk in s.store.status && status[rk] == s.store.status[rk]
  {
  }

  lemma WorkerStatus(cfg: Config, s: State, p: nat, move: WorkerMove)
    requires Enabled(s, Worker(p, move))
    ensures var status := ApplyWorker(cfg, s, p, move).store.status;
      forall rk :: rk in status ==> status[rk] == BUFFERED || (rk in s.store.status && status[rk] == s.store.status[rk])
  {
    hide WorkerAfter, SinkOf, Written, CanIncrement, Counter, ReadMeta, BUFFERED;
  }

  /** Only the announcement of a request makes the status say that the event is being processed. */
  lemma OnlyAnnouncementsShowProcessing(cfg: Config, s: State, step: Step, rk: string)
    requires Enabled(s, step)
    requires var status := Apply(cfg, s, step).store.status;
      rk in status && status[rk] == "PROCESSING_EVENT_IN_PUBLISHER_CONTROLLER"
    requires rk in s.store.status ==> s.store.status[rk] != "PROCESSING_EVENT_IN_PUBLISHER_CONTROLLER"
    ensures WritesProcessing(s, step, rk)
  {
    StatusTexts();
    hide PROCESSING, BUFFERED, ApplyConsumer, ApplyWorker, ApplyEnv;
    match step {
      case Environment(move) => EnvStatus(s, move, rk);
      case Consumer(p, move) => ConsumerOps(cfg, s, p, move);
      case Worker(p, move) => WorkerStatus(cfg, s, p, move);
    }
  }

  lemma StatusStep(cfg: Config, s: State, step: Step, rk: string)
    requires Enabled(s, step) && Settled(s, rk) && !WritesProcessing(s, step, rk)
    ensures Settled(Apply(cfg, s, step), rk)
  {
    hide ConsumerAfter, WorkerAfter, SinkOf, Written, HashOf, CanIncrement, Counter, ReadMeta;
  }

  lemma BufferedStep(cfg: Config, s: State, step: Step, rk: string, total: int)
    requires WritesBuffered(s, step, rk, total)
    ensures Settled(Apply(cfg, s, step), rk)
  {
    hide WorkerAfter;
  }

  /** The requests of a state stay requests. */
  lemma RequestsOnlyGrow(cfg: Config, s: State, step: Step, rk: string)
    requires Enabled(s, step)
    ensures Requests(cfg, s, rk) <= Requests(cfg, Apply(cfg, s, step), rk)
  {
    hide IsRequestFor;
    StreamStep(cfg, s, step);
    hide Apply;
    var s' := Apply(cfg, s, step);
    forall id | id in Requests(cfg, s, rk) ensures id in Requests(cfg, s', rk) {
      assert s'.stream[id] == s.stream[id];
    }
  }

  /** The stream grows at its end, and a group once created keeps its start. */
  ghost predicate StreamGrows(s: State, s': State) {
    && s.stream <= s'.stream
    && (if s.group.exists_ then s'.group.exists_ && s'.group.start == s.group.start
        else FirstDeliverable(s') >= |s.stream|)
  }

  lemma StreamStep(cfg: Config, s: State, step: Step)
    requires Enabled(s, step)
    ensures StreamGrows(s, Apply(cfg, s, step))
  {
    hide StreamGrows, ApplyWorker, ApplyConsumer, ApplyEnv;
    match step {
      case Worker(p, move) => WorkerStream(cfg, s, p, move);
      case Consumer(p, move) => ConsumerStream(cfg, s, p, move);
      case Environment(move) => EnvStream(s, move);
    }
  }

  lemma WorkerStream(cfg: Config, s: State, p: nat, move: WorkerMove)
    requires Enabled(s, Worker(p, move))
    ensures StreamGrows(s, ApplyWorker(cfg, s, p, move))
  {
    hide ApplyWorker, WorkerAfter;
    WorkerTouches(cfg, s, p, move);
  }

  lemma ConsumerStream(cfg: Config, s: State, p: nat, move: ConsumerMove)
    requires Enabled(s, Consumer(p, move))
    ensures StreamGrows(s, ApplyConsumer(cfg, s, p, move))
  {
    hide ConsumerAfter, SetStatus;
  }

  lemma EnvStream(s: State, move: EnvMove)
    requires EnvCan(s, move)
    ensures StreamGrows(s, ApplyEnv(s, move))
  {
    hide HSet, DropBuffer, DropStatus;
  }
}

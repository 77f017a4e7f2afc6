/** A process that is scheduled finishes the entry it holds: no full queue, no slow worker blocks it for good. */
module Progress {
  import opened Prelude
  import opened Messages
  import opened Admission
  import opened Controller
  import opened RedisBackend
  import opened Dispatcher
  import opened Cluster
  import opened ClusterInvariant
  import opened OpHistory

  function ConsumerRank(c: ConsumerStage): nat {
    match c
    case Fetched(_) => 5
    case Announcing(_, _) => 4
    case Pushing(_, _) => 3
    case Marking(_, _) => 2
    case Burying(_, _, _) => 2
    case Acking(_, _) => 1
    case _ => 0
  }

  function WorkerRank(w: WorkerStage): nat {
    match w
    case Hand(_) => 4
    case Drawn(_, _) => 3
    case Completing(_, _, _) => 2
    case Resting => 1
    case Gone => 0
  }

  /** A send costs a consumer stage and buys a queue place; a dequeue costs a place and buys worker stages. */
  function Measure(pr: Proc): nat {
    5 * ConsumerRank(pr.consumer) + 4 * |pr.queue| + WorkerRank(pr.worker)
  }

  const MAX_MEASURE := 5 * 5 + 4 * SENDER_QUEUE_CAP + 4

  predicate StepOf(step: Step, p: nat) {
    !step.Environment? && step.p == p
  }

  lemma ConsumerMoveCosts(cfg: Config, s: State, pr: Proc, move: ConsumerMove)
    requires ConsumerCan(s, pr, move) && pr.consumer.InFlight()
    ensures Measure(ConsumerAfter(cfg, s, pr, move)) < Measure(pr)
  {
    hide Judge, WidgetOf, WantsCompletion;
    if move.Decide? {
      hide Decision;
      DecisionFacts(cfg, pr.consumer.id, s.stream[pr.consumer.id], move.now1, move.now2, move.exportSent);
    }
  }

  lemma WorkerMoveCosts(cfg: Config, store: Store, pr: Proc, move: WorkerMove)
    requires WorkerCan(pr, move)
    ensures Measure(WorkerAfter(cfg, store, pr, move)) < Measure(pr)
  {
    hide SinkOf, ReadMeta, Completes, Counter, CanIncrement, Written;
  }

  /** Steps of others, of the clock and of the environment neither raise the measure nor free the consumer. */
  lemma StepCosts(cfg: Config, s: State, step: Step, p: nat)
    requires Enabled(s, step) && p < |s.procs| && s.procs[p].consumer.InFlight()
    ensures var s' := Apply(cfg, s, step);
      && p < |s'.procs|
      && Measure(s'.procs[p]) <= Measure(s.procs[p]) - (if StepOf(step, p) then 1 else 0)
  {
    hide ApplyEnv, ApplyConsumer, ApplyWorker, Measure;
    match step {
      case Consumer(q, move) =>
        ConsumerProcs(cfg, s, q, move);
        if q == p { ConsumerMoveCosts(cfg, s, s.procs[p], move); }
      case Worker(q, move) =>
        WorkerTouches(cfg, s, q, move);
        if q == p { WorkerMoveCosts(cfg, s.store, s.procs[p], move); }
      case Environment(move) =>
        EnvIsFree(s, move, p);
    }
  }

  lemma EnvIsFree(s: State, move: EnvMove, p: nat)
    requires EnvCan(s, move) && p < |s.procs|
    ensures p < |ApplyEnv(s, move).procs| && Measure(ApplyEnv(s, move).procs[p]) == Measure(s.procs[p])
  {
    hide HSet, DropBuffer, DropStatus;
  }

  /** A step that the process itself can take while it holds an entry. */
  function OwnNext(pr: Proc, p: nat): Step {
    match pr.consumer
    case Fetched(_) => Consumer(p, Decide(0, 0, true))
    case Announcing(_, _) => Consumer(p, Announce(Ok))
    case Burying(_, _, _) => Consumer(p, Bury(Ok))
    case Acking(_, _) => Consumer(p, Ack(Ok))
    case _ =>
      if |pr.queue| < SENDER_QUEUE_CAP then Consumer(p, if pr.consumer.Pushing? then PushWidget else PushMarker)
      else match pr.worker
        case Gone => Consumer(p, if pr.consumer.Pushing? then AbandonWidget else AbandonMarker)
        case Resting => Worker(p, Take)
        case Hand(item) => Worker(p, if item.Marker? then Increment(Ok) else Emit(Ok))
        case Drawn(_, _) => Worker(p, Look(Ok))
        case Completing(_, _, _) => Worker(p, Complete(Ok))
  }

  lemma OwnNextIsEnabled(s: State, p: nat)
    requires Alive(s, p) && s.procs[p].consumer.InFlight() && s.procs[p].consumer.id < |s.stream| && Fifo(s.procs[p])
    ensures Enabled(s, OwnNext(s.procs[p], p)) && StepOf(OwnNext(s.procs[p], p), p)
  {
  }

  /**
   * While a living process holds an entry, its own consumer or worker can move: a
   * full queue leaves the worker something to do, and a worker that is gone
   * leaves the select its ctx.Done() case.
   */
  lemma SomeStepIsEnabled(cfg: Config, run: seq<State>, steps: seq<Step>, i: nat, p: nat)
    requires IsRun(cfg, run, steps) && i < |run|
    requires Alive(run[i], p) && run[i].procs[p].consumer.InFlight()
    ensures exists step :: StepOf(step, p) && Enabled(run[i], step)
  {
    hide IsRun, Inv, ItemOk, OwnNext, Enabled, Fifo;
    InvAlways(cfg, run, steps, i);
    InvParts(cfg, run[i]);
    var s := run[i];
    assert ProcInv(cfg, s.stream, s.owner, p, s.procs[p]);
    OwnNextIsEnabled(s, p);
  }

  /** How many of the steps from `i` up to `j` are steps of `p`. */
  function OwnSteps(steps: seq<Step>, p: nat, i: nat, j: nat): nat
    requires i <= j <= |steps|
  {
    if i == j then 0 else OwnSteps(steps, p, i, j - 1) + if StepOf(steps[j - 1], p) then 1 else 0
  }

  ghost predicate HoldsThroughout(run: seq<State>, p: nat, i: nat, j: nat) {
    forall k :: i <= k <= j && k < |run| ==> p < |run[k].procs| && run[k].procs[p].consumer.InFlight()
  }

  /** As long as an entry is held, every own step is paid for by the measure. */
  lemma {:induction false} OwnStepsArePaid(cfg: Config, run: seq<State>, steps: seq<Step>, i: nat, j: nat, p: nat)
    requires IsRun(cfg, run, steps) && i <= j <= |steps| && HoldsThroughout(run, p, i, j)
    ensures OwnSteps(steps, p, i, j) + Measure(run[j].procs[p]) <= Measure(run[i].procs[p])
  {
    hide Apply, Enabled, Measure;
    if i < j {
      OwnStepsArePaid(cfg, run, steps, i, j - 1, p);
      assert run[j - 1].procs[p].consumer.InFlight();
      StepCosts(cfg, run[j - 1], steps[j - 1], p);
    }
  }

  lemma MeasureIsBounded(cfg: Config, run: seq<State>, steps: seq<Step>, i: nat, p: nat)
    requires IsRun(cfg, run, steps) && i < |run| && p < |run[i].procs|
    ensures Measure(run[i].procs[p]) <= MAX_MEASURE
  {
    hide IsRun, GroupInv, FateInv, OpsInv, ItemOk, StageOk;
    InvAlways(cfg, run, steps, i);
    assert ProcInv(cfg, run[i].stream, run[i].owner, p, run[i].procs[p]);
  }

  /**
   * Progress: a process that holds an entry and takes MAX_MEASURE steps of its own,
   * in any interleaving with other processes, timers and failing commands, has
   * brought that entry to the end of its processing.
   */
  lemma EntryIsFinished(cfg: Config, run: seq<State>, steps: seq<Step>, i: nat, j: nat, p: nat)
    requires IsRun(cfg, run, steps) && i <= j <= |steps|
    requires p < |run[i].procs| && run[i].procs[p].consumer.InFlight()
    requires OwnSteps(steps, p, i, j) >= MAX_MEASURE
    ensures exists k :: i <= k <= j && run[i].procs[p].consumer.id in run[k].fate
  {
    hide Inv, Measure, Apply, Enabled, MAX_MEASURE;
    var id := run[i].procs[p].consumer.id;
    if forall k :: i <= k <= j ==> id !in run[k].fate {
      HeldUntilFated(cfg, run, steps, i, j, p);
      HolderHasMeasure(run[j].procs[p]);
      MeasureIsBounded(cfg, run, steps, i, p);
      OwnStepsArePaid(cfg, run, steps, i, j, p);
    }
  }

  lemma HolderHasMeasure(pr: Proc)
    requires pr.consumer.InFlight()
    ensures Measure(pr) > 0
  {
  }

  lemma {:induction false} HeldUntilFated(cfg: Config, run: seq<State>, steps: seq<Step>, i: nat, j: nat, p: nat)
    requires IsRun(cfg, run, steps) && i <= j <= |steps|
    requires p < |run[i].procs| && run[i].procs[p].consumer.InFlight()
    requires forall k :: i <= k <= j ==> run[i].procs[p].consumer.id !in run[k].fate
    ensures HoldsThroughout(run, p, i, j)
  {
    hide Inv, Apply, Enabled;
    forall k | i <= k <= j ensures p < |run[k].procs| && run[k].procs[p].consumer.InFlight() {
      OwnerStays(cfg, run, steps, i, k, p);
      InvAlways(cfg, run, steps, k);
      InvParts(cfg, run[k]);
      assert !Fated(run[k], run[i].procs[p].consumer.id);
    }
  }

  /** Ownership is never revoked. */
  lemma {:induction false} OwnerStays(cfg: Config, run: seq<State>, steps: seq<Step>, i: nat, k: nat, p: nat)
    requires IsRun(cfg, run, steps) && i <= k < |run|
    requires p < |run[i].procs| && run[i].procs[p].consumer.InFlight()
    ensures run[i].procs[p].consumer.id in run[k].owner && run[k].owner[run[i].procs[p].consumer.id] == p
  {
    hide Inv, Apply, Enabled;
    InvAlways(cfg, run, steps, k);
    InvParts(cfg, run[k]);
    if i == k {
      hide ItemOk, Fifo;
      assert ProcInv(cfg, run[i].stream, run[i].owner, p, run[i].procs[p]);
    } else {
      OwnerStays(cfg, run, steps, i, k - 1, p);
      InvAlways(cfg, run, steps, k - 1);
      InvParts(cfg, run[k - 1]);
      OwnersGrow(cfg, run[k - 1], steps[k - 1]);
    }
  }

  lemma OwnersGrow(cfg: Config, s: State, step: Step)
    requires GroupInv(s) && Enabled(s, step)
    ensures var s' := Apply(cfg, s, step);
      s.owner.Keys <= s'.owner.Keys && forall id :: id in s.owner ==> s'.owner[id] == s.owner[id]
  {
    hide ApplyConsumer, ApplyWorker, HSet, DropBuffer, DropStatus;
    match step {
      case Consumer(p, move) => KeepsOwners(cfg, s, p, move);
      case Worker(p, move) => WorkerTouches(cfg, s, p, move);
      case Environment(_) =>
    }
  }
}

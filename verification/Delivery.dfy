/**
 * Redis delivery over every run: at most once, first in first out, and no entry
 * or item unaccounted for.
 */
module Delivery {
  import opened Messages
  import opened Admission
  import opened Controller
  import opened RedisBackend
  import opened RedisBroker
  import opened Cluster
  import opened ClusterInvariant
  import opened OpHistory

  // ---- At most once ----

  /** The step hands entry `id` to ProcessMessage (or to the skip of an undecodable payload). */
  predicate Processes(s: State, step: Step, id: nat) {
    step.Consumer? && step.c.Decide? && Enabled(s, step) && s.procs[step.p].consumer.id == id
  }

  /** The entry was handed to a process, and that process is past the point of starting on it. */
  ghost predicate Started(s: State, id: nat) {
    && id in s.owner && s.owner[id] < |s.procs|
    && !(s.procs[s.owner[id]].consumer.Fetched? && s.procs[s.owner[id]].consumer.id == id)
  }

  lemma StartedAfter(cfg: Config, s: State, step: Step, id: nat)
    requires Inv(cfg, s) && Processes(s, step, id)
    ensures Started(Apply(cfg, s, step), id)
  {
    hide Inv, ItemOk, Fifo, Decision;
    InvParts(cfg, s);
    var c := s.procs[step.p].consumer;
    assert ProcInv(cfg, s.stream, s.owner, step.p, s.procs[step.p]);
    DecisionFacts(cfg, c.id, s.stream[c.id], step.c.now1, step.c.now2, step.c.exportSent);
  }

  /** The move leaves the group, its histories and every consumer alone, and revives no process. */
  ghost predicate ConsumersRest(s: State, s': State) {
    && s'.group == s.group && s'.owner == s.owner && s'.fate == s.fate
    && |s.procs| <= |s'.procs|
    && forall p :: 0 <= p < |s.procs| ==>
         s'.procs[p].consumer == s.procs[p].consumer && (s'.procs[p].alive ==> s.procs[p].alive)
  }

  lemma EnvRests(s: State, move: EnvMove)
    requires EnvCan(s, move)
    ensures ConsumersRest(s, ApplyEnv(s, move))
  {
    hide HSet, DropBuffer, DropStatus;
  }

  lemma WorkerRests(cfg: Config, s: State, p: nat, move: WorkerMove)
    requires Enabled(s, Worker(p, move))
    ensures ConsumersRest(s, ApplyWorker(cfg, s, p, move))
  {
    WorkerTouches(cfg, s, p, move);
    hide ApplyWorker, WorkerAfter;
  }

  lemma StaysStarted(cfg: Config, s: State, step: Step, id: nat)
    requires Inv(cfg, s) && Started(s, id) && Enabled(s, step)
    ensures Started(Apply(cfg, s, step), id)
  {
    hide Inv, ApplyEnv, ApplyWorker, ApplyConsumer;
    InvParts(cfg, s);
    match step {
      case Worker(p, move) => WorkerRests(cfg, s, p, move);
      case Consumer(p, move) => ConsumerStaysStarted(cfg, s, p, move, id);
      case Environment(move) => EnvRests(s, move);
    }
  }

  /** What a consumer move does to the group and its histories, in outline. */
  lemma ConsumerOutline(cfg: Config, s: State, p: nat, move: ConsumerMove)
    requires GroupOk(s.group, |s.stream|) && Enabled(s, Consumer(p, move))
    ensures var s' := ApplyConsumer(cfg, s, p, move);
      && (s.group.exists_ ==> s'.group.start == s.group.start && s'.group.next >= s.group.next)
      && (forall id :: id in s.owner ==> id in s'.owner)
      && (forall id :: id in s'.owner ==> (id in s.owner && s.owner[id] == s'.owner[id]) || id == s.group.next)
      && (forall id :: id in s'.fate ==> id in s.fate || (move.Ack? && id == s.procs[p].consumer.id))
      && s'.procs == s.procs[p := ConsumerAfter(cfg, s, s.procs[p], move)]
  {
    hide ConsumerAfter, CreateGroup, Acknowledge, SetStatus, GroupOk;
    if move.EnsureGroup? { CreateIsSafe(s.group, |s.stream|); }
    if move.Ack? { AckKeepsCursor(s.group, s.procs[p].consumer.id); }
  }

  lemma CreateIsSafe(g: Group, at: nat)
    ensures g.exists_ ==> CreateGroup(g, at) == g
  {
  }

  lemma AckKeepsCursor(g: Group, id: nat)
    ensures Acknowledge(g, id).next == g.next && Acknowledge(g, id).start == g.start
  {
  }

  /** Only a read brings a consumer to `Fetched`, at the cursor of the group. */
  lemma FetchedByRead(cfg: Config, s: State, pr: Proc, move: ConsumerMove)
    requires ConsumerCan(s, pr, move)
    ensures var pr' := ConsumerAfter(cfg, s, pr, move);
      && pr'.alive == pr.alive
      && (pr'.consumer.Fetched? ==> pr' == pr || pr'.consumer.id == s.group.next)
  {
    hide WidgetOf, WantsCompletion;
    if move.Decide? {
      hide Decision;
      DecisionFacts(cfg, pr.consumer.id, s.stream[pr.consumer.id], move.now1, move.now2, move.exportSent);
    }
  }

  lemma ConsumerStaysStarted(cfg: Config, s: State, p: nat, move: ConsumerMove, id: nat)
    requires GroupInv(s) && Started(s, id) && Enabled(s, Consumer(p, move))
    ensures Started(ApplyConsumer(cfg, s, p, move), id)
  {
    ConsumerOutline(cfg, s, p, move);
    FetchedByRead(cfg, s, s.procs[p], move);
    hide ApplyConsumer, ConsumerAfter, HeldBy, Fated;
  }

  lemma {:induction false} StartedForGood(cfg: Config, run: seq<State>, steps: seq<Step>, i: nat, j: nat, id: nat)
    requires IsRun(cfg, run, steps) && i < j < |run| && Processes(run[i], steps[i], id)
    ensures Started(run[j], id)
  {
    hide Inv, Started, Apply, Enabled, Processes;
    InvAlways(cfg, run, steps, j - 1);
    if i + 1 < j {
      StartedForGood(cfg, run, steps, i, j - 1, id);
      StaysStarted(cfg, run[j - 1], steps[j - 1], id);
    } else {
      StartedAfter(cfg, run[i], steps[i], id);
    }
  }

  /**
   * At most once: in no run, with any crashes, restarts, lost replies and failed
   * acknowledgements, is a stream entry processed twice, by whatever processes.
   */
  lemma AtMostOnce(cfg: Config, run: seq<State>, steps: seq<Step>, i: nat, j: nat, id: nat)
    requires IsRun(cfg, run, steps) && i < j < |steps|
    requires Processes(run[i], steps[i], id)
    ensures !Processes(run[j], steps[j], id)
  {
    hide Inv, ProcsInv;
    StartedForGood(cfg, run, steps, i, j, id);
    InvAlways(cfg, run, steps, j);
    InvParts(cfg, run[j]);
    if Processes(run[j], steps[j], id) {
      InFlightIsOwned(cfg, run[j], steps[j].p);
    }
  }

  // ---- Lost entries ----

  /** The entry was delivered, but its reply was lost or its process died before acknowledging it. */
  ghost predicate Stranded(s: State, id: nat) {
    && s.group.start <= id < s.group.next && id !in s.fate
    && (id in s.owner ==> s.owner[id] < |s.procs| && !s.procs[s.owner[id]].alive)
  }

  /** A stranded entry stays stranded: nothing claims it, so no process ever runs it to an end. */
  lemma {:induction false} StrandedForever(cfg: Config, run: seq<State>, steps: seq<Step>, i: nat, j: nat, id: nat)
    requires IsRun(cfg, run, steps) && i <= j < |run| && Stranded(run[i], id)
    ensures Stranded(run[j], id)
  {
    hide Inv, Stranded, Apply, Enabled;
    if i < j {
      StrandedForever(cfg, run, steps, i, j - 1, id);
      InvAlways(cfg, run, steps, j - 1);
      StaysStranded(cfg, run[j - 1], steps[j - 1], id);
    }
  }

  lemma StaysStranded(cfg: Config, s: State, step: Step, id: nat)
    requires Inv(cfg, s) && Stranded(s, id) && Enabled(s, step)
    ensures Stranded(Apply(cfg, s, step), id)
  {
    hide Inv, ApplyEnv, ApplyWorker, ApplyConsumer;
    InvParts(cfg, s);
    match step {
      case Worker(p, move) => WorkerRests(cfg, s, p, move);
      case Consumer(p, move) => ConsumerStaysStranded(cfg, s, p, move, id);
      case Environment(move) => EnvRests(s, move);
    }
  }

  lemma ConsumerStaysStranded(cfg: Config, s: State, p: nat, move: ConsumerMove, id: nat)
    requires GroupInv(s) && ProcsInv(cfg, s) && Stranded(s, id) && Enabled(s, Consumer(p, move))
    ensures Stranded(ApplyConsumer(cfg, s, p, move), id)
  {
    ConsumerOutline(cfg, s, p, move);
    FetchedByRead(cfg, s, s.procs[p], move);
    if s.procs[p].consumer.InFlight() { InFlightIsOwned(cfg, s, p); }
    hide ApplyConsumer, ConsumerAfter, HeldBy, Fated, ProcsInv;
  }

  // ---- First in, first out ----

  /** The queue is a bounded first-in-first-out channel at every moment of every run, crashes and timeouts included. */
  lemma BoundedFifo(cfg: Config, run: seq<State>, steps: seq<Step>, i: nat, p: nat)
    requires IsRun(cfg, run, steps) && i < |run| && p < |run[i].procs|
    ensures var pr := run[i].procs[p];
      && pr.pushed == pr.handled + InHand(pr.worker) + pr.queue
      && |pr.queue| <= SENDER_QUEUE_CAP
  {
    hide IsRun, ItemOk, StageOk, GroupInv, FateInv, OpsInv;
    InvAlways(cfg, run, steps, i);
    assert ProcInv(cfg, run[i].stream, run[i].owner, p, run[i].procs[p]);
  }

  // ---- Items ----

  ghost predicate NoItemOf(pushed: seq<Item>, id: nat) {
    forall k :: 0 <= k < |pushed| ==> pushed[k].src != id
  }

  /** The items of `id` in the history are one widget and, if `marker`, the completion marker right behind it. */
  ghost predicate ItemsOf(cfg: Config, pushed: seq<Item>, id: nat, info: EventInfo, marker: bool, k: nat) {
    && k < |pushed| && pushed[k] == WidgetOf(cfg.strategyKeys, id, info)
    && (marker ==>
          && k + 1 < |pushed| && pushed[k + 1] == Marker(id, info.routingKey)
          && info.streamTech == "API" && info.routingKey != "")
    && forall j :: 0 <= j < |pushed| && pushed[j].src == id ==> j == k || (marker && j == k + 1)
  }

  /**
   * Item conservation: a skipped, forwarded or dead-lettered entry leaves no item
   * in any process. A processed one leaves exactly one widget item, in its own
   * process, followed by exactly one marker when its fate says so and by none
   * otherwise; only API requests with a routing key get markers.
   */
  lemma ItemConservation(cfg: Config, run: seq<State>, steps: seq<Step>, i: nat, id: nat)
    requires IsRun(cfg, run, steps) && i < |run| && id in run[i].fate
    ensures var s := run[i];
      && id in s.owner && s.owner[id] < |s.procs| && id < |s.stream|
      && (forall p :: 0 <= p < |s.procs| && p != s.owner[id] ==> NoItemOf(s.procs[p].pushed, id))
      && (if s.fate[id].Processed? then
            && Prepared(cfg, s.stream[id]).Some?
            && exists k: nat ::
                 ItemsOf(cfg, s.procs[s.owner[id]].pushed, id, Prepared(cfg, s.stream[id]).value, s.fate[id].marker, k)
          else NoItemOf(s.procs[s.owner[id]].pushed, id))
  {
    hide IsRun, Inv, StageOk, Fifo, Prepared, WidgetOf, WantsCompletion;
    InvAlways(cfg, run, steps, i);
    var s := run[i];
    InvParts(cfg, s);
    assert FateMatches(s.fate[id], s.procs[s.owner[id]].pushed, id);
    forall p | 0 <= p < |s.procs| && p != s.owner[id] ensures NoItemOf(s.procs[p].pushed, id) {
      assert ProcInv(cfg, s.stream, s.owner, p, s.procs[p]);
      forall k | 0 <= k < |s.procs[p].pushed| ensures s.procs[p].pushed[k].src != id {
        assert ItemOk(cfg, s.stream, s.owner, p, s.procs[p].pushed, k);
      }
    }
    if s.fate[id].Processed? {
      var k := WidgetPosition(cfg, s, id);
      assert ItemsOf(cfg, s.procs[s.owner[id]].pushed, id, Prepared(cfg, s.stream[id]).value, s.fate[id].marker, k);
    }
  }

  lemma WidgetPosition(cfg: Config, s: State, id: nat) returns (k: nat)
    requires ProcsInv(cfg, s) && id in s.fate && s.fate[id].Processed? && id in s.owner && s.owner[id] < |s.procs|
    requires FateMatches(s.fate[id], s.procs[s.owner[id]].pushed, id)
    ensures id < |s.stream| && Prepared(cfg, s.stream[id]).Some?
    ensures ItemsOf(cfg, s.procs[s.owner[id]].pushed, id, Prepared(cfg, s.stream[id]).value, s.fate[id].marker, k)
  {
    hide StageOk, Fifo, Prepared, WidgetOf;
    var p := s.owner[id];
    var pushed := s.procs[p].pushed;
    assert ProcInv(cfg, s.stream, s.owner, p, s.procs[p]);
    k :| 0 <= k < |pushed| && pushed[k].src == id;
    assert ItemOk(cfg, s.stream, s.owner, p, pushed, k);
    if pushed[k].Marker? {
      k := k - 1;
      assert ItemOk(cfg, s.stream, s.owner, p, pushed, k);
    }
    forall j | 0 <= j < |pushed| && pushed[j].src == id
      ensures j == k || (j == k + 1 && s.fate[id].marker)
    {
      if j <= k { LastSrcIsLargest(cfg, s.stream, s.owner, p, pushed, j, k); }
      else { LastSrcIsLargest(cfg, s.stream, s.owner, p, pushed, k, j); }
    }
    if s.fate[id].marker {
      var m :| 0 <= m < |pushed| && pushed[m].src == id && pushed[m].Marker?;
      assert ItemOk(cfg, s.stream, s.owner, p, pushed, m);
    }
  }
}

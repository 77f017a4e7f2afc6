/** When the completion marker of a request is sent, and the one way in which it can be missing. */
module Markers {
  import opened Prelude
  import opened Messages
  import opened Admission
  import opened Controller
  import opened RedisBackend
  import opened RedisBroker
  import opened Cluster
  import opened ClusterInvariant
  import opened OpHistory
  import opened Completion
  import opened Delivery

  /** A request that waits for completion: what ProcessMessage tests before it announces and before it marks. */
  ghost predicate AsksForCompletion(cfg: Config, s: State, id: nat) {
    && id < |s.stream| && Prepared(cfg, s.stream[id]).Some?
    && var info := Prepared(cfg, s.stream[id]).value;
    && info.streamTech == "API" && info.routingKey != ""
  }

  /** At step `j` the select on the marker of `id` gave up, its context being done. */
  ghost predicate GaveUp(s: State, step: Step, id: nat) {
    && step.Consumer? && step.c.AbandonMarker? && Enabled(s, step)
    && s.procs[step.p].consumer.id == id && s.procs[step.p].ContextDone()
  }

  /** The entry is through its second select without a marker. */
  ghost predicate Unmarked(s: State, id: nat) {
    || (id in s.fate && s.fate[id] == Processed(false))
    || exists p: nat :: p < |s.procs| && s.procs[p].consumer == Acking(id, Processed(false))
  }

  /** Only the two selects end without a marker: the one for requests that want none, and the one that gives up. */
  lemma UnmarkedBy(cfg: Config, s: State, step: Step, id: nat)
    requires Inv(cfg, s) && Enabled(s, step) && Unmarked(Apply(cfg, s, step), id) && !Unmarked(s, id)
    requires AsksForCompletion(cfg, Apply(cfg, s, step), id)
    ensures GaveUp(s, step, id)
  {
    hide Inv, Prepared, ApplyWorker, ApplyEnv, ApplyConsumer;
    InvParts(cfg, s);
    match step {
      case Worker(p, move) =>
        WorkerRests(cfg, s, p, move);
        WorkerTouches(cfg, s, p, move);
      case Environment(move) =>
        EnvRests(s, move);
        NewcomersHoldNothing(s, move);
      case Consumer(p, move) => UnmarkedByConsumer(cfg, s, p, move, id);
    }
  }

  lemma NewcomersHoldNothing(s: State, move: EnvMove)
    requires EnvCan(s, move)
    ensures forall p :: |s.procs| <= p < |ApplyEnv(s, move).procs| ==> ApplyEnv(s, move).procs[p] == NEW_PROC
  {
    hide HSet, DropBuffer, DropStatus;
  }

  lemma UnmarkedByConsumer(cfg: Config, s: State, p: nat, move: ConsumerMove, id: nat)
    requires ProcsInv(cfg, s) && GroupInv(s) && Enabled(s, Consumer(p, move))
    requires Unmarked(ApplyConsumer(cfg, s, p, move), id) && !Unmarked(s, id)
    requires AsksForCompletion(cfg, ApplyConsumer(cfg, s, p, move), id)
    ensures GaveUp(s, Consumer(p, move), id)
  {
    var pr := s.procs[p];
    ConsumerOutline(cfg, s, p, move);
    FateByAck(cfg, s, p, move);
    ConsumerKeepsStream(cfg, s, p, move);
    UnmarkedStage(cfg, s, p, move);
    hide ProcsInv, GroupInv, ApplyConsumer, ConsumerAfter, Prepared;
    assert forall q: nat :: q < |s.procs| ==> s.procs[q].consumer != Acking(id, Processed(false));
  }

  lemma ConsumerKeepsStream(cfg: Config, s: State, p: nat, move: ConsumerMove)
    requires Enabled(s, Consumer(p, move))
    ensures ApplyConsumer(cfg, s, p, move).stream == s.stream
  {
    hide ConsumerAfter, CreateGroup, DeliverNext, Acknowledge, SetStatus;
  }

  lemma FateByAck(cfg: Config, s: State, p: nat, move: ConsumerMove)
    requires Enabled(s, Consumer(p, move))
    ensures ApplyConsumer(cfg, s, p, move).fate ==
      if move.Ack? then s.fate[s.procs[p].consumer.id := s.procs[p].consumer.fate] else s.fate
  {
    hide ConsumerAfter, CreateGroup, DeliverNext, Acknowledge, SetStatus;
  }

  lemma UnmarkedStage(cfg: Config, s: State, p: nat, move: ConsumerMove)
    requires ProcsInv(cfg, s) && Enabled(s, Consumer(p, move))
    ensures var pr, c' := s.procs[p], ConsumerAfter(cfg, s, s.procs[p], move).consumer;
      c'.Acking? && c'.fate == Processed(false) && AsksForCompletion(cfg, s, c'.id) && c' != pr.consumer ==>
        GaveUp(s, Consumer(p, move), c'.id)
  {
    var pr := s.procs[p];
    assert ProcInv(cfg, s.stream, s.owner, p, pr);
    hide ItemOk, Fifo, Prepared, WidgetOf;
    match move {
      case Decide(now1, now2, exportSent) =>
        hide Decision;
        DecisionFacts(cfg, pr.consumer.id, s.stream[pr.consumer.id], now1, now2, exportSent);
      case _ =>
    }
  }

  lemma UnmarkedIsOwned(cfg: Config, s: State, id: nat)
    requires Inv(cfg, s) && Unmarked(s, id)
    ensures id in s.owner && id < |s.stream|
  {
    hide Inv, ItemOk, Fifo;
    InvParts(cfg, s);
    if p: nat :| p < |s.procs| && s.procs[p].consumer == Acking(id, Processed(false)) {
      InFlightIsOwned(cfg, s, p);
    }
  }

  /**
   * A missing marker has one cause. If an entry is through without a marker
   * although its request is for stream_tech API and has a routing key, then the
   * select on its marker gave up at some step, its context being done.
   */
  lemma {:induction false} UnmarkedGaveUp(cfg: Config, run: seq<State>, steps: seq<Step>, i: nat, id: nat)
    requires IsRun(cfg, run, steps) && i < |run| && Unmarked(run[i], id) && AsksForCompletion(cfg, run[i], id)
    ensures exists j :: 0 <= j < i && GaveUp(run[j], steps[j], id)
  {
    hide Inv, Unmarked, AsksForCompletion, GaveUp, Enabled, Apply;
    if i == 0 {
      NobodyIsUnmarked(id);
    } else {
      InvAlways(cfg, run, steps, i - 1);
      if Unmarked(run[i - 1], id) {
        UnmarkedIsOwned(cfg, run[i - 1], id);
        StreamStep(cfg, run[i - 1], steps[i - 1]);
        AskedBefore(cfg, run[i - 1], run[i], id);
        UnmarkedGaveUp(cfg, run, steps, i - 1, id);
      } else {
        UnmarkedBy(cfg, run[i - 1], steps[i - 1], id);
      }
    }
  }

  lemma NobodyIsUnmarked(id: nat)
    ensures !Unmarked(INITIAL, id)
  {
  }

  lemma AskedBefore(cfg: Config, s: State, s': State, id: nat)
    requires s.stream <= s'.stream && id < |s.stream| && AsksForCompletion(cfg, s', id)
    ensures AsksForCompletion(cfg, s, id)
  {
    hide Prepared;
    assert s'.stream[id] == s.stream[id];
  }
}

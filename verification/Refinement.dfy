/** The goroutines' own code, run without interruption, is a run of the cluster machine. */
module Refinement {
  import opened Prelude
  import opened Messages
  import opened Admission
  import opened Controller
  import opened RedisBackend
  import opened Dispatcher
  import opened Cluster
  import opened Effects
  import Code = Consumer

  /** The consumer of `p` stands before the message `m`. */
  ghost predicate BeforeMessage(s: State, p: nat, m: Incoming) {
    && Alive(s, p) && s.procs[p].consumer.Fetched? && s.procs[p].consumer.id < |s.stream|
    && s.stream[s.procs[p].consumer.id].Content() == Json(m)
  }

  /** Every process but `p` stays as it was. */
  ghost predicate OthersRest(s: State, s': State, p: nat) {
    |s'.procs| == |s.procs| && forall q :: 0 <= q < |s.procs| && q != p ==> s'.procs[q] == s.procs[q]
  }

  /**
   * Only the consumer of `p` moved: every other process, the stream and the output
   * logs stay as they were. What becomes of the group, the dead letters, the
   * backend and the histories is said where this is used.
   */
  ghost predicate Beside(s: State, s': State, p: nat) {
    && p < |s.procs| && OthersRest(s, s', p)
    && s'.stream == s.stream && s'.outputs == s.outputs
    && s'.procs[p].worker == s.procs[p].worker && s'.procs[p].handled == s.procs[p].handled
    && s'.procs[p].alive == s.procs[p].alive
  }

  /** How the call ends for the entry. */
  function FateOf(cfg: Config, m: Incoming, t: Code.Turn): Fate {
    match Judge(cfg, t.now1, t.now2, m)
    case Skip => Skipped
    case Forward => if t.exportSent then Forwarded else DeadLettered(EXPORT_SEND_FAILED)
    case Reject(reason, _) => DeadLettered(reason)
    case Admit(info) => AdmittedFate(info, t)
  }

  function AdmittedFate(info: EventInfo, t: Code.Turn): Fate {
    if t.widgetSent then Processed(WantsCompletion(info) && t.markerSent) else DeadLettered(CONTROLLER_ERROR)
  }

  /** The state after ProcessMessage, as the code's outcome describes it. */
  ghost predicate After(s: State, s': State, p: nat, id: nat, outcome: Code.Outcome, fate: Fate) {
    && Beside(s, s', p) && s'.group == s.group && s'.deadLetters == s.deadLetters
    && s'.owner == s.owner && s'.fate == s.fate
    && s'.procs[p].pushed == s.procs[p].pushed + outcome.sent
    && s'.procs[p].queue == s.procs[p].queue + outcome.sent
    && s'.store == outcome.store
    && (if outcome.ack then s'.procs[p].consumer == Acking(id, fate)
        else
          && outcome.info.Some? && fate == DeadLettered(outcome.reason)
          && s'.procs[p].consumer == Burying(id, outcome.reason, outcome.info.value))
  }

  /** The queue of `p` has room for the items. */
  ghost predicate HasRoom(s: State, p: nat, sent: seq<Item>) {
    p < |s.procs| && |s.procs[p].queue| + |sent| <= SENDER_QUEUE_CAP
  }

  /**
   * Every call of ProcessMessage, whatever clocks, command ends and select cases it
   * meets, is a sequence of machine steps of its process (with the timer firing
   * where a select gives up), with the same pushes, the same status write and the
   * same verdict. The queue needs room only for what the call sends.
   */
  lemma ProcessMessageIsARun(cfg: Config, run: seq<State>, steps: seq<Step>, p: nat, m: Incoming, t: Code.Turn)
    returns (run': seq<State>, steps': seq<Step>)
    requires IsRun(cfg, run, steps) && BeforeMessage(Last(run), p, m)
    requires var s := Last(run);
      HasRoom(s, p, Code.OutcomeOf(cfg, s.store, s.procs[p].consumer.id, m, t).sent)
    ensures Continues(cfg, run, steps, run', steps')
    ensures var s := Last(run);
      run' != [] && After(s, Last(run'), p, s.procs[p].consumer.id,
                          Code.OutcomeOf(cfg, s.store, s.procs[p].consumer.id, m, t), FateOf(cfg, m, t))
  {
    Lengths(cfg, run, steps);
    hide Judge, WidgetOf, WantsCompletion, SetStatus, IsRun, ApplyConsumer, ConsumerAfter, Enabled, Beside, After;
    var s := Last(run);
    var id := s.procs[p].consumer.id;
    DecideEffect(cfg, s, p, t);
    run', steps' := Extend(cfg, run, steps, Consumer(p, Decide(t.now1, t.now2, t.exportSent)));
    var decided := Last(run');
    var outcome := Code.OutcomeOf(cfg, s.store, id, m, t);
    match Judge(cfg, t.now1, t.now2, m) {
      case Admit(info) =>
        run', steps' := AdmittedIsARun(cfg, run', steps', p, id, info, t, outcome);
        AfterQuiet(s, decided, Last(run'), p, id, outcome, AdmittedFate(info, t));
      case _ =>
        DecidedIsAfter(cfg, s, decided, p, m, t);
    }
  }

  /** The rest of the call, for an admitted message. */
  lemma AdmittedIsARun(cfg: Config, run: seq<State>, steps: seq<Step>, p: nat, id: nat, info: EventInfo, t: Code.Turn,
                       outcome: Code.Outcome)
    returns (run': seq<State>, steps': seq<Step>)
    requires IsRun(cfg, run, steps) && run != [] && Alive(Last(run), p)
    requires Last(run).procs[p].consumer == if WantsCompletion(info) then Announcing(id, info) else Pushing(id, info)
    requires outcome == AdmittedOutcome(cfg, Last(run).store, id, info, t) && HasRoom(Last(run), p, outcome.sent)
    ensures Continues(cfg, run, steps, run', steps') && run' != []
    ensures After(Last(run), Last(run'), p, id, outcome, AdmittedFate(info, t))
  {
    hide WidgetOf, SetStatus, IsRun, ApplyConsumer, ConsumerAfter, After;
    var s := Last(run);
    if WantsCompletion(info) {
      AnnounceEffect(cfg, s, p, t.announce);
      run', steps' := Extend(cfg, run, steps, Consumer(p, Announce(t.announce)));
    } else {
      QuietIsReflexive(s, p);
      run', steps' := run, steps;
    }
    var ready := Last(run');
    run', steps' := PushOrAbandon(cfg, run', steps', p, id, info, t);
    AfterQuiet(s, ready, Last(run'), p, id, outcome, AdmittedFate(info, t));
  }

  /** What the code does with an admitted message. */
  function AdmittedOutcome(cfg: Config, store: Store, id: nat, info: EventInfo, t: Code.Turn): Code.Outcome {
    var announced := if WantsCompletion(info) && t.announce.Applied()
                     then SetStatus(store, info.routingKey, PROCESSING) else store;
    if !t.widgetSent then Code.Outcome(false, CONTROLLER_ERROR, Some(info), [], announced)
    else
      var marker := if WantsCompletion(info) && t.markerSent then [MarkerOf(id, info)] else [];
      Code.Outcome(true, "", Some(info), [WidgetOf(cfg.strategyKeys, id, info)] + marker, announced)
  }

  /** The move changes the stage of the consumer, the backend and no more. */
  ghost predicate Quiet(s: State, s': State, p: nat) {
    && Beside(s, s', p) && s'.group == s.group && s'.deadLetters == s.deadLetters
    && s'.owner == s.owner && s'.fate == s.fate
    && s'.procs[p].pushed == s.procs[p].pushed && s'.procs[p].queue == s.procs[p].queue
  }

  lemma QuietIsReflexive(s: State, p: nat)
    requires p < |s.procs|
    ensures Quiet(s, s, p)
  {
  }

  lemma AfterQuiet(s: State, s': State, s'': State, p: nat, id: nat, outcome: Code.Outcome, fate: Fate)
    requires Quiet(s, s', p) && After(s', s'', p, id, outcome, fate)
    ensures After(s, s'', p, id, outcome, fate)
  {
  }

  lemma DecideEffect(cfg: Config, s: State, p: nat, t: Code.Turn)
    requires Alive(s, p) && s.procs[p].consumer.Fetched? && s.procs[p].consumer.id < |s.stream|
    ensures var move := Decide(t.now1, t.now2, t.exportSent);
      && Enabled(s, Consumer(p, move))
      && var s' := ApplyConsumer(cfg, s, p, move);
      && Quiet(s, s', p) && s'.store == s.store
      && s'.procs[p].consumer == Decision(cfg, s.procs[p].consumer.id, s.stream[s.procs[p].consumer.id],
                                          t.now1, t.now2, t.exportSent)
  {
    hide Decision;
  }

  lemma AnnounceEffect(cfg: Config, s: State, p: nat, reply: Reply)
    requires Alive(s, p) && s.procs[p].consumer.Announcing?
    ensures Enabled(s, Consumer(p, Announce(reply)))
    ensures var s', c := ApplyConsumer(cfg, s, p, Announce(reply)), s.procs[p].consumer;
      && Quiet(s, s', p) && s'.procs[p].consumer == Pushing(c.id, c.info)
      && s'.store == if reply.Applied() then SetStatus(s.store, c.info.routingKey, PROCESSING) else s.store
  {
    hide SetStatus;
  }

  /** A message that is not admitted is done with once it is decided. */
  lemma DecidedIsAfter(cfg: Config, s: State, s': State, p: nat, m: Incoming, t: Code.Turn)
    requires BeforeMessage(s, p, m) && Quiet(s, s', p) && s'.store == s.store
    requires s'.procs[p].consumer == Decision(cfg, s.procs[p].consumer.id, s.stream[s.procs[p].consumer.id],
                                              t.now1, t.now2, t.exportSent)
    requires !Judge(cfg, t.now1, t.now2, m).Admit?
    ensures After(s, s', p, s.procs[p].consumer.id, Code.OutcomeOf(cfg, s.store, s.procs[p].consumer.id, m, t),
                  FateOf(cfg, m, t))
  {
    ForwardedHasData(cfg, t, m);
    hide Judge, WidgetOf, WantsCompletion, SetStatus;
  }

  lemma ForwardedHasData(cfg: Config, t: Code.Turn, m: Incoming)
    ensures Judge(cfg, t.now1, t.now2, m).Forward? ==> m.eventData.Some?
  {
  }

  /** The timer fires and the select gives up. */
  lemma GiveUp(cfg: Config, run: seq<State>, steps: seq<Step>, p: nat) returns (run': seq<State>, steps': seq<Step>)
    requires IsRun(cfg, run, steps) && Alive(Last(run), p)
    requires Last(run).procs[p].consumer.Pushing? || Last(run).procs[p].consumer.Marking?
    ensures Continues(cfg, run, steps, run', steps') && run' != []
    ensures var c := Last(run).procs[p].consumer;
      if c.Pushing?
      then After(Last(run), Last(run'), p, c.id,
                 Code.Outcome(false, CONTROLLER_ERROR, Some(c.info), [], Last(run).store),
                 DeadLettered(CONTROLLER_ERROR))
      else After(Last(run), Last(run'), p, c.id, Code.Outcome(true, "", Some(c.info), [], Last(run).store),
                 Processed(false))
  {
    hide WidgetOf, WantsCompletion, MarkerOf, Decision;
    run', steps' := Extend(cfg, run, steps, Environment(Timeout(p)));
    run', steps' := Extend(cfg, run', steps',
                           Consumer(p, if Last(run).procs[p].consumer.Pushing? then AbandonWidget else AbandonMarker));
  }

  /** The select on the marker. */
  lemma MarkOrGiveUp(cfg: Config, run: seq<State>, steps: seq<Step>, p: nat, id: nat, info: EventInfo, sent: bool)
    returns (run': seq<State>, steps': seq<Step>)
    requires IsRun(cfg, run, steps) && Alive(Last(run), p) && Last(run).procs[p].consumer == Marking(id, info)
    requires sent ==> |Last(run).procs[p].queue| < SENDER_QUEUE_CAP
    ensures IsRun(cfg, run', steps') && run <= run' && steps <= steps'
    ensures After(Last(run), Last(run'), p, id,
                  Code.Outcome(true, "", Some(info), if sent then [MarkerOf(id, info)] else [], Last(run).store),
                  Processed(sent))
  {
    hide WidgetOf, WantsCompletion, MarkerOf, Decision;
    if sent {
      run', steps' := Extend(cfg, run, steps, Consumer(p, PushMarker));
    } else {
      run', steps' := GiveUp(cfg, run, steps, p);
    }
  }

  /** The two selects, from the stage before the controller runs. */
  lemma PushOrAbandon(cfg: Config, run: seq<State>, steps: seq<Step>, p: nat, id: nat, info: EventInfo, t: Code.Turn)
    returns (run': seq<State>, steps': seq<Step>)
    requires IsRun(cfg, run, steps) && Alive(Last(run), p) && Last(run).procs[p].consumer == Pushing(id, info)
    requires t.widgetSent ==>
      |Last(run).procs[p].queue| + (if WantsCompletion(info) && t.markerSent then 2 else 1) <= SENDER_QUEUE_CAP
    ensures IsRun(cfg, run', steps') && run <= run' && steps <= steps'
    ensures var marker := if WantsCompletion(info) && t.markerSent then [MarkerOf(id, info)] else [];
      After(Last(run), Last(run'), p, id,
            if t.widgetSent
            then Code.Outcome(true, "", Some(info), [WidgetOf(cfg.strategyKeys, id, info)] + marker, Last(run).store)
            else Code.Outcome(false, CONTROLLER_ERROR, Some(info), [], Last(run).store),
            AdmittedFate(info, t))
  {
    Lengths(cfg, run, steps);
    hide WidgetOf, WantsCompletion, MarkerOf, IsRun;
    hide ApplyConsumer, After, WidgetSent;
    if !t.widgetSent {
      run', steps' := GiveUp(cfg, run, steps, p);
    } else {
      run', steps' := PushIsARun(cfg, run, steps, p, id, info, t);
    }
  }

  /** The widget is sent; the marker, if one is wanted, is sent or given up. */
  lemma PushIsARun(cfg: Config, run: seq<State>, steps: seq<Step>, p: nat, id: nat, info: EventInfo, t: Code.Turn)
    returns (run': seq<State>, steps': seq<Step>)
    requires IsRun(cfg, run, steps) && run != [] && Enabled(Last(run), Consumer(p, PushWidget))
    requires Last(run).procs[p].consumer == Pushing(id, info)
    requires WantsCompletion(info) && t.markerSent ==> |Last(run).procs[p].queue| + 2 <= SENDER_QUEUE_CAP
    ensures Continues(cfg, run, steps, run', steps') && run' != []
    ensures var marker := if WantsCompletion(info) && t.markerSent then [MarkerOf(id, info)] else [];
      After(Last(run), Last(run'), p, id,
            Code.Outcome(true, "", Some(info), [WidgetOf(cfg.strategyKeys, id, info)] + marker, Last(run).store),
            Processed(WantsCompletion(info) && t.markerSent))
  {
    PushEffect(cfg, Last(run), p);
    hide WidgetOf, WantsCompletion, MarkerOf, IsRun, ApplyConsumer, After, WidgetSent;
    run', steps' := Extend(cfg, run, steps, Consumer(p, PushWidget));
    var pushed := Last(run');
    WidgetSentFacts(cfg, Last(run), pushed, p, id, info);
    if WantsCompletion(info) {
      run', steps' := MarkOrGiveUp(cfg, run', steps', p, id, info, t.markerSent);
      AfterSent(cfg, Last(run), pushed, Last(run'), p, id, info, t.markerSent);
    } else {
      SentIsAfter(cfg, Last(run), pushed, p, id, info);
    }
  }

  /** The widget was sent, and nothing else changed but the stage of the consumer. */
  ghost predicate WidgetSent(cfg: Config, s: State, s': State, p: nat, id: nat, info: EventInfo) {
    && Beside(s, s', p) && s'.group == s.group && s'.deadLetters == s.deadLetters && s'.store == s.store
    && s'.owner == s.owner && s'.fate == s.fate
    && s'.procs[p].pushed == s.procs[p].pushed + [WidgetOf(cfg.strategyKeys, id, info)]
    && s'.procs[p].queue == s.procs[p].queue + [WidgetOf(cfg.strategyKeys, id, info)]
    && s'.procs[p].consumer == if WantsCompletion(info) then Marking(id, info) else Acking(id, Processed(false))
  }

  lemma PushEffect(cfg: Config, s: State, p: nat)
    requires Enabled(s, Consumer(p, PushWidget))
    ensures var c := s.procs[p].consumer;
      WidgetSent(cfg, s, ApplyConsumer(cfg, s, p, PushWidget), p, c.id, c.info)
  {
    hide WidgetOf, WantsCompletion;
  }

  lemma WidgetSentFacts(cfg: Config, s: State, s': State, p: nat, id: nat, info: EventInfo)
    requires WidgetSent(cfg, s, s', p, id, info)
    ensures p < |s'.procs| && s'.procs[p].alive == s.procs[p].alive && s'.store == s.store
    ensures |s'.procs[p].queue| == |s.procs[p].queue| + 1
    ensures s'.procs[p].consumer == if WantsCompletion(info) then Marking(id, info) else Acking(id, Processed(false))
  {
    hide WantsCompletion, WidgetOf;
  }

  lemma AfterSent(cfg: Config, s: State, s': State, s'': State, p: nat, id: nat, info: EventInfo, sent: bool)
    requires WidgetSent(cfg, s, s', p, id, info)
    requires After(s', s'', p, id,
                   Code.Outcome(true, "", Some(info), if sent then [MarkerOf(id, info)] else [], s'.store),
                   Processed(sent))
    ensures var marker := if sent then [MarkerOf(id, info)] else [];
      After(s, s'', p, id, Code.Outcome(true, "", Some(info), [WidgetOf(cfg.strategyKeys, id, info)] + marker, s.store),
            Processed(sent))
  {
    hide WidgetOf, WantsCompletion, MarkerOf;
  }

  lemma SentIsAfter(cfg: Config, s: State, s': State, p: nat, id: nat, info: EventInfo)
    requires WidgetSent(cfg, s, s', p, id, info) && !WantsCompletion(info)
    ensures After(s, s', p, id,
                  Code.Outcome(true, "", Some(info), [WidgetOf(cfg.strategyKeys, id, info)] + [], s.store),
                  Processed(false))
  {
    hide WidgetOf, WantsCompletion;
  }

  /** What the worker's moves leave alone, and that the item in its hand is handled afterwards. */
  ghost predicate ItemDone(s: State, s': State, p: nat)
    requires p < |s.procs| && !s.procs[p].worker.Resting? && !s.procs[p].worker.Gone?
  {
    && OthersRest(s, s', p) && s'.group == s.group && s'.stream == s.stream && s'.deadLetters == s.deadLetters
    && s'.owner == s.owner && s'.fate == s.fate
    && var pr, pr' := s.procs[p], s'.procs[p];
    && pr'.worker.Resting? && pr'.handled == pr.handled + [pr.worker.item]
    && pr'.queue == pr.queue && pr'.pushed == pr.pushed && pr'.consumer == pr.consumer && pr'.alive == pr.alive
  }

  /**
   * HandleItem, run without interruption, is a sequence of machine steps with the
   * same effect on the backend and every log.
   */
  lemma HandleItemIsARun(cfg: Config, run: seq<State>, steps: seq<Step>, p: nat, r: Replies)
    returns (run': seq<State>, steps': seq<Step>)
    requires IsRun(cfg, run, steps) && Alive(Last(run), p) && Last(run).procs[p].worker.Hand?
    ensures Continues(cfg, run, steps, run', steps') && run' != []
    ensures var s, s' := Last(run), Last(run');
      var item := s.procs[p].worker.item;
      && ItemDone(s, s', p)
      && s'.store == StoreAfter(cfg, s.store, item, r)
      && forall sink :: IsLog(sink) ==>
           LogOf(s'.outputs, sink) == LogOf(s.outputs, sink) +
             if Written(cfg, item, r.write) && SinkOf(cfg, item) == sink then [Out(p, item)] else []
  {
    Lengths(cfg, run, steps);
    hide HSet, CheckAlone, IsRun, SinkOf, ApplyWorker, ItemDone;
    var item := Last(run).procs[p].worker.item;
    if !item.Marker? {
      EmitEffect(cfg, Last(run), p, r);
      run', steps' := Extend(cfg, run, steps, Worker(p, Emit(r.write)));
    } else {
      run', steps' := CheckIsARun(cfg, run, steps, p, r);
      assert SinkOf(cfg, item) == Counting(item.routingKey) by { MarkerSink(cfg, item); }
    }
  }

  lemma EmitEffect(cfg: Config, s: State, p: nat, r: Replies)
    requires Enabled(s, Worker(p, Emit(r.write)))
    ensures var s', item := ApplyWorker(cfg, s, p, Emit(r.write)), s.procs[p].worker.item;
      && ItemDone(s, s', p)
      && s'.store == StoreAfter(cfg, s.store, item, r)
      && forall sink :: IsLog(sink) ==>
           LogOf(s'.outputs, sink) == LogOf(s.outputs, sink) +
             if Written(cfg, item, r.write) && SinkOf(cfg, item) == sink then [Out(p, item)] else []
  {
    EmitSink(cfg, s.procs[p].worker.item);
    hide HSet, SinkOf, CheckAlone;
  }

  lemma EmitSink(cfg: Config, item: Item)
    ensures SinkOf(cfg, item).Counting? <==> item.Marker?
    ensures item.Widget? && SinkOf(cfg, item).Buffer? ==> SinkOf(cfg, item).field == FieldOf(item.message)
    ensures SinkOf(cfg, item).Buffer? ==> item.Widget?
  {
  }

  lemma IncrementEffect(cfg: Config, s: State, p: nat, reply: Reply)
    requires Enabled(s, Worker(p, Increment(reply)))
    ensures var s', pr := ApplyWorker(cfg, s, p, Increment(reply)), s.procs[p];
      var rk := pr.worker.item.routingKey;
      var counts := reply.Applied() && CanIncrement(s.store, rk);
      && s'.group == s.group && s'.stream == s.stream && s'.deadLetters == s.deadLetters
      && s'.owner == s.owner && s'.fate == s.fate
      && s'.outputs == s.outputs && s'.store == (if counts then HIncr(s.store, rk) else s.store)
      && s'.procs == s.procs[p := if counts && reply.Ok?
                                  then pr.(worker := Drawn(pr.worker.item, Counter(s.store, rk) + 1))
                                  else FinishItem(pr, false)]
  {
    hide HIncr, Counter, CanIncrement;
  }

  lemma LookEffect(cfg: Config, s: State, p: nat, reply: Reply)
    requires Enabled(s, Worker(p, Look(reply)))
    ensures var s', pr := ApplyWorker(cfg, s, p, Look(reply)), s.procs[p];
      var total := Completes(ReadMeta(s.store, pr.worker.item.routingKey), pr.worker.n);
      && s'.group == s.group && s'.stream == s.stream && s'.deadLetters == s.deadLetters
      && s'.owner == s.owner && s'.fate == s.fate
      && s'.outputs == s.outputs && s'.store == s.store
      && s'.procs == s.procs[p := if !reply.Ok? then FinishItem(pr, false)
                                  else if total.Some?
                                  then pr.(worker := Completing(pr.worker.item, pr.worker.n, total.value))
                                  else FinishItem(pr, true)]
  {
    hide ReadMeta, Completes;
  }

  /** The check that drew `n` is over, as far as its two other commands got. */
  ghost predicate CheckOver(s: State, s': State, p: nat, look: Reply, set_: Reply) {
    && p < |s.procs| && s.procs[p].worker.Drawn? && s.procs[p].worker.item.Marker?
    && ItemDone(s, s', p) && s'.outputs == s.outputs
    && var w := s.procs[p].worker;
    && s'.store == if look.Ok? && Completes(ReadMeta(s.store, w.item.routingKey), w.n).Some? && set_.Applied()
                   then SetStatus(s.store, w.item.routingKey, BUFFERED) else s.store
  }

  lemma RestEffect(cfg: Config, s: State, p: nat, look: Reply, set_: Reply)
    requires Enabled(s, Worker(p, Look(look))) && s.procs[p].worker.item.Marker?
    ensures var s1 := ApplyWorker(cfg, s, p, Look(look));
      && p < |s1.procs|
      && if s1.procs[p].worker.Completing?
         then Enabled(s1, Worker(p, Complete(set_)))
           && CheckOver(s, ApplyWorker(cfg, s1, p, Complete(set_)), p, look, set_)
         else CheckOver(s, s1, p, look, set_)
  {
    LookEffect(cfg, s, p, look);
    hide SetStatus, ReadMeta, Completes, ApplyWorker;
    var s1 := ApplyWorker(cfg, s, p, Look(look));
    if s1.procs[p].worker.Completing? { CompleteEffect(cfg, s1, p, set_); }
  }

  /** From the draw to the end of the check. */
  lemma RestOfCheck(cfg: Config, run: seq<State>, steps: seq<Step>, p: nat, look: Reply, set_: Reply)
    returns (run': seq<State>, steps': seq<Step>)
    requires IsRun(cfg, run, steps) && run != [] && Enabled(Last(run), Worker(p, Look(look)))
    requires Last(run).procs[p].worker.item.Marker?
    ensures Continues(cfg, run, steps, run', steps') && run' != []
    ensures CheckOver(Last(run), Last(run'), p, look, set_)
  {
    hide IsRun, CheckOver, ApplyWorker, WorkerCan;
    RestEffect(cfg, Last(run), p, look, set_);
    run', steps' := Extend(cfg, run, steps, Worker(p, Look(look)));
    if Last(run').procs[p].worker.Completing? {
      run', steps' := Extend(cfg, run', steps', Worker(p, Complete(set_)));
    }
  }

  /** Draw and rest make the undisturbed check. */
  lemma CheckComposes(cfg: Config, s: State, s': State, p: nat, r: Replies)
    requires Enabled(s, Worker(p, Increment(r.write)))
    requires var s1 := ApplyWorker(cfg, s, p, Increment(r.write));
      if p < |s1.procs| && s1.procs[p].worker.Drawn? then CheckOver(s1, s', p, r.look, r.set_) else s' == s1
    ensures ItemDone(s, s', p) && s'.outputs == s.outputs
    ensures s'.store == CheckAlone(s.store, s.procs[p].worker.item.routingKey, r.write, r.look, r.set_)
  {
    IncrementEffect(cfg, s, p, r.write);
    hide HIncr, SetStatus, ReadMeta, Completes, Counter, CanIncrement, ApplyWorker;
  }

  /** The completion check, run without interruption, is a sequence of machine steps. */
  lemma CheckIsARun(cfg: Config, run: seq<State>, steps: seq<Step>, p: nat, r: Replies)
    returns (run': seq<State>, steps': seq<Step>)
    requires IsRun(cfg, run, steps) && run != [] && Alive(Last(run), p)
    requires Last(run).procs[p].worker.Hand? && Last(run).procs[p].worker.item.Marker?
    ensures Continues(cfg, run, steps, run', steps') && run' != []
    ensures var s, s' := Last(run), Last(run');
      && ItemDone(s, s', p) && s'.outputs == s.outputs
      && s'.store == CheckAlone(s.store, s.procs[p].worker.item.routingKey, r.write, r.look, r.set_)
  {
    IncrementEffect(cfg, Last(run), p, r.write);
    hide ApplyWorker, IsRun, CheckOver, ItemDone, CheckAlone, HIncr, Counter, CanIncrement;
    run', steps' := Extend(cfg, run, steps, Worker(p, Increment(r.write)));
    if Last(run').procs[p].worker.Drawn? {
      run', steps' := RestOfCheck(cfg, run', steps', p, r.look, r.set_);
    }
    CheckComposes(cfg, Last(run), Last(run'), p, r);
  }

  lemma CompleteEffect(cfg: Config, s: State, p: nat, reply: Reply)
    requires Enabled(s, Worker(p, Complete(reply)))
    ensures var s', pr := ApplyWorker(cfg, s, p, Complete(reply)), s.procs[p];
      && s'.group == s.group && s'.stream == s.stream && s'.deadLetters == s.deadLetters
      && s'.owner == s.owner && s'.fate == s.fate
      && s'.outputs == s.outputs
      && s'.store == (if reply.Applied() then SetStatus(s.store, pr.worker.item.routingKey, BUFFERED) else s.store)
      && s'.procs == s.procs[p := FinishItem(pr, reply.Applied())]
  {
    hide SetStatus;
  }
}

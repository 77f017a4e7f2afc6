/** What every reachable state of the cluster satisfies, and that every step keeps it. */
module ClusterInvariant {
  import opened Prelude
  import opened Messages
  import opened Admission
  import opened Controller
  import opened RedisBackend
  import opened RedisBroker
  import opened Dispatcher
  import opened Cluster

  // ---- One process ----

  /** The item between the queue and the handled history. */
  function InHand(worker: WorkerStage): seq<Item> {
    if worker.Resting? || worker.Gone? then [] else [worker.item]
  }

  ghost predicate SrcsBelow(items: seq<Item>, id: int) {
    forall i :: 0 <= i < |items| ==> items[i].src < id
  }

  ghost predicate Owned(stream: seq<Entry>, owner: map<nat, nat>, p: nat, id: nat) {
    id < |stream| && id in owner && owner[id] == p
  }

  /** The entry is work, and `info` is the event data it runs with. */
  ghost predicate RunsWith(cfg: Config, stream: seq<Entry>, id: nat, info: EventInfo) {
    id < |stream| && Prepared(cfg, stream[id]) == Some(info)
  }

  /** A widget opens the block of its request; a marker directly follows the widget of the same request. */
  ghost predicate ItemOk(cfg: Config, stream: seq<Entry>, owner: map<nat, nat>, p: nat, pushed: seq<Item>, i: nat)
    requires i < |pushed|
  {
    var item := pushed[i];
    && Owned(stream, owner, p, item.src)
    && Prepared(cfg, stream[item.src]).Some?
    && var info := Prepared(cfg, stream[item.src]).value;
    && !item.Blank?
    && (item.Widget? ==>
          && item == WidgetOf(cfg.strategyKeys, item.src, info)
          && (i > 0 ==> pushed[i - 1].src < item.src))
    && (item.Marker? ==>
          && item == MarkerOf(item.src, info)
          && WantsCompletion(info)
          && i > 0 && pushed[i - 1].Widget? && pushed[i - 1].src == item.src)
  }

  ghost predicate StageOk(cfg: Config, stream: seq<Entry>, owner: map<nat, nat>, p: nat, pr: Proc) {
    var c := pr.consumer;
    c.InFlight() ==>
      && Owned(stream, owner, p, c.id)
      && (c.Fetched? || c.Burying? ==> SrcsBelow(pr.pushed, c.id))
      && (c.Announcing? ==>
            SrcsBelow(pr.pushed, c.id) && RunsWith(cfg, stream, c.id, c.info) && WantsCompletion(c.info))
      && (c.Pushing? ==> SrcsBelow(pr.pushed, c.id) && RunsWith(cfg, stream, c.id, c.info))
      && (c.Marking? ==>
            && RunsWith(cfg, stream, c.id, c.info) && WantsCompletion(c.info)
            && |pr.pushed| > 0 && pr.pushed[|pr.pushed| - 1] == WidgetOf(cfg.strategyKeys, c.id, c.info))
      && (c.Acking? ==>
            if c.fate.Processed? then
              && |pr.pushed| > 0
              && var last := pr.pushed[|pr.pushed| - 1];
              && last.src == c.id && (c.fate.marker <==> last.Marker?)
            else SrcsBelow(pr.pushed, c.id))
  }

  /** Everything sent was handled, is in the worker's hand, or waits in the queue, in this order. */
  ghost predicate Fifo(pr: Proc) {
    && pr.pushed == pr.handled + InHand(pr.worker) + pr.queue
    && |pr.landed| == |pr.handled|
    && |pr.queue| <= SENDER_QUEUE_CAP
    && (pr.worker.Drawn? || pr.worker.Completing? ==> pr.worker.item.Marker?)
    && (pr.worker.Gone? ==> pr.cancelled)
  }

  ghost predicate ProcInv(cfg: Config, stream: seq<Entry>, owner: map<nat, nat>, p: nat, pr: Proc) {
    && Fifo(pr)
    && (forall i :: 0 <= i < |pr.pushed| ==> ItemOk(cfg, stream, owner, p, pr.pushed, i))
    && StageOk(cfg, stream, owner, p, pr)
  }

  ghost predicate ProcsInv(cfg: Config, s: State) {
    forall p :: 0 <= p < |s.procs| ==> ProcInv(cfg, s.stream, s.owner, p, s.procs[p])
  }

  // ---- The consumer group ----

  ghost predicate Fated(s: State, id: nat) {
    id in s.fate
  }

  ghost predicate HeldBy(pr: Proc, id: nat) {
    pr.consumer.InFlight() && pr.consumer.id == id
  }

  ghost predicate GroupInv(s: State) {
    var g := s.group;
    && GroupOk(g, |s.stream|)
    && (!g.exists_ ==> g.next == 0)
    && g.acked <= s.fate.Keys <= s.owner.Keys
    && (forall id :: id in s.owner ==> g.start <= id < g.next && s.owner[id] < |s.procs|)
    && (forall id :: id in s.owner ==> (Fated(s, id) <==> !HeldBy(s.procs[s.owner[id]], id)))
  }

  ghost predicate PushedFor(pushed: seq<Item>, id: nat) {
    exists i :: 0 <= i < |pushed| && pushed[i].src == id
  }

  ghost predicate MarkedFor(pushed: seq<Item>, id: nat) {
    exists i :: 0 <= i < |pushed| && pushed[i].src == id && pushed[i].Marker?
  }

  /** A finished entry left items behind exactly when it was processed, and a marker exactly when its fate says so. */
  ghost predicate FateInv(s: State) {
    forall id :: id in s.fate && id in s.owner && s.owner[id] < |s.procs| ==>
      FateMatches(s.fate[id], s.procs[s.owner[id]].pushed, id)
  }

  ghost predicate FateMatches(fate: Fate, pushed: seq<Item>, id: nat) {
    && (fate.Processed? <==> PushedFor(pushed, id))
    && (fate.Processed? && fate.marker <==> MarkedFor(pushed, id))
  }

  // ---- Preservation: processes ----

  lemma ProcInvGrows(cfg: Config, stream: seq<Entry>, stream': seq<Entry>, owner: map<nat, nat>, owner': map<nat, nat>,
                     p: nat, pr: Proc)
    requires ProcInv(cfg, stream, owner, p, pr)
    requires stream <= stream' && owner.Keys <= owner'.Keys && forall id :: id in owner ==> owner'[id] == owner[id]
    ensures ProcInv(cfg, stream', owner', p, pr)
  {
    hide Prepared, WidgetOf, WantsCompletion, MarkerOf;
    forall i | 0 <= i < |pr.pushed| ensures ItemOk(cfg, stream', owner', p, pr.pushed, i) {
      assert ItemOk(cfg, stream, owner, p, pr.pushed, i);
    }
  }

  lemma DecisionFacts(cfg: Config, id: nat, e: Entry, now1: int, now2: int, exportSent: bool)
    ensures var c := Decision(cfg, id, e, now1, now2, exportSent);
      && c.InFlight() && c.id == id && !c.Fetched? && !c.Marking?
      && (c.Announcing? ==> Prepared(cfg, e) == Some(c.info) && WantsCompletion(c.info))
      && (c.Pushing? ==> Prepared(cfg, e) == Some(c.info) && !WantsCompletion(c.info))
      && (c.Acking? ==> !c.fate.Processed?)
  {
    match e.Content() {
      case Json(m) => WorkIsRunUnlessTooOld(cfg, now1, now2, m);
      case _ =>
    }
  }

  lemma WidgetShape(keys: set<string>, id: nat, info: EventInfo)
    ensures WidgetOf(keys, id, info).Widget? && WidgetOf(keys, id, info).src == id
    ensures WidgetOf(keys, id, info).routingKey == info.routingKey
  {
  }

  /** Sources never decrease along what a process pushes, and the last one bounds them all. */
  lemma {:induction false} LastSrcIsLargest(cfg: Config, stream: seq<Entry>, owner: map<nat, nat>, p: nat,
                                            pushed: seq<Item>, i: nat, j: nat)
    requires forall k :: 0 <= k < |pushed| ==> ItemOk(cfg, stream, owner, p, pushed, k)
    requires i <= j < |pushed|
    ensures pushed[i].src <= pushed[j].src
    ensures i < j && pushed[i].src == pushed[j].src ==> j == i + 1 && pushed[i].Widget? && pushed[j].Marker?
  {
    hide Prepared, WidgetOf, WantsCompletion;
    if i < j {
      LastSrcIsLargest(cfg, stream, owner, p, pushed, i, j - 1);
      assert ItemOk(cfg, stream, owner, p, pushed, j);
      assert ItemOk(cfg, stream, owner, p, pushed, j - 1);
    }
  }

  /** Sending the widget, or the marker behind it, keeps the process well-formed. */
  lemma SendKeeps(cfg: Config, stream: seq<Entry>, owner: map<nat, nat>, p: nat, pr: Proc, item: Item,
                  next: ConsumerStage)
    requires ProcInv(cfg, stream, owner, p, pr)
    requires |pr.queue| < SENDER_QUEUE_CAP
    requires var c := pr.consumer;
      || (c.Pushing? && item == WidgetOf(cfg.strategyKeys, c.id, c.info)
          && next == if WantsCompletion(c.info) then Marking(c.id, c.info) else Acking(c.id, Processed(false)))
      || (c.Marking? && item == MarkerOf(c.id, c.info) && next == Acking(c.id, Processed(true)))
    ensures ProcInv(cfg, stream, owner, p, Send(pr, item, next))
  {
    hide Prepared, WidgetOf, WantsCompletion;
    var pr' := Send(pr, item, next);
    WidgetShape(cfg.strategyKeys, pr.consumer.id, pr.consumer.info);
    assert pr'.pushed == pr'.handled + InHand(pr'.worker) + pr'.queue;
    forall i | 0 <= i < |pr'.pushed| ensures ItemOk(cfg, stream, owner, p, pr'.pushed, i) {
      if i < |pr.pushed| {
        assert ItemOk(cfg, stream, owner, p, pr.pushed, i);
      }
    }
  }

  /** The process whose consumer moves stays well-formed. */
  lemma ConsumerKeeps(cfg: Config, s: State, p: nat, move: ConsumerMove)
    requires ProcsInv(cfg, s) && Alive(s, p) && ConsumerCan(s, s.procs[p], move) && !move.Read?
    ensures ProcInv(cfg, s.stream, s.owner, p, ConsumerAfter(cfg, s, s.procs[p], move))
  {
    hide ItemOk, Judge, Prepared, WidgetOf, WantsCompletion, Decision;
    var pr := s.procs[p];
    var c := pr.consumer;
    assert ProcInv(cfg, s.stream, s.owner, p, pr);
    match move {
      case Decide(now1, now2, exportSent) =>
        DecisionFacts(cfg, c.id, s.stream[c.id], now1, now2, exportSent);
      case PushWidget =>
        SendKeeps(cfg, s.stream, s.owner, p, pr, WidgetOf(cfg.strategyKeys, c.id, c.info),
                  if WantsCompletion(c.info) then Marking(c.id, c.info) else Acking(c.id, Processed(false)));
      case PushMarker =>
        SendKeeps(cfg, s.stream, s.owner, p, pr, MarkerOf(c.id, c.info), Acking(c.id, Processed(true)));
      case AbandonMarker =>
        WidgetShape(cfg.strategyKeys, c.id, c.info);
      case _ =>
    }
  }

  lemma PushedBelowCursor(cfg: Config, s: State, p: nat)
    requires ProcsInv(cfg, s) && GroupInv(s) && p < |s.procs|
    ensures SrcsBelow(s.procs[p].pushed, s.group.next)
  {
    hide Prepared, WidgetOf, WantsCompletion, HeldBy, StageOk, Fifo;
    var pushed := s.procs[p].pushed;
    assert ProcInv(cfg, s.stream, s.owner, p, s.procs[p]);
    forall i | 0 <= i < |pushed| ensures pushed[i].src < s.group.next {
      assert ItemOk(cfg, s.stream, s.owner, p, pushed, i);
    }
  }

  /** A process that holds a fetched entry younger than everything it pushed is well-formed. */
  lemma FetchingKeeps(cfg: Config, stream: seq<Entry>, owner: map<nat, nat>, p: nat, pr: Proc, id: nat)
    requires ProcInv(cfg, stream, owner, p, pr) && SrcsBelow(pr.pushed, id) && Owned(stream, owner, p, id)
    ensures ProcInv(cfg, stream, owner, p, pr.(consumer := Fetched(id)))
  {
    hide ItemOk;
  }

  lemma ReadEffect(cfg: Config, s: State, p: nat, reply: Reply)
    requires Enabled(s, Consumer(p, Read(reply)))
    ensures var s' := ApplyConsumer(cfg, s, p, Read(reply));
      && s'.stream == s.stream
      && if reply.Ok? && Undelivered(s)
         then s'.owner == s.owner[s.group.next := p] && s'.procs[p] == s.procs[p].(consumer := Fetched(s.group.next))
         else s'.owner == s.owner && s'.procs[p] == s.procs[p]
  {
    hide Decision, WidgetOf, MarkerOf, Send, DeliverNext;
  }

  lemma ReadKeeps(cfg: Config, s: State, p: nat, reply: Reply)
    requires ProcsInv(cfg, s) && GroupInv(s) && Enabled(s, Consumer(p, Read(reply)))
    ensures var s' := ApplyConsumer(cfg, s, p, Read(reply));
      ProcInv(cfg, s'.stream, s'.owner, p, s'.procs[p])
  {
    PushedBelowCursor(cfg, s, p);
    ReadEffect(cfg, s, p, reply);
    assert ProcInv(cfg, s.stream, s.owner, p, s.procs[p]);
    assert s.group.next !in s.owner;
    hide ApplyConsumer, ProcInv, GroupInv, ProcsInv, SrcsBelow;
    var s' := ApplyConsumer(cfg, s, p, Read(reply));
    ProcInvGrows(cfg, s.stream, s'.stream, s.owner, s'.owner, p, s.procs[p]);
    if reply.Ok? && Undelivered(s) {
      FetchingKeeps(cfg, s'.stream, s'.owner, p, s.procs[p], s.group.next);
    }
  }

  /** The process whose worker moves stays well-formed. */
  lemma WorkerKeeps(cfg: Config, s: State, p: nat, move: WorkerMove)
    requires ProcsInv(cfg, s) && Alive(s, p) && WorkerCan(s.procs[p], move)
    ensures ProcInv(cfg, s.stream, s.owner, p, WorkerAfter(cfg, s.store, s.procs[p], move))
  {
    hide ItemOk, StageOk, SinkOf, ReadMeta, Completes, Counter, CanIncrement;
    var pr := s.procs[p];
    var pr' := WorkerAfter(cfg, s.store, pr, move);
    assert ProcInv(cfg, s.stream, s.owner, p, pr);
    assert pr'.handled + InHand(pr'.worker) + pr'.queue == pr.pushed;
    StageIgnoresWorker(cfg, s.stream, s.owner, p, pr, pr');
  }

  lemma StageIgnoresWorker(cfg: Config, stream: seq<Entry>, owner: map<nat, nat>, p: nat, pr: Proc, pr': Proc)
    requires StageOk(cfg, stream, owner, p, pr) && pr'.consumer == pr.consumer && pr'.pushed == pr.pushed
    ensures StageOk(cfg, stream, owner, p, pr')
  {
  }

  lemma NewProcIsFine(cfg: Config, stream: seq<Entry>, owner: map<nat, nat>, p: nat)
    ensures ProcInv(cfg, stream, owner, p, NEW_PROC)
  {
  }

  /** The stream and the owner map only grow, and a step moves at most one process or starts one. */
  ghost predicate Grows(s: State, s': State, p: nat) {
    && s.stream <= s'.stream
    && s.owner.Keys <= s'.owner.Keys && (forall id :: id in s.owner ==> s'.owner[id] == s.owner[id])
    && |s.procs| <= |s'.procs|
    && (forall q :: 0 <= q < |s.procs| && q != p ==> s'.procs[q] == s.procs[q])
    && (forall q :: |s.procs| <= q < |s'.procs| ==> s'.procs[q] == NEW_PROC)
  }

  lemma ProcsGrow(cfg: Config, s: State, s': State, p: nat)
    requires ProcsInv(cfg, s) && Grows(s, s', p)
    requires p < |s.procs| ==> ProcInv(cfg, s'.stream, s'.owner, p, s'.procs[p])
    ensures ProcsInv(cfg, s')
  {
    hide ProcInv;
    forall q | 0 <= q < |s'.procs| ensures ProcInv(cfg, s'.stream, s'.owner, q, s'.procs[q]) {
      if q >= |s.procs| {
        NewProcIsFine(cfg, s'.stream, s'.owner, q);
      } else if q != p {
        assert ProcInv(cfg, s.stream, s.owner, q, s.procs[q]);
        ProcInvGrows(cfg, s.stream, s'.stream, s.owner, s'.owner, q, s.procs[q]);
      }
    }
  }

  lemma FlagsDoNotMatter(cfg: Config, stream: seq<Entry>, owner: map<nat, nat>, p: nat, pr: Proc, pr': Proc)
    requires ProcInv(cfg, stream, owner, p, pr)
    requires pr'.consumer == pr.consumer && pr'.worker == pr.worker && pr'.queue == pr.queue
    requires pr'.pushed == pr.pushed && pr'.handled == pr.handled && pr'.landed == pr.landed
    requires pr.cancelled ==> pr'.cancelled
    ensures ProcInv(cfg, stream, owner, p, pr')
  {
    hide ItemOk;
    StageIgnoresWorker(cfg, stream, owner, p, pr, pr');
  }

  lemma EnvKeeps(cfg: Config, s: State, move: EnvMove)
    requires ProcsInv(cfg, s) && EnvCan(s, move)
    ensures ProcsInv(cfg, ApplyEnv(s, move))
  {
    hide ProcInv;
    var s' := ApplyEnv(s, move);
    var p := if move.Timeout? || move.Cancel? || move.Crash? then move.proc else |s.procs|;
    if p < |s.procs| {
      FlagsDoNotMatter(cfg, s.stream, s.owner, p, s.procs[p], s'.procs[p]);
    }
    ProcsGrow(cfg, s, s', p);
  }

  lemma ConsumerMoves(cfg: Config, s: State, p: nat, move: ConsumerMove)
    requires ProcsInv(cfg, s) && GroupInv(s) && Enabled(s, Consumer(p, move))
    ensures ProcsInv(cfg, ApplyConsumer(cfg, s, p, move))
  {
    hide ProcsInv, ProcInv, ConsumerAfter;
    var s' := ApplyConsumer(cfg, s, p, move);
    if move.Read? { ReadKeeps(cfg, s, p, move.reply); } else { ConsumerKeeps(cfg, s, p, move); }
    ProcsGrow(cfg, s, s', p);
  }

  lemma WorkerMoves(cfg: Config, s: State, p: nat, move: WorkerMove)
    requires ProcsInv(cfg, s) && Enabled(s, Worker(p, move))
    ensures ProcsInv(cfg, ApplyWorker(cfg, s, p, move))
  {
    hide ProcsInv, ProcInv, WorkerAfter, SinkOf;
    WorkerKeeps(cfg, s, p, move);
    ProcsGrow(cfg, s, ApplyWorker(cfg, s, p, move), p);
  }

  // ---- Preservation: the consumer group ----

  ghost predicate SameHold(pr: Proc, pr': Proc) {
    && pr'.consumer.InFlight() == pr.consumer.InFlight()
    && (pr.consumer.InFlight() ==> pr'.consumer.id == pr.consumer.id)
  }

  /** Nothing changes for the group while every process holds what it held. */
  lemma GroupFrame(s: State, s': State)
    requires GroupInv(s)
    requires s'.group == s.group && s'.owner == s.owner && s'.fate == s.fate && s.stream <= s'.stream
    requires |s.procs| <= |s'.procs|
    requires forall p :: 0 <= p < |s.procs| ==> SameHold(s.procs[p], s'.procs[p])
    ensures GroupInv(s')
  {
    forall id | id in s'.owner ensures Fated(s', id) <==> !HeldBy(s'.procs[s'.owner[id]], id) {
      assert Fated(s, id) <==> !HeldBy(s.procs[s.owner[id]], id);
      assert SameHold(s.procs[s.owner[id]], s'.procs[s.owner[id]]);
    }
  }

  /** Only a read and an acknowledgement change what a process holds. */
  lemma MoveHolds(cfg: Config, s: State, pr: Proc, move: ConsumerMove)
    requires ConsumerCan(s, pr, move) && !move.Read? && !move.Ack?
    ensures SameHold(pr, ConsumerAfter(cfg, s, pr, move))
  {
    hide Judge, WidgetOf, WantsCompletion, Prepared;
    if move.Decide? {
      hide Decision;
      DecisionFacts(cfg, pr.consumer.id, s.stream[pr.consumer.id], move.now1, move.now2, move.exportSent);
    }
  }

  lemma EnsureGroupKeeps(cfg: Config, s: State, p: nat, reply: Reply)
    requires GroupInv(s) && Enabled(s, Consumer(p, EnsureGroup(reply)))
    ensures GroupInv(ApplyConsumer(cfg, s, p, EnsureGroup(reply)))
  {
    var s' := ApplyConsumer(cfg, s, p, EnsureGroup(reply));
    if s'.group == s.group {
      GroupFrame(s, s');
    } else {
      assert forall id :: id !in s.owner by { assert forall id :: id in s.owner ==> 0 <= s.group.start <= id < 0; }
    }
  }

  lemma ReadKeepsGroup(cfg: Config, s: State, p: nat, reply: Reply)
    requires GroupInv(s) && Enabled(s, Consumer(p, Read(reply)))
    ensures GroupInv(ApplyConsumer(cfg, s, p, Read(reply)))
  {
    hide Decision, WidgetOf, WantsCompletion, MarkerOf, Send;
    var s' := ApplyConsumer(cfg, s, p, Read(reply));
    if !reply.Ok? || !Undelivered(s) {
      assert s'.procs == s.procs && s'.owner == s.owner;
    }
    forall id | id in s'.owner ensures Fated(s', id) <==> !HeldBy(s'.procs[s'.owner[id]], id) {
      assert id in s.owner ==> (Fated(s, id) <==> !HeldBy(s.procs[s.owner[id]], id));
    }
  }

  lemma InFlightIsOwned(cfg: Config, s: State, p: nat)
    requires ProcsInv(cfg, s) && p < |s.procs| && s.procs[p].consumer.InFlight()
    ensures Owned(s.stream, s.owner, p, s.procs[p].consumer.id)
  {
    hide ItemOk, Fifo;
    assert ProcInv(cfg, s.stream, s.owner, p, s.procs[p]);
  }

  lemma AckKeepsGroup(cfg: Config, s: State, p: nat, reply: Reply)
    requires ProcsInv(cfg, s) && GroupInv(s) && Enabled(s, Consumer(p, Ack(reply)))
    ensures GroupInv(ApplyConsumer(cfg, s, p, Ack(reply)))
  {
    hide ProcsInv, Decision, WidgetOf, WantsCompletion, MarkerOf, Send;
    var s' := ApplyConsumer(cfg, s, p, Ack(reply));
    InFlightIsOwned(cfg, s, p);
    forall id | id in s'.owner ensures Fated(s', id) <==> !HeldBy(s'.procs[s'.owner[id]], id) {
      assert Fated(s, id) <==> !HeldBy(s.procs[s.owner[id]], id);
    }
  }

  lemma GroupKeeps(cfg: Config, s: State, p: nat, move: ConsumerMove)
    requires ProcsInv(cfg, s) && GroupInv(s) && Enabled(s, Consumer(p, move))
    ensures GroupInv(ApplyConsumer(cfg, s, p, move))
  {
    hide GroupInv, ProcsInv, ApplyConsumer;
    match move {
      case EnsureGroup(reply) => EnsureGroupKeeps(cfg, s, p, reply);
      case Read(reply) => ReadKeepsGroup(cfg, s, p, reply);
      case Ack(reply) => AckKeepsGroup(cfg, s, p, reply);
      case _ => QuietKeepsGroup(cfg, s, p, move);
    }
  }

  lemma QuietKeepsGroup(cfg: Config, s: State, p: nat, move: ConsumerMove)
    requires GroupInv(s) && Enabled(s, Consumer(p, move)) && !move.EnsureGroup? && !move.Read? && !move.Ack?
    ensures GroupInv(ApplyConsumer(cfg, s, p, move))
  {
    MoveHolds(cfg, s, s.procs[p], move);
    QuietMove(cfg, s, p, move);
    hide GroupInv, ConsumerAfter, SameHold, ApplyConsumer;
    var s' := ApplyConsumer(cfg, s, p, move);
    forall q | 0 <= q < |s.procs| ensures SameHold(s.procs[q], s'.procs[q]) {
      if q != p { SameHoldIsReflexive(s.procs[q]); }
    }
    GroupFrame(s, s');
  }

  lemma ConsumerProcs(cfg: Config, s: State, p: nat, move: ConsumerMove)
    requires Enabled(s, Consumer(p, move))
    ensures ApplyConsumer(cfg, s, p, move).procs == s.procs[p := ConsumerAfter(cfg, s, s.procs[p], move)]
  {
    hide ConsumerAfter, CreateGroup, DeliverNext, Acknowledge, SetStatus;
  }

  /** The moves that touch neither the group nor the fate of an entry. */
  lemma QuietMove(cfg: Config, s: State, p: nat, move: ConsumerMove)
    requires Enabled(s, Consumer(p, move)) && !move.EnsureGroup? && !move.Read? && !move.Ack?
    ensures var s' := ApplyConsumer(cfg, s, p, move);
      && s'.group == s.group && s'.owner == s.owner && s'.fate == s.fate && s'.stream == s.stream
      && s'.procs == s.procs[p := ConsumerAfter(cfg, s, s.procs[p], move)]
  {
    hide ConsumerAfter, SetStatus;
  }

  lemma SameHoldIsReflexive(pr: Proc)
    ensures SameHold(pr, pr)
  {
  }

  lemma FateFrame(s: State, s': State)
    requires FateInv(s) && s'.fate == s.fate && s.owner.Keys <= s'.owner.Keys
    requires GroupInv(s)
    requires forall id :: id in s.owner ==> s'.owner[id] == s.owner[id]
    requires |s.procs| <= |s'.procs|
    requires forall p :: 0 <= p < |s.procs| ==> s'.procs[p].pushed == s.procs[p].pushed
    ensures FateInv(s')
  {
  }

  lemma PushKeepsFates(cfg: Config, s: State, p: nat, move: ConsumerMove)
    requires ProcsInv(cfg, s) && GroupInv(s) && FateInv(s) && Enabled(s, Consumer(p, move))
    requires move.PushWidget? || move.PushMarker?
    ensures FateInv(ApplyConsumer(cfg, s, p, move))
  {
    hide ItemOk, Fifo, WidgetOf, WantsCompletion, Prepared, PushedFor, MarkedFor;
    var s' := ApplyConsumer(cfg, s, p, move);
    var c := s.procs[p].consumer;
    assert ProcInv(cfg, s.stream, s.owner, p, s.procs[p]);
    WidgetShape(cfg.strategyKeys, c.id, c.info);
    assert HeldBy(s.procs[s.owner[c.id]], c.id);
    SentItem(s.procs[p].pushed, s'.procs[p].pushed[|s.procs[p].pushed|]);
  }

  lemma AckKeepsFates(cfg: Config, s: State, p: nat, reply: Reply)
    requires ProcsInv(cfg, s) && GroupInv(s) && FateInv(s) && Enabled(s, Consumer(p, Ack(reply)))
    ensures FateInv(ApplyConsumer(cfg, s, p, Ack(reply)))
  {
    AckFateMatches(cfg, s, p);
    hide ItemOk, Fifo, FateMatches, StageOk;
    var s' := ApplyConsumer(cfg, s, p, Ack(reply));
    assert ProcInv(cfg, s.stream, s.owner, p, s.procs[p]);
  }

  lemma AckFateMatches(cfg: Config, s: State, p: nat)
    requires ProcsInv(cfg, s) && p < |s.procs| && s.procs[p].consumer.Acking?
    ensures FateMatches(s.procs[p].consumer.fate, s.procs[p].pushed, s.procs[p].consumer.id)
    ensures s.procs[p].consumer.id in s.owner && s.owner[s.procs[p].consumer.id] == p
  {
    hide ItemOk, Fifo;
    var pr, c := s.procs[p], s.procs[p].consumer;
    assert ProcInv(cfg, s.stream, s.owner, p, pr);
    if c.fate.Processed? {
      var last := |pr.pushed| - 1;
      forall i | 0 <= i < |pr.pushed| && pr.pushed[i].src == c.id && pr.pushed[i].Marker? ensures i == last {
        LastSrcIsLargest(cfg, s.stream, s.owner, p, pr.pushed, i, last);
      }
    }
  }

  lemma FateKeeps(cfg: Config, s: State, p: nat, move: ConsumerMove)
    requires ProcsInv(cfg, s) && GroupInv(s) && FateInv(s) && Enabled(s, Consumer(p, move))
    ensures FateInv(ApplyConsumer(cfg, s, p, move))
  {
    match move {
      case PushWidget => PushKeepsFates(cfg, s, p, move);
      case PushMarker => PushKeepsFates(cfg, s, p, move);
      case Ack(reply) => AckKeepsFates(cfg, s, p, reply);
      case _ =>
        hide FateInv, ProcsInv;
        StillMove(cfg, s, p, move);
        FateFrame(s, ApplyConsumer(cfg, s, p, move));
    }
  }

  /** The moves that neither send an item nor settle the fate of an entry. */
  lemma StillMove(cfg: Config, s: State, p: nat, move: ConsumerMove)
    requires GroupInv(s) && Enabled(s, Consumer(p, move)) && !move.PushWidget? && !move.PushMarker? && !move.Ack?
    ensures var s' := ApplyConsumer(cfg, s, p, move);
      && s'.fate == s.fate && s.owner.Keys <= s'.owner.Keys
      && (forall id :: id in s.owner ==> s'.owner[id] == s.owner[id])
      && |s'.procs| == |s.procs|
      && (forall q :: 0 <= q < |s.procs| ==> s'.procs[q].pushed == s.procs[q].pushed)
  {
    hide Decision, WidgetOf, WantsCompletion, MarkerOf, SetStatus;
    assert ConsumerAfter(cfg, s, s.procs[p], move).pushed == s.procs[p].pushed;
    hide ConsumerAfter;
  }

  lemma SentItem(pushed: seq<Item>, item: Item)
    ensures forall id :: PushedFor(pushed + [item], id) <==> PushedFor(pushed, id) || item.src == id
    ensures forall id :: MarkedFor(pushed + [item], id) <==> MarkedFor(pushed, id) || (item.src == id && item.Marker?)
  {
    var longer := pushed + [item];
    assert longer[|pushed|] == item && forall i :: 0 <= i < |pushed| ==> longer[i] == pushed[i];
    forall id ensures PushedFor(longer, id) <==> PushedFor(pushed, id) || item.src == id {
      if PushedFor(pushed, id) {
        var i :| 0 <= i < |pushed| && pushed[i].src == id;
        assert longer[i].src == id;
      }
    }
    forall id ensures MarkedFor(longer, id) <==> MarkedFor(pushed, id) || (item.src == id && item.Marker?) {
      if MarkedFor(pushed, id) {
        var i :| 0 <= i < |pushed| && pushed[i].src == id && pushed[i].Marker?;
        assert longer[i] == pushed[i];
      }
    }
  }
}

/**
 * Any number of dispatcher processes sharing one consumer group and one backend
 * Redis, as a machine over atomic steps. Each process has a consumer goroutine,
 * a bounded sender queue and a worker goroutine (cmd/consumer/main.go:58-83). A
 * step is one Redis command, one channel operation, one purely local decision,
 * or a move of the environment; which step comes next, and how a command ends,
 * is unconstrained.
 */
module Cluster {
  import opened Prelude
  import opened Messages
  import opened Admission
  import opened Controller
  import opened RedisBackend
  import opened RedisBroker
  import opened Dispatcher

  const SENDER_QUEUE_CAP := 1000

  /** How ProcessMessage ended for a delivered entry; `marker` tells whether a completion marker was sent. */
  datatype Fate = Skipped | Forwarded | Processed(marker: bool) | DeadLettered(reason: string)

  /** Where the consumer goroutine stands. An entry is in flight from `Fetched` to `Acking`. */
  datatype ConsumerStage =
    | Boot                                             // before EnsureConsumerGroup
    | Idle                                             // at the head of the read loop
    | Fetched(id: nat)                                 // before decoding and admission
    | Announcing(id: nat, info: EventInfo)             // before the PROCESSING status write
    | Pushing(id: nat, info: EventInfo)                // in the select that sends the widget item
    | Marking(id: nat, info: EventInfo)                // in the select that sends the completion marker
    | Burying(id: nat, reason: string, info: EventInfo) // before the dead-letter XADD
    | Acking(id: nat, fate: Fate)                      // before the XACK
    | Halted                                           // Run returned
  {
    predicate InFlight() { !Boot? && !Idle? && !Halted? }
  }

  /** Where the worker goroutine stands. */
  datatype WorkerStage =
    | Resting                                   // in the select on the queue
    | Hand(item: Item)                          // dequeued, nothing done yet
    | Drawn(item: Item, n: int)                 // HINCRBY returned n, before HGET
    | Completing(item: Item, n: int, total: int) // n reached the total, before SET
    | Gone                                      // Run returned

  /**
   * One process. A restart is a new process, so a crashed one stays as it was.
   * `pushed`, `handled` and `landed` are histories: every item sent, every item
   * fully handled, and whether it had its effect: the write was applied, or the
   * completion check ran to its end.
   */
  datatype Proc = Proc(
    consumer: ConsumerStage, worker: WorkerStage, queue: seq<Item>,
    alive: bool, cancelled: bool, expired: bool,
    pushed: seq<Item>, handled: seq<Item>, landed: seq<bool>)
  {
    /** The select's ctx.Done() case is ready: shutdown or the per-message timeout. */
    predicate ContextDone() { cancelled || expired }
  }

  const NEW_PROC := Proc(Boot, Resting, [], true, false, false, [], [], [])

  datatype DeadRecord = DeadRecord(id: nat, reason: string, info: Option<EventInfo>)

  /** An entry of an output log and the process that wrote it. */
  datatype Out = Out(proc: nat, item: Item)

  /** What took effect on the backend Redis, in the order in which Redis executed it. */
  datatype Op =
    | Announced(rk: string, id: nat)                          // SET status PROCESSING
    | Counted(rk: string, id: nat, n: int)                    // HINCRBY returning n
    | Looked(rk: string, id: nat, n: int, meta: Option<Meta>) // HGET __meta__ by the worker that drew n
    | Buffered(rk: string, id: nat, n: int, total: int)       // SET status BUFFERED
    | Stored(rk: string, id: nat, field: string, message: Outgoing) // HSET of a widget's data
    | Dropped(rk: string)                                     // the buffer hash expired or was deleted

  /** `owner` (which process an entry was handed to), `fate` and `ops` are histories. */
  datatype State = State(
    stream: seq<Entry>, group: Group, deadLetters: seq<DeadRecord>, store: Store,
    outputs: map<Sink, seq<Out>>, procs: seq<Proc>,
    owner: map<nat, nat>, fate: map<nat, Fate>, ops: seq<Op>)

  const INITIAL := State([], NO_GROUP, [], EMPTY_STORE, map[], [], map[], map[], [])

  /** Moves of the environment: the clients, Redis expiry, deployment, clocks and crashes. */
  datatype EnvMove =
    | Append(entry: Entry)
    | SetMeta(rk: string, meta: Meta)
    | ExpireBuffer(rk: string)
    | ExpireStatus(rk: string)
    | Start
    | Timeout(proc: nat)
    | Cancel(proc: nat)
    | Crash(proc: nat)

  /** Moves of a consumer goroutine. */
  datatype ConsumerMove =
    | EnsureGroup(reply: Reply)
    | Read(reply: Reply)
    | Decide(now1: int, now2: int, exportSent: bool)
    | Announce(reply: Reply)
    | PushWidget
    | AbandonWidget
    | PushMarker
    | AbandonMarker
    | Bury(reply: Reply)
    | Ack(reply: Reply)
    | HaltConsumer

  /** Moves of a worker goroutine. */
  datatype WorkerMove =
    | Take
    | Emit(reply: Reply)
    | Increment(reply: Reply)
    | Look(reply: Reply)
    | Complete(reply: Reply)
    | HaltWorker

  datatype Step = Environment(env: EnvMove) | Consumer(p: nat, c: ConsumerMove) | Worker(p: nat, w: WorkerMove)

  predicate Alive(s: State, p: nat) { p < |s.procs| && s.procs[p].alive }

  predicate EnvCan(s: State, move: EnvMove) {
    match move
    case Timeout(p) => Alive(s, p) &&
      (s.procs[p].consumer.Announcing? || s.procs[p].consumer.Pushing? || s.procs[p].consumer.Marking?)
    case Cancel(p) => Alive(s, p)
    case Crash(p) => Alive(s, p)
    case _ => true
  }

  predicate ConsumerCan(s: State, pr: Proc, move: ConsumerMove) {
    match move
    case EnsureGroup(_) => pr.consumer.Boot?
    case Read(_) => pr.consumer.Idle?
    case Decide(_, _, _) => pr.consumer.Fetched? && pr.consumer.id < |s.stream|
    case Announce(_) => pr.consumer.Announcing?
    case PushWidget => pr.consumer.Pushing? && |pr.queue| < SENDER_QUEUE_CAP
    case AbandonWidget => pr.consumer.Pushing? && pr.ContextDone()
    case PushMarker => pr.consumer.Marking? && |pr.queue| < SENDER_QUEUE_CAP
    case AbandonMarker => pr.consumer.Marking? && pr.ContextDone()
    case Bury(_) => pr.consumer.Burying?
    case Ack(_) => pr.consumer.Acking?
    case HaltConsumer => pr.consumer.Idle? && pr.cancelled
  }

  predicate WorkerCan(pr: Proc, move: WorkerMove) {
    match move
    case Take => pr.worker.Resting? && pr.queue != []
    case Emit(_) => pr.worker.Hand? && !pr.worker.item.Marker?
    case Increment(_) => pr.worker.Hand? && pr.worker.item.Marker?
    case Look(_) => pr.worker.Drawn? && pr.worker.item.Marker?
    case Complete(_) => pr.worker.Completing? && pr.worker.item.Marker?
    case HaltWorker => pr.worker.Resting? && pr.cancelled
  }

  predicate Enabled(s: State, step: Step) {
    match step
    case Environment(move) => EnvCan(s, move)
    case Consumer(p, move) => Alive(s, p) && ConsumerCan(s, s.procs[p], move)
    case Worker(p, move) => Alive(s, p) && WorkerCan(s.procs[p], move)
  }

  function Put(s: State, p: nat, pr: Proc): State
    requires p < |s.procs|
  {
    s.(procs := s.procs[p := pr])
  }

  function ApplyEnv(s: State, move: EnvMove): State
    requires EnvCan(s, move)
  {
    match move
    case Append(entry) => s.(stream := s.stream + [entry])
    case SetMeta(rk, meta) => s.(store := HSet(s.store, rk, META_FIELD, MetaText(meta)))
    case ExpireBuffer(rk) => s.(store := DropBuffer(s.store, rk), ops := s.ops + [Dropped(rk)])
    case ExpireStatus(rk) => s.(store := DropStatus(s.store, rk))
    case Start => s.(procs := s.procs + [NEW_PROC])
    case Timeout(p) => Put(s, p, s.procs[p].(expired := true))
    case Cancel(p) => Put(s, p, s.procs[p].(cancelled := true))
    case Crash(p) => Put(s, p, s.procs[p].(alive := false))
  }

  /** The consumer's next stage after decoding and admission. */
  function Decision(cfg: Config, id: nat, e: Entry, now1: int, now2: int, exportSent: bool): ConsumerStage {
    match e.Content()
    case Empty => Acking(id, Skipped)
    case Malformed => Acking(id, Skipped)
    case Json(m) =>
      match Judge(cfg, now1, now2, m)
      case Skip => Acking(id, Skipped)
      case Forward => if exportSent then Acking(id, Forwarded) else Burying(id, EXPORT_SEND_FAILED, m.eventData.value)
      case Reject(reason, info) => Burying(id, reason, info)
      case Admit(info) => if WantsCompletion(info) then Announcing(id, info) else Pushing(id, info)
  }

  function Send(pr: Proc, item: Item, next: ConsumerStage): Proc {
    pr.(consumer := next, queue := pr.queue + [item], pushed := pr.pushed + [item])
  }

  /** The process after a move of its consumer. */
  function ConsumerAfter(cfg: Config, s: State, pr: Proc, move: ConsumerMove): Proc
    requires ConsumerCan(s, pr, move)
  {
    var c := pr.consumer;
    match move
    case EnsureGroup(reply) => pr.(consumer := if reply.Ok? then Idle else Halted)
    case Read(reply) => if reply.Ok? && Undelivered(s) then pr.(consumer := Fetched(s.group.next)) else pr
    case Decide(now1, now2, exportSent) =>
      pr.(consumer := Decision(cfg, c.id, s.stream[c.id], now1, now2, exportSent), expired := false)
    case Announce(_) => pr.(consumer := Pushing(c.id, c.info))
    case PushWidget =>
      Send(pr, WidgetOf(cfg.strategyKeys, c.id, c.info),
           if WantsCompletion(c.info) then Marking(c.id, c.info) else Acking(c.id, Processed(false)))
    case AbandonWidget => pr.(consumer := Burying(c.id, CONTROLLER_ERROR, c.info))
    case PushMarker => Send(pr, MarkerOf(c.id, c.info), Acking(c.id, Processed(true)))
    case AbandonMarker => pr.(consumer := Acking(c.id, Processed(false)))
    case Bury(_) => pr.(consumer := Acking(c.id, DeadLettered(c.reason)))
    case Ack(_) => pr.(consumer := Idle)
    case HaltConsumer => pr.(consumer := Halted)
  }

  predicate Undelivered(s: State) { s.group.exists_ && s.group.next < |s.stream| }

  function ApplyConsumer(cfg: Config, s: State, p: nat, move: ConsumerMove): State
    requires Alive(s, p) && ConsumerCan(s, s.procs[p], move)
  {
    var c := s.procs[p].consumer;
    var s' := Put(s, p, ConsumerAfter(cfg, s, s.procs[p], move));
    match move
    case EnsureGroup(reply) =>
      if reply.Applied() then s'.(group := CreateGroup(s.group, |s.stream|)) else s'
    case Read(reply) =>
      // A lost reply leaves an entry pending that no process has seen.
      if !reply.Applied() || !Undelivered(s) then s'
      else s'.(group := DeliverNext(s.group), owner := if reply.Ok? then s.owner[s.group.next := p] else s.owner)
    case Announce(reply) =>
      if !reply.Applied() then s'
      else s'.(store := SetStatus(s.store, c.info.routingKey, PROCESSING),
               ops := s.ops + [Announced(c.info.routingKey, c.id)])
    case Bury(reply) =>
      if reply.Applied() then s'.(deadLetters := s.deadLetters + [DeadRecord(c.id, c.reason, Some(c.info))]) else s'
    case Ack(reply) =>
      s'.(fate := s.fate[c.id := c.fate],
          group := if reply.Applied() then Acknowledge(s.group, c.id) else s.group)
    case _ => s'
  }

  function FinishItem(pr: Proc, landed: bool): Proc
    requires !pr.worker.Resting? && !pr.worker.Gone?
  {
    pr.(worker := Resting, handled := pr.handled + [pr.worker.item], landed := pr.landed + [landed])
  }

  /** The process after a move of its worker. */
  function WorkerAfter(cfg: Config, store: Store, pr: Proc, move: WorkerMove): Proc
    requires WorkerCan(pr, move)
  {
    var w := pr.worker;
    match move
    case Take => pr.(worker := Hand(pr.queue[0]), queue := pr.queue[1..])
    case Emit(reply) => FinishItem(pr, Written(cfg, w.item, reply))
    case Increment(reply) =>
      if reply.Ok? && CanIncrement(store, w.item.routingKey)
      then pr.(worker := Drawn(w.item, Counter(store, w.item.routingKey) + 1))
      else FinishItem(pr, false)
    case Look(reply) =>
      if !reply.Ok? then FinishItem(pr, false)
      else (match Completes(ReadMeta(store, w.item.routingKey), w.n)
        case Some(total) => pr.(worker := Completing(w.item, w.n, total))
        case None => FinishItem(pr, true))
    case Complete(reply) => FinishItem(pr, reply.Applied())
    case HaltWorker => pr.(worker := Gone)
  }

  function LogOf(outputs: map<Sink, seq<Out>>, sink: Sink): seq<Out> {
    if sink in outputs then outputs[sink] else []
  }

  function ApplyWorker(cfg: Config, s: State, p: nat, move: WorkerMove): State
    requires Alive(s, p) && WorkerCan(s.procs[p], move)
  {
    var w := s.procs[p].worker;
    var s' := Put(s, p, WorkerAfter(cfg, s.store, s.procs[p], move));
    match move
    case Emit(reply) =>
      var sink := SinkOf(cfg, w.item);
      if !Written(cfg, w.item, reply) then s'
      else if sink.Buffer?
      then s'.(store := HSet(s.store, sink.routingKey, sink.field, Payload(w.item.message)),
               ops := s.ops + [Stored(sink.routingKey, w.item.src, sink.field, w.item.message)])
      else s'.(outputs := s.outputs[sink := LogOf(s.outputs, sink) + [Out(p, w.item)]])
    case Increment(reply) =>
      var rk := w.item.routingKey;
      if !reply.Applied() || !CanIncrement(s.store, rk) then s'
      else s'.(store := HIncr(s.store, rk), ops := s.ops + [Counted(rk, w.item.src, Counter(s.store, rk) + 1)])
    case Look(reply) =>
      if !reply.Ok? then s'
      else s'.(ops := s.ops + [Looked(w.item.routingKey, w.item.src, w.n, ReadMeta(s.store, w.item.routingKey))])
    case Complete(reply) =>
      if !reply.Applied() then s'
      else s'.(store := SetStatus(s.store, w.item.routingKey, BUFFERED),
               ops := s.ops + [Buffered(w.item.routingKey, w.item.src, w.n, w.total)])
    case _ => s'
  }

  function Apply(cfg: Config, s: State, step: Step): State
    requires Enabled(s, step)
  {
    match step
    case Environment(move) => ApplyEnv(s, move)
    case Consumer(p, move) => ApplyConsumer(cfg, s, p, move)
    case Worker(p, move) => ApplyWorker(cfg, s, p, move)
  }

  /** `run` is an execution from the initial state, `steps[i]` leading from `run[i]` to `run[i + 1]`. */
  ghost predicate IsRun(cfg: Config, run: seq<State>, steps: seq<Step>) {
    && |run| == |steps| + 1
    && run[0] == INITIAL
    && forall i :: 0 <= i < |steps| ==> Enabled(run[i], steps[i]) && run[i + 1] == Apply(cfg, run[i], steps[i])
  }

  function Last(run: seq<State>): State
    requires run != []
  {
    run[|run| - 1]
  }

  lemma Extend(cfg: Config, run: seq<State>, steps: seq<Step>, step: Step) returns (run': seq<State>, steps': seq<Step>)
    requires IsRun(cfg, run, steps) && Enabled(Last(run), step)
    ensures IsRun(cfg, run', steps')
    ensures run' == run + [Apply(cfg, Last(run), step)] && steps' == steps + [step]
  {
    hide Enabled, Apply;
    run', steps' := run + [Apply(cfg, Last(run), step)], steps + [step];
  }

  lemma Lengths(cfg: Config, run: seq<State>, steps: seq<Step>)
    requires IsRun(cfg, run, steps)
    ensures |run| == |steps| + 1
  {
  }

  /** The longer run starts with the shorter one. */
  ghost predicate Continues(cfg: Config, run: seq<State>, steps: seq<Step>, run': seq<State>, steps': seq<Step>) {
    IsRun(cfg, run', steps') && run <= run' && steps <= steps'
  }
}

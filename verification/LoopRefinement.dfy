/**
 * The two loops as runs of the cluster machine. Each round of the read loop and
 * each turn of the worker's loop, from whatever state it starts in, is a sequence
 * of machine steps of its own goroutine; so is any number of them in a row.
 */
module LoopRefinement {
  import opened Prelude
  import opened Messages
  import opened Controller
  import opened RedisBackend
  import opened RedisBroker
  import opened Dispatcher
  import opened Cluster
  import opened Refinement
  import Code = Consumer

  // ---- One delivered entry ----

  /** The dead-letter records as the machine keeps them. */
  function RecordsOf(buried: seq<Code.DeadLetter>): seq<DeadRecord> {
    if buried == [] then []
    else
      var d := buried[|buried| - 1];
      RecordsOf(buried[..|buried| - 1]) + [DeadRecord(d.id, d.reason, d.message.eventData)]
  }

  lemma {:induction false} RecordsConcat(a: seq<Code.DeadLetter>, b: seq<Code.DeadLetter>)
    ensures RecordsOf(a + b) == RecordsOf(a) + RecordsOf(b)
  {
    if b == [] {
      assert a + b == a;
    } else {
      RecordsConcat(a, b[..|b| - 1]);
      assert (a + b)[..|a + b| - 1] == a + b[..|b| - 1];
    }
  }

  /** How the entry ends: what holds no message is skipped. */
  function EntryFate(cfg: Config, e: Entry, t: Code.Turn): Fate {
    match e.Content()
    case Json(m) => FateOf(cfg, m, t)
    case _ => Skipped
  }

  /** The entry was handled and acknowledged, as the code's outcome describes it, and has its fate. */
  ghost predicate EntryDone(s: State, s': State, p: nat, id: nat, e: Entry, outcome: Code.Outcome, fate: Fate,
                            r: Code.Round) {
    && Beside(s, s', p) && s'.procs[p].consumer.Idle?
    && s'.owner == s.owner && s'.fate == s.fate[id := fate]
    && s'.group == (if r.ack.Applied() then Acknowledge(s.group, id) else s.group)
    && s'.deadLetters == s.deadLetters + RecordsOf(Code.RecordOf(id, e, outcome, r.bury))
    && s'.procs[p].pushed == s.procs[p].pushed + outcome.sent
    && s'.procs[p].queue == s.procs[p].queue + outcome.sent
    && s'.store == outcome.store
  }

  lemma BuryEffect(cfg: Config, s: State, p: nat, reply: Reply)
    requires Alive(s, p) && s.procs[p].consumer.Burying?
    ensures Enabled(s, Consumer(p, Bury(reply)))
    ensures var s', c := ApplyConsumer(cfg, s, p, Bury(reply)), s.procs[p].consumer;
      && Beside(s, s', p) && s'.group == s.group && s'.store == s.store
      && s'.procs[p].pushed == s.procs[p].pushed && s'.procs[p].queue == s.procs[p].queue
      && s'.owner == s.owner && s'.fate == s.fate
      && s'.procs[p].consumer == Acking(c.id, DeadLettered(c.reason))
      && s'.deadLetters == s.deadLetters + if reply.Applied() then [DeadRecord(c.id, c.reason, Some(c.info))] else []
  {
  }

  lemma AckEffect(cfg: Config, s: State, p: nat, reply: Reply)
    requires Alive(s, p) && s.procs[p].consumer.Acking?
    ensures Enabled(s, Consumer(p, Ack(reply)))
    ensures var s' := ApplyConsumer(cfg, s, p, Ack(reply));
      && Beside(s, s', p) && s'.store == s.store && s'.deadLetters == s.deadLetters && s'.procs[p].consumer.Idle?
      && s'.owner == s.owner && s'.fate == s.fate[s.procs[p].consumer.id := s.procs[p].consumer.fate]
      && s'.procs[p].pushed == s.procs[p].pushed && s'.procs[p].queue == s.procs[p].queue
      && s'.group == if reply.Applied() then Acknowledge(s.group, s.procs[p].consumer.id) else s.group
  {
    hide Acknowledge;
  }

  lemma BesideTrans(s: State, s': State, s'': State, p: nat)
    requires Beside(s, s', p) && Beside(s', s'', p)
    ensures Beside(s, s'', p)
  {
  }

  /** From ProcessMessage's verdict to the acknowledgement. */
  lemma SettleIsARun(cfg: Config, run: seq<State>, steps: seq<Step>, s: State, p: nat, id: nat, m: Incoming,
                     e: Entry, outcome: Code.Outcome, fate: Fate, r: Code.Round)
    returns (run': seq<State>, steps': seq<Step>)
    requires IsRun(cfg, run, steps) && run != [] && Alive(s, p) && After(s, Last(run), p, id, outcome, fate)
    requires e.Content() == Json(m)
    ensures Continues(cfg, run, steps, run', steps') && run' != []
    ensures EntryDone(s, Last(run'), p, id, e, outcome, fate, r)
  {
    Lengths(cfg, run, steps);
    hide IsRun, ApplyConsumer, Enabled, Beside, Acknowledge, RecordsOf;
    run', steps' := run, steps;
    if !outcome.ack {
      BuryEffect(cfg, Last(run), p, r.bury);
      run', steps' := Extend(cfg, run, steps, Consumer(p, Bury(r.bury)));
      BesideTrans(s, Last(run), Last(run'), p);
      OneRecord(id, m, outcome, r.bury);
    } else {
      NoRecord();
    }
    var judged := Last(run');
    BesideIsAlive(s, judged, p);
    AckEffect(cfg, judged, p, r.ack);
    run', steps' := Extend(cfg, run', steps', Consumer(p, Ack(r.ack)));
    BesideTrans(s, judged, Last(run'), p);
  }

  lemma BesideIsAlive(s: State, s': State, p: nat)
    requires Beside(s, s', p) && Alive(s, p)
    ensures Alive(s', p)
  {
  }

  lemma NoRecord()
    ensures RecordsOf([]) == []
  {
  }

  lemma OneRecord(id: nat, m: Incoming, outcome: Code.Outcome, bury: Reply)
    ensures RecordsOf([Code.DeadLetter(m.(eventData := outcome.info), outcome.reason, id)])
         == [DeadRecord(id, outcome.reason, outcome.info)]
    ensures RecordsOf([]) == []
  {
    var d := Code.DeadLetter(m.(eventData := outcome.info), outcome.reason, id);
    assert [d][..0] == [];
  }

  /** Every delivered entry is handled by a sequence of machine steps of its process. */
  lemma HandleEntryIsARun(cfg: Config, run: seq<State>, steps: seq<Step>, p: nat, r: Code.Round)
    returns (run': seq<State>, steps': seq<Step>)
    requires IsRun(cfg, run, steps) && run != [] && Alive(Last(run), p)
    requires Last(run).procs[p].consumer.Fetched? && Last(run).procs[p].consumer.id < |Last(run).stream|
    requires var s := Last(run);
      var id := s.procs[p].consumer.id;
      HasRoom(s, p, Code.EntryOutcome(cfg, s.store, id, s.stream[id], r.turn).sent)
    ensures Continues(cfg, run, steps, run', steps') && run' != []
    ensures var s := Last(run);
      var id := s.procs[p].consumer.id;
      EntryDone(s, Last(run'), p, id, s.stream[id], Code.EntryOutcome(cfg, s.store, id, s.stream[id], r.turn),
                EntryFate(cfg, s.stream[id], r.turn), r)
  {
    Lengths(cfg, run, steps);
    hide IsRun, ApplyConsumer, Enabled, Acknowledge, After, EntryDone, Code.OutcomeOf, Decision, FateOf, Beside;
    var s := Last(run);
    var id := s.procs[p].consumer.id;
    match s.stream[id].Content() {
      case Json(m) =>
        run', steps' := ProcessMessageIsARun(cfg, run, steps, p, m, r.turn);
        var outcome := Code.OutcomeOf(cfg, s.store, id, m, r.turn);
        var fate := FateOf(cfg, m, r.turn);
        AfterIsAlive(s, Last(run'), p, id, outcome, fate);
        run', steps' := SettleIsARun(cfg, run', steps', s, p, id, m, s.stream[id], outcome, fate, r);
      case _ =>
        run', steps' := SkipIsARun(cfg, run, steps, p, r);
    }
  }

  lemma SkipIsARun(cfg: Config, run: seq<State>, steps: seq<Step>, p: nat, r: Code.Round)
    returns (run': seq<State>, steps': seq<Step>)
    requires IsRun(cfg, run, steps) && run != [] && Alive(Last(run), p)
    requires Last(run).procs[p].consumer.Fetched? && Last(run).procs[p].consumer.id < |Last(run).stream|
    requires !Last(run).stream[Last(run).procs[p].consumer.id].Content().Json?
    ensures Continues(cfg, run, steps, run', steps') && run' != []
    ensures var s := Last(run);
      var id := s.procs[p].consumer.id;
      EntryDone(s, Last(run'), p, id, s.stream[id], Code.EntryOutcome(cfg, s.store, id, s.stream[id], r.turn),
                EntryFate(cfg, s.stream[id], r.turn), r)
  {
    hide IsRun, ApplyConsumer, Enabled, Acknowledge, EntryDone, Code.EntryOutcome, EntryFate, Decision;
    var s := Last(run);
    DecideEffect(cfg, s, p, r.turn);
    run', steps' := Extend(cfg, run, steps, Consumer(p, Decide(r.turn.now1, r.turn.now2, r.turn.exportSent)));
    var decided := Last(run');
    SkipEffect(cfg, s, decided, p, r);
    AckEffect(cfg, decided, p, r.ack);
    run', steps' := Extend(cfg, run', steps', Consumer(p, Ack(r.ack)));
    SkipDone(cfg, s, decided, Last(run'), p, r);
  }

  lemma AfterIsAlive(s: State, s': State, p: nat, id: nat, outcome: Code.Outcome, fate: Fate)
    requires Alive(s, p) && After(s, s', p, id, outcome, fate)
    ensures Alive(s', p)
  {
  }

  /** What holds no message is skipped. */
  lemma SkipEffect(cfg: Config, s: State, s': State, p: nat, r: Code.Round)
    requires Alive(s, p) && s.procs[p].consumer.Fetched? && s.procs[p].consumer.id < |s.stream|
    requires !s.stream[s.procs[p].consumer.id].Content().Json? && Quiet(s, s', p)
    requires s'.procs[p].consumer == Decision(cfg, s.procs[p].consumer.id, s.stream[s.procs[p].consumer.id],
                                              r.turn.now1, r.turn.now2, r.turn.exportSent)
    ensures Alive(s', p) && s'.procs[p].consumer == Acking(s.procs[p].consumer.id, Skipped)
  {
  }

  lemma SkipDone(cfg: Config, s: State, decided: State, s': State, p: nat, r: Code.Round)
    requires p < |s.procs| && s.procs[p].consumer.Fetched? && s.procs[p].consumer.id < |s.stream|
    requires !s.stream[s.procs[p].consumer.id].Content().Json?
    requires Quiet(s, decided, p) && decided.store == s.store
    requires Beside(decided, s', p) && s'.store == decided.store && s'.deadLetters == decided.deadLetters
    requires s'.procs[p].consumer.Idle?
    requires s'.owner == decided.owner && s'.fate == decided.fate[s.procs[p].consumer.id := Skipped]
    requires s'.procs[p].pushed == decided.procs[p].pushed && s'.procs[p].queue == decided.procs[p].queue
    requires s'.group == if r.ack.Applied() then Acknowledge(decided.group, s.procs[p].consumer.id) else decided.group
    ensures var id := s.procs[p].consumer.id;
      EntryDone(s, s', p, id, s.stream[id], Code.EntryOutcome(cfg, s.store, id, s.stream[id], r.turn),
                EntryFate(cfg, s.stream[id], r.turn), r)
  {
    hide Acknowledge;
  }

  // ---- The read loop ----

  /** The consumer of `p` is at stage `c`, where the code is in session `l`. */
  ghost predicate StandsAt(s: State, p: nat, l: Code.Session, c: ConsumerStage) {
    && Alive(s, p) && s.procs[p].consumer == c
    && s.stream == l.input && s.group == l.group && s.store == l.trace.store
    && s.deadLetters == RecordsOf(l.trace.buried)
    && s.procs[p].pushed == l.trace.sent
  }

  /** The consumer of `p` is at the head of its read loop. */
  ghost predicate Stands(s: State, p: nat, l: Code.Session) {
    StandsAt(s, p, l, Idle)
  }

  /** Only the consumer of `p` worked: its queue grew by what it sent, its worker and every other process rested. */
  ghost predicate OnlyConsumer(s: State, s': State, p: nat) {
    && p < |s.procs| && OthersRest(s, s', p) && s'.outputs == s.outputs && s'.procs[p].alive == s.procs[p].alive
    && s'.procs[p].worker == s.procs[p].worker && s'.procs[p].handled == s.procs[p].handled
    && s.procs[p].pushed <= s'.procs[p].pushed
    && s'.procs[p].queue == s.procs[p].queue + s'.procs[p].pushed[|s.procs[p].pushed|..]
  }

  lemma OnlyConsumerTrans(s: State, s': State, s'': State, p: nat)
    requires OnlyConsumer(s, s', p) && OnlyConsumer(s', s'', p)
    ensures OnlyConsumer(s, s'', p)
  {
    var a, b, c := s.procs[p].pushed, s'.procs[p].pushed, s''.procs[p].pushed;
    assert c[|a|..] == b[|a|..] + c[|b|..];
  }

  /** The clients append. */
  lemma {:induction false} ArrivalsAreARun(cfg: Config, run: seq<State>, steps: seq<Step>, entries: seq<Entry>)
    returns (run': seq<State>, steps': seq<Step>)
    requires IsRun(cfg, run, steps) && run != []
    ensures Continues(cfg, run, steps, run', steps') && run' != []
    ensures Last(run') == Last(run).(stream := Last(run).stream + entries)
    decreases |entries|
  {
    if entries == [] {
      run', steps' := run, steps;
      assert Last(run).stream + entries == Last(run).stream;
    } else {
      hide IsRun;
      run', steps' := Extend(cfg, run, steps, Environment(Append(entries[0])));
      assert Last(run).stream + [entries[0]] + entries[1..] == Last(run).stream + entries;
      run', steps' := ArrivalsAreARun(cfg, run', steps', entries[1..]);
    }
  }

  /** How many items the rounds from one session to a later one send. */
  function SentBetween(l: Code.Session, l': Code.Session): int {
    |l'.trace.sent| - |l.trace.sent|
  }

  /** The entry that the round hands to the consumer, if any: the one at the cursor. */
  function EntryRead(l: Code.Session, r: Code.Round): Option<(nat, Entry)> {
    var input := l.input + r.arrivals;
    if r.read.Ok? && l.group.exists_ && l.group.next < |input| then Some((l.group.next, input[l.group.next])) else None
  }

  /** The histories after the round: `p` owns the entry it read, and the entry has its fate. */
  ghost predicate RoundBooked(cfg: Config, s: State, s': State, p: nat, l: Code.Session, r: Code.Round) {
    match EntryRead(l, r)
    case Some((id, e)) =>
      s'.owner == s.owner[id := p] && s'.fate == s.fate[id := EntryFate(cfg, e, r.turn)]
    case None => s'.owner == s.owner && s'.fate == s.fate
  }

  /** One round of the read loop is a sequence of machine steps. */
  lemma RoundIsARun(cfg: Config, run: seq<State>, steps: seq<Step>, p: nat, l: Code.Session, r: Code.Round)
    returns (run': seq<State>, steps': seq<Step>)
    requires IsRun(cfg, run, steps) && run != [] && Stands(Last(run), p, l)
    requires |Last(run).procs[p].queue| + SentBetween(l, Code.AfterRound(cfg, l, r)) <= SENDER_QUEUE_CAP
    ensures Continues(cfg, run, steps, run', steps') && run' != []
    ensures Stands(Last(run'), p, Code.AfterRound(cfg, l, r)) && OnlyConsumer(Last(run), Last(run'), p)
    ensures RoundBooked(cfg, Last(run), Last(run'), p, l, r)
  {
    hide IsRun, ApplyConsumer, Enabled, Code.EntryOutcome, Acknowledge, EntryDone, RecordsOf, EntryFate;
    run', steps' := ArrivalsAreARun(cfg, run, steps, r.arrivals);
    var s := Last(run');
    ReadOutcome(cfg, s, p, r.read);
    run', steps' := Extend(cfg, run', steps', Consumer(p, Read(r.read)));
    var s1 := Last(run');
    if r.read.Ok? && Undelivered(s) {
      var id := s.group.next;
      var outcome := Code.EntryOutcome(cfg, s.store, id, s.stream[id], r.turn);
      run', steps' := HandleEntryIsARun(cfg, run', steps', p, r);
      EntryStands(cfg, s1, Last(run'), p, l, id, r);
    }
  }

  lemma ReadOutcome(cfg: Config, s: State, p: nat, reply: Reply)
    requires Alive(s, p) && s.procs[p].consumer.Idle?
    ensures Enabled(s, Consumer(p, Read(reply)))
    ensures var s' := ApplyConsumer(cfg, s, p, Read(reply));
      && Beside(s, s', p) && s'.store == s.store && s'.deadLetters == s.deadLetters
      && s'.procs[p].pushed == s.procs[p].pushed && s'.procs[p].queue == s.procs[p].queue
      && s'.fate == s.fate
      && s'.owner == (if reply.Ok? && Undelivered(s) then s.owner[s.group.next := p] else s.owner)
      && s'.group == (if reply.Applied() && Undelivered(s) then DeliverNext(s.group) else s.group)
      && s'.procs[p].consumer == (if reply.Ok? && Undelivered(s) then Fetched(s.group.next) else s.procs[p].consumer)
  {
    hide DeliverNext, Decision, WidgetOf, MarkerOf, Send, SetStatus, CreateGroup, Acknowledge;
  }

  /** The end of a round in which entry `id` was handled. */
  lemma EntryStands(cfg: Config, s: State, s': State, p: nat, l: Code.Session, id: nat, r: Code.Round)
    requires Alive(s, p) && id < |s.stream|
    requires s.store == l.trace.store && s.deadLetters == RecordsOf(l.trace.buried) && s.procs[p].pushed == l.trace.sent
    requires EntryDone(s, s', p, id, s.stream[id], Code.EntryOutcome(cfg, s.store, id, s.stream[id], r.turn),
                       EntryFate(cfg, s.stream[id], r.turn), r)
    ensures var trace := Code.Extended(cfg, l.trace, id, s.stream[id], r);
      && Stands(s', p, Code.Session(s.stream, if r.ack.Applied() then Acknowledge(s.group, id) else s.group, trace))
    ensures OnlyConsumer(s, s', p)
    ensures s'.owner == s.owner && s'.fate == s.fate[id := EntryFate(cfg, s.stream[id], r.turn)]
  {
    hide Acknowledge, Code.EntryOutcome, RecordsOf, EntryFate;
    var outcome := Code.EntryOutcome(cfg, s.store, id, s.stream[id], r.turn);
    RecordsConcat(l.trace.buried, Code.RecordOf(id, s.stream[id], outcome, r.bury));
  }

  /** Sending is never undone. */
  lemma SentGrows(cfg: Config, l: Code.Session, r: Code.Round)
    ensures l.trace.sent <= Code.AfterRound(cfg, l, r).trace.sent
  {
    hide Code.EntryOutcome, Code.RecordOf, Acknowledge, DeliverNext;
  }

  lemma {:induction false} SentGrowsAlong(cfg: Config, l: Code.Session, rounds: seq<Code.Round>)
    ensures l.trace.sent <= Code.AfterRounds(cfg, l, rounds).trace.sent
    decreases |rounds|
  {
    hide Code.AfterRound;
    if rounds != [] && !rounds[0].cancelled {
      SentGrows(cfg, l, rounds[0]);
      SentGrowsAlong(cfg, Code.AfterRound(cfg, l, rounds[0]), rounds[1..]);
    }
  }

  /** So is any number of rounds, as far as the queue has room for what they send. */
  lemma {:induction false} RoundsAreARun(cfg: Config, run: seq<State>, steps: seq<Step>, p: nat, l: Code.Session,
                                         rounds: seq<Code.Round>)
    returns (run': seq<State>, steps': seq<Step>)
    requires IsRun(cfg, run, steps) && run != [] && Stands(Last(run), p, l)
    requires |Last(run).procs[p].queue| + SentBetween(l, Code.AfterRounds(cfg, l, rounds)) <= SENDER_QUEUE_CAP
    ensures Continues(cfg, run, steps, run', steps') && run' != []
    ensures Stands(Last(run'), p, Code.AfterRounds(cfg, l, rounds)) && OnlyConsumer(Last(run), Last(run'), p)
    decreases |rounds|
  {
    hide IsRun, Code.AfterRound;
    if rounds == [] || rounds[0].cancelled {
      run', steps' := run, steps;
    } else {
      var next := Code.AfterRound(cfg, l, rounds[0]);
      SentGrows(cfg, l, rounds[0]);
      SentGrowsAlong(cfg, next, rounds[1..]);
      run', steps' := RoundIsARun(cfg, run, steps, p, l, rounds[0]);
      var between := Last(run');
      run', steps' := RoundsAreARun(cfg, run', steps', p, next, rounds[1..]);
      OnlyConsumerTrans(Last(run), between, Last(run'), p);
    }
  }

  /**
   * Consumer.Run, from the creation of the group to the last round, is a run of
   * the machine: same stream and group, same items sent and records buried, same
   * statuses. What is proved of every run holds of the code.
   */
  lemma RunIsARun(cfg: Config, run: seq<State>, steps: seq<Step>, p: nat, l: Code.Session, start: Reply,
                  rounds: seq<Code.Round>)
    returns (run': seq<State>, steps': seq<Step>)
    requires IsRun(cfg, run, steps) && run != [] && StandsAt(Last(run), p, l, Boot)
    requires |Last(run).procs[p].queue| + SentBetween(l, Code.AfterRun(cfg, l, start, rounds)) <= SENDER_QUEUE_CAP
    ensures Continues(cfg, run, steps, run', steps') && run' != []
    ensures StandsAt(Last(run'), p, Code.AfterRun(cfg, l, start, rounds), if start.Ok? then Idle else Halted)
    ensures OnlyConsumer(Last(run), Last(run'), p)
  {
    hide IsRun;
    run', steps' := Extend(cfg, run, steps, Consumer(p, EnsureGroup(start)));
    var started := Last(run');
    if start.Ok? {
      hide ApplyConsumer, Enabled;
      run', steps' := RoundsAreARun(cfg, run', steps', p, l.(group := started.group), rounds);
      OnlyConsumerTrans(Last(run), started, Last(run'), p);
    }
  }

  // ---- The worker's loop ----

  /** The entries that items of process `p` make in a log. */
  function OutsOf(p: nat, items: seq<Item>): (r: seq<Out>)
    ensures |r| == |items| && forall i :: 0 <= i < |items| ==> r[i] == Out(p, items[i])
  {
    seq(|items|, i requires 0 <= i < |items| => Out(p, items[i]))
  }

  /** The worker of `p` handled the first `n` items of its queue, as the code does one after the other. */
  ghost predicate Handled(cfg: Config, s: State, s': State, p: nat, replies: seq<Replies>, n: nat) {
    && p < |s.procs| && OthersRest(s, s', p) && n <= |s.procs[p].queue| && n <= |replies|
    && s'.group == s.group && s'.stream == s.stream && s'.deadLetters == s.deadLetters
    && s'.owner == s.owner && s'.fate == s.fate
    && var pr, pr' := s.procs[p], s'.procs[p];
    && pr'.worker.Resting? && pr'.alive == pr.alive && pr'.pushed == pr.pushed && pr'.consumer == pr.consumer
    && pr'.handled == pr.handled + pr.queue[..n] && pr'.queue == pr.queue[n..]
    && s'.store == StoreAfterAll(cfg, s.store, pr.queue, replies, n)
    && forall sink :: IsLog(sink) ==>
         LogOf(s'.outputs, sink) == LogOf(s.outputs, sink) + OutsOf(p, Added(cfg, pr.queue, replies, n, sink))
  }

  /** One turn of the worker's loop is a sequence of machine steps. */
  lemma TurnIsARun(cfg: Config, run: seq<State>, steps: seq<Step>, p: nat, r: Replies)
    returns (run': seq<State>, steps': seq<Step>)
    requires IsRun(cfg, run, steps) && run != [] && Alive(Last(run), p)
    requires Last(run).procs[p].worker.Resting? && Last(run).procs[p].queue != []
    ensures Continues(cfg, run, steps, run', steps') && run' != []
    ensures var s, s' := Last(run), Last(run');
      var pr := s.procs[p];
      && ItemDone(s.(procs := s.procs[p := pr.(worker := Hand(pr.queue[0]), queue := pr.queue[1..])]), s', p)
      && s'.store == StoreAfter(cfg, s.store, pr.queue[0], r)
      && forall sink :: IsLog(sink) ==>
           LogOf(s'.outputs, sink) == LogOf(s.outputs, sink) +
             if Written(cfg, pr.queue[0], r.write) && SinkOf(cfg, pr.queue[0]) == sink
             then [Out(p, pr.queue[0])] else []
  {
    hide IsRun, SinkOf, Written, StoreAfter, ItemDone, LogOf, IsLog;
    run', steps' := Extend(cfg, run, steps, Worker(p, Take));
    hide ApplyWorker, Enabled;
    run', steps' := HandleItemIsARun(cfg, run', steps', p, r);
  }

  /** One more item after `n`. */
  lemma HandledNext(cfg: Config, s: State, m: State, s': State, p: nat, replies: seq<Replies>, n: nat)
    requires Handled(cfg, s, m, p, replies, n) && n < |s.procs[p].queue| && n < |replies| && m.procs[p].queue != []
    requires var pr := m.procs[p];
      && ItemDone(m.(procs := m.procs[p := pr.(worker := Hand(pr.queue[0]), queue := pr.queue[1..])]), s', p)
      && s'.store == StoreAfter(cfg, m.store, pr.queue[0], replies[n])
      && forall sink :: IsLog(sink) ==>
           LogOf(s'.outputs, sink) == LogOf(m.outputs, sink) +
             if Written(cfg, pr.queue[0], replies[n].write) && SinkOf(cfg, pr.queue[0]) == sink
             then [Out(p, pr.queue[0])] else []
    ensures Handled(cfg, s, s', p, replies, n + 1)
  {
    hide SinkOf, Written, StoreAfter, IsLog, LogOf, Added;
    var queue := s.procs[p].queue;
    assert m.procs[p].queue[0] == queue[n];
    assert queue[..n + 1] == queue[..n] + [queue[n]];
    forall sink | IsLog(sink)
      ensures LogOf(s'.outputs, sink) == LogOf(s.outputs, sink) + OutsOf(p, Added(cfg, queue, replies, n + 1, sink))
    {
      AddedGrows(cfg, queue, replies, n, sink);
    }
  }

  /** So is draining the first `n` items of the queue, and the code's store and logs are the machine's. */
  lemma {:induction false} DrainIsARun(cfg: Config, run: seq<State>, steps: seq<Step>, p: nat, replies: seq<Replies>,
                                       n: nat)
    returns (run': seq<State>, steps': seq<Step>)
    requires IsRun(cfg, run, steps) && run != [] && Alive(Last(run), p) && Last(run).procs[p].worker.Resting?
    requires n <= |Last(run).procs[p].queue| && n <= |replies|
    ensures Continues(cfg, run, steps, run', steps') && run' != []
    ensures Handled(cfg, Last(run), Last(run'), p, replies, n)
  {
    hide IsRun, SinkOf, Written, StoreAfter, IsLog, LogOf;
    if n == 0 {
      run', steps' := run, steps;
      HandledNone(cfg, Last(run), p, replies);
    } else {
      run', steps' := DrainIsARun(cfg, run, steps, p, replies, n - 1);
      var m := Last(run');
      hide StoreAfterAll, Added, ItemDone;
      run', steps' := TurnIsARun(cfg, run', steps', p, replies[n - 1]);
      HandledNext(cfg, Last(run), m, Last(run'), p, replies, n - 1);
    }
  }

  lemma HandledNone(cfg: Config, s: State, p: nat, replies: seq<Replies>)
    requires p < |s.procs| && s.procs[p].worker.Resting?
    ensures Handled(cfg, s, s, p, replies, 0)
  {
    hide SinkOf, IsLog, Added;
    forall sink ensures Added(cfg, s.procs[p].queue, replies, 0, sink) == [] {
      AddedNone(cfg, s.procs[p].queue, replies, sink);
    }
    assert s.procs[p].queue[..0] == [] && s.procs[p].queue[0..] == s.procs[p].queue;
  }

  // ---- Both loops of a process ----

  /** A round of the read loop, or a turn of the worker's loop. */
  datatype Work = Consume(round: Code.Round) | Handle(replies: Replies)

  /** The code of one process: the session of its read loop, and the belt of its worker. */
  datatype Office = Office(session: Code.Session, belt: Belt)

  /** What was sent after `l`, up to `l'`. */
  function NewlySent(l: Code.Session, l': Code.Session): seq<Item> {
    if |l.trace.sent| <= |l'.trace.sent| then l'.trace.sent[|l.trace.sent|..] else []
  }

  /** A round puts what it sends on the belt; a turn takes one item from it and acts on the same backend. */
  function AfterWork(cfg: Config, o: Office, w: Work): Office {
    match w
    case Consume(r) =>
      var session := Code.AfterRound(cfg, o.session, r);
      Office(session, o.belt.(queue := o.belt.queue + NewlySent(o.session, session)))
    case Handle(replies) =>
      if o.belt.queue == [] then o
      else
        var trace := o.session.trace;
        Office(o.session.(trace := trace.(store := StoreAfter(cfg, trace.store, o.belt.queue[0], replies))),
               AfterTurn(o.belt, WorkerTurn([], replies)))
  }

  function AfterWorks(cfg: Config, o: Office, works: seq<Work>): Office
    decreases |works|
  {
    if works == [] then o else AfterWorks(cfg, AfterWork(cfg, o, works[0]), works[1..])
  }

  /** No round sends more than the belt has room for at its time. */
  ghost predicate Fits(cfg: Config, o: Office, works: seq<Work>)
    decreases |works|
  {
    works == [] ||
    (|AfterWork(cfg, o, works[0]).belt.queue| <= SENDER_QUEUE_CAP && Fits(cfg, AfterWork(cfg, o, works[0]), works[1..]))
  }

  /** The output logs grew, since they were `logs`, by what the belt handled. */
  ghost predicate Logged(cfg: Config, s: State, p: nat, b: Belt, logs: map<Sink, seq<Out>>) {
    && |b.used| == |b.handled|
    && forall sink :: IsLog(sink) ==>
         LogOf(s.outputs, sink) == LogOf(logs, sink) + OutsOf(p, Added(cfg, b.handled, b.used, |b.handled|, sink))
  }

  /**
   * The process `p` is where its code is, between two rounds and between two turns;
   * `before` and `logs` are what it found.
   */
  ghost predicate Houses(cfg: Config, s: State, p: nat, o: Office, before: seq<Item>, logs: map<Sink, seq<Out>>) {
    && Stands(s, p, o.session) && s.procs[p].worker.Resting?
    && s.procs[p].queue == o.belt.queue && s.procs[p].handled == before + o.belt.handled
    && Logged(cfg, s, p, o.belt, logs)
  }

  lemma ConsumeIsARun(cfg: Config, run: seq<State>, steps: seq<Step>, p: nat, o: Office, before: seq<Item>,
                      logs: map<Sink, seq<Out>>, r: Code.Round)
    returns (run': seq<State>, steps': seq<Step>)
    requires IsRun(cfg, run, steps) && run != [] && Houses(cfg, Last(run), p, o, before, logs)
    requires |AfterWork(cfg, o, Consume(r)).belt.queue| <= SENDER_QUEUE_CAP
    ensures Continues(cfg, run, steps, run', steps') && run' != []
    ensures Houses(cfg, Last(run'), p, AfterWork(cfg, o, Consume(r)), before, logs)
    ensures OthersRest(Last(run), Last(run'), p)
  {
    hide IsRun, Code.AfterRound, RoundBooked;
    SentGrows(cfg, o.session, r);
    run', steps' := RoundIsARun(cfg, run, steps, p, o.session, r);
    LoggedStays(cfg, Last(run), Last(run'), p, o.belt, AfterWork(cfg, o, Consume(r)).belt, logs);
  }

  lemma LoggedStays(cfg: Config, s: State, s': State, p: nat, b: Belt, b': Belt, logs: map<Sink, seq<Out>>)
    requires Logged(cfg, s, p, b, logs) && s'.outputs == s.outputs && b'.handled == b.handled && b'.used == b.used
    ensures Logged(cfg, s', p, b', logs)
  {
  }

  lemma LoggedNext(cfg: Config, s: State, s': State, p: nat, b: Belt, logs: map<Sink, seq<Out>>, item: Item, r: Replies,
                   b': Belt)
    requires Logged(cfg, s, p, b, logs) && b'.handled == b.handled + [item] && b'.used == b.used + [r]
    requires forall sink :: IsLog(sink) ==>
      LogOf(s'.outputs, sink) == LogOf(s.outputs, sink) +
        if Written(cfg, item, r.write) && SinkOf(cfg, item) == sink then [Out(p, item)] else []
    ensures Logged(cfg, s', p, b', logs)
  {
    hide IsLog, LogOf, Written, SinkOf, Added;
    forall sink | IsLog(sink)
      ensures LogOf(s'.outputs, sink) ==
        LogOf(logs, sink) + OutsOf(p, Added(cfg, b'.handled, b'.used, |b'.handled|, sink))
    {
      AddedNext(cfg, b.handled, b.used, item, r, sink);
    }
  }

  lemma HandleIsARun(cfg: Config, run: seq<State>, steps: seq<Step>, p: nat, o: Office, before: seq<Item>,
                     logs: map<Sink, seq<Out>>, replies: Replies)
    returns (run': seq<State>, steps': seq<Step>)
    requires IsRun(cfg, run, steps) && run != [] && Houses(cfg, Last(run), p, o, before, logs)
    ensures Continues(cfg, run, steps, run', steps') && run' != []
    ensures Houses(cfg, Last(run'), p, AfterWork(cfg, o, Handle(replies)), before, logs)
    ensures OthersRest(Last(run), Last(run'), p)
  {
    hide IsRun, StoreAfter, SinkOf, Written, IsLog, LogOf, RecordsOf, Logged;
    if o.belt.queue == [] {
      run', steps' := run, steps;
    } else {
      run', steps' := TurnIsARun(cfg, run, steps, p, replies);
      LoggedNext(cfg, Last(run), Last(run'), p, o.belt, logs, o.belt.queue[0], replies,
                 AfterWork(cfg, o, Handle(replies)).belt);
    }
  }

  /**
   * The two goroutines of a process, round by round and turn by turn in whatever
   * order, are a run of the machine: same stream, group, statuses, buffers, dead
   * letters, items and logs, while every other process rests.
   */
  lemma {:induction false} WorksAreARun(cfg: Config, run: seq<State>, steps: seq<Step>, p: nat, o: Office,
                                        before: seq<Item>, logs: map<Sink, seq<Out>>, works: seq<Work>)
    returns (run': seq<State>, steps': seq<Step>)
    requires IsRun(cfg, run, steps) && run != [] && Houses(cfg, Last(run), p, o, before, logs) && Fits(cfg, o, works)
    ensures Continues(cfg, run, steps, run', steps') && run' != []
    ensures Houses(cfg, Last(run'), p, AfterWorks(cfg, o, works), before, logs)
    ensures OthersRest(Last(run), Last(run'), p)
    decreases |works|
  {
    hide IsRun, AfterWork, Houses;
    if works == [] {
      run', steps' := run, steps;
    } else {
      match works[0] {
        case Consume(r) => run', steps' := ConsumeIsARun(cfg, run, steps, p, o, before, logs, r);
        case Handle(replies) => run', steps' := HandleIsARun(cfg, run, steps, p, o, before, logs, replies);
      }
      run', steps' := WorksAreARun(cfg, run', steps', p, AfterWork(cfg, o, works[0]), before, logs, works[1..]);
    }
  }
}

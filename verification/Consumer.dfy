/** The consumer loop and ProcessMessage as one goroutine runs them: internal/consumer/consumer.go. */
module Consumer {
  import opened Prelude
  import opened Messages
  import opened Events
  import opened Admission
  import opened Controller
  import opened RedisBackend
  import opened RedisBroker
  import opened Rounds

  /**
   * What one call of ProcessMessage meets: two clock readings, the end of the
   * export and status commands, and which case each select takes.
   */
  datatype Turn = Turn(
    now1: int, now2: int, exportSent: bool, announce: Reply, widgetSent: bool, markerSent: bool)

  /** What one call of ProcessMessage does. */
  datatype Outcome = Outcome(ack: bool, reason: string, info: Option<EventInfo>, sent: seq<Item>, store: Store)

  /** The outcome of a call; `info` is the event data as the call leaves it. */
  function OutcomeOf(cfg: Config, store: Store, src: nat, m: Incoming, t: Turn): Outcome {
    match Judge(cfg, t.now1, t.now2, m)
    case Skip => Outcome(true, "", m.eventData, [], store)
    case Forward => Outcome(t.exportSent, if t.exportSent then "" else EXPORT_SEND_FAILED, m.eventData, [], store)
    case Reject(reason, info) => Outcome(false, reason, Some(info), [], store)
    case Admit(info) =>
      var announced := if WantsCompletion(info) && t.announce.Applied()
                       then SetStatus(store, info.routingKey, PROCESSING) else store;
      if !t.widgetSent then Outcome(false, CONTROLLER_ERROR, Some(info), [], announced)
      else
        var marker := if WantsCompletion(info) && t.markerSent then [MarkerOf(src, info)] else [];
        Outcome(true, "", Some(info), [WidgetOf(cfg.strategyKeys, src, info)] + marker, announced)
  }

  /** A decoded message whose event data lives on the heap and is rewritten in place. */
  datatype IncomingMessage = IncomingMessage(eventName: string, eventData: EventData?, selectedWidgets: seq<string>)

  function Snapshot(incoming: IncomingMessage): Incoming
    reads incoming.eventData
  {
    Incoming(incoming.eventName, if incoming.eventData == null then None else Some(incoming.eventData.Info()),
             incoming.selectedWidgets)
  }

  /** What one round of the read loop meets; `arrivals` are the requests appended since the last one. */
  datatype Round = Round(cancelled: bool, arrivals: seq<Entry>, read: Reply, turn: Turn, bury: Reply, ack: Reply)

  datatype DeadLetter = DeadLetter(message: Incoming, reason: string, id: nat)

  /** The outcome of one delivered entry: what is not JSON is acknowledged and forgotten. */
  function EntryOutcome(cfg: Config, store: Store, id: nat, e: Entry, t: Turn): Outcome {
    match e.Content()
    case Json(m) => OutcomeOf(cfg, store, id, m, t)
    case _ => Outcome(true, "", None, [], store)
  }

  /** What the consumer has had done so far: items sent, records buried, statuses written. */
  datatype Trace = Trace(sent: seq<Item>, buried: seq<DeadLetter>, store: Store)

  /** The dead-letter record of an entry: the message as the call left it, the reason and the id. */
  function RecordOf(id: nat, e: Entry, outcome: Outcome, bury: Reply): seq<DeadLetter> {
    match e.Content()
    case Json(m) =>
      if !outcome.ack && bury.Applied() then [DeadLetter(m.(eventData := outcome.info), outcome.reason, id)] else []
    case _ => []
  }

  /** One more entry was handled. */
  function Extended(cfg: Config, t: Trace, id: nat, e: Entry, r: Round): Trace {
    var outcome := EntryOutcome(cfg, t.store, id, e, r.turn);
    Trace(t.sent + outcome.sent, t.buried + RecordOf(id, e, outcome, r.bury), outcome.store)
  }

  /** The message ends in the dead-letter stream: it is too old, or what it was handed to did not take it. */
  predicate IsBuried(cfg: Config, m: Incoming, t: Turn) {
    match Judge(cfg, t.now1, t.now2, m)
    case Skip => false
    case Forward => !t.exportSent
    case Reject(_, _) => true
    case Admit(_) => !t.widgetSent
  }

  /**
   * An entry is sent or buried, never both, and which of the two is decided by its
   * verdict and its selects. What holds no message leaves no trace. A message that
   * runs sends its own widget, followed by its own marker if it is for stream_tech
   * API with a routing key and the select sends it; any other sends nothing.
   */
  lemma SentOrBuried(cfg: Config, t: Trace, id: nat, e: Entry, r: Round)
    ensures var text := if e.payload.Empty? then e.body else e.payload;
      !text.Json? ==> Extended(cfg, t, id, e, r) == t
    ensures var text := if e.payload.Empty? then e.body else e.payload;
      text.Json? ==>
      var m, t', turn := text.message, Extended(cfg, t, id, e, r), r.turn;
      var v := Judge(cfg, turn.now1, turn.now2, m);
      && |t'.buried| == |t.buried| + (if IsBuried(cfg, m, turn) && r.bury.Applied() then 1 else 0)
      && (IsBuried(cfg, m, turn) && r.bury.Applied() ==>
            && t'.buried[..|t.buried|] == t.buried
            && var d := t'.buried[|t.buried|];
            && d.id == id && d.message.eventName == m.eventName && d.message.selectedWidgets == m.selectedWidgets
            && d.message.eventData == (if v.Reject? || v.Admit? then Some(v.info) else m.eventData)
            && d.reason == match v
                 case Reject(why, _) => why
                 case Forward => "export_send_failed"
                 case _ => "controller_error")
      && (if v.Admit? then
            var api := v.info.streamTech == "API" && v.info.routingKey != "";
            && t'.sent == t.sent
                 + (if turn.widgetSent then [WidgetOf(cfg.strategyKeys, id, v.info)] else [])
                 + (if turn.widgetSent && turn.markerSent && api then [Marker(id, v.info.routingKey)] else [])
            && t'.store == t.store.(status := if api && turn.announce.Applied()
                 then t.store.status[v.info.routingKey := "PROCESSING_EVENT_IN_PUBLISHER_CONTROLLER"]
                 else t.store.status)
          else t'.sent == t.sent && t'.store == t.store)
  {
    hide WidgetOf, Judge, OutcomeOf;
    if e.Content().Json? {
      OutcomeByVerdict(cfg, t.store, id, e.Content().message, r.turn);
    }
  }

  // ---- Which rounds delivered an entry, and what became of it ----

  /** Everything appended in the rounds. */
  function Arrived(rounds: seq<Round>): seq<Entry> {
    if rounds == [] then [] else Arrived(rounds[..|rounds| - 1]) + rounds[|rounds| - 1].arrivals
  }

  lemma ArrivedNext(rounds: seq<Round>, i: nat)
    requires i < |rounds|
    ensures Arrived(rounds[..i + 1]) == Arrived(rounds[..i]) + rounds[i].arrivals
  {
    assert rounds[..i + 1][..i] == rounds[..i];
  }

  /** What the rounds find, `free` entries being undelivered before: the entries so far, and a read that is applied. */
  function ChancesOf(free: int, rounds: seq<Round>): (r: seq<Chance>)
    ensures |r| == |rounds|
  {
    if rounds == [] then []
    else
      var last := |rounds| - 1;
      ChancesOf(free, rounds[..last]) + [Chance(free + |Arrived(rounds)|, rounds[last].read.Applied())]
  }

  lemma ChancesNext(free: int, rounds: seq<Round>, i: nat)
    requires i < |rounds|
    ensures ChancesOf(free, rounds[..i + 1]) ==
      ChancesOf(free, rounds[..i]) + [Chance(free + |Arrived(rounds[..i + 1])|, rounds[i].read.Applied())]
  {
    assert rounds[..i + 1][..i] == rounds[..i];
  }

  /** The entry was delivered in these rounds; `acked` tells whether it was read and its acknowledgement applied. */
  predicate EndsIn(first: nat, rounds: seq<Round>, given: seq<nat>, id: nat, acked: bool) {
    && first <= id < first + |given| && given[id - first] < |rounds|
    && var r := rounds[given[id - first]];
    && acked == (r.read.Ok? && r.ack.Applied())
  }

  /** Exactly the delivered entries have been added to the group, to the acknowledged or to the pending ones. */
  ghost predicate Settled(base: Group, g: Group, first: nat, rounds: seq<Round>, given: seq<nat>) {
    && g.exists_ && g.start == base.start && g.next == first + |given|
    && (forall id :: id in g.acked <==> id in base.acked || EndsIn(first, rounds, given, id, true))
    && (forall id :: id in g.pending <==> id in base.pending || EndsIn(first, rounds, given, id, false))
  }

  /** The entries that were read are handled, in order. */
  function TraceOf(cfg: Config, input: seq<Entry>, start: Trace, first: nat, rounds: seq<Round>, given: seq<nat>): Trace
    requires first + |given| <= |input| && forall n :: 0 <= n < |given| ==> given[n] < |rounds|
  {
    if given == [] then start
    else
      var n := |given| - 1;
      var before := TraceOf(cfg, input, start, first, rounds, given[..n]);
      if rounds[given[n]].read.Ok? then Extended(cfg, before, first + n, input[first + n], rounds[given[n]]) else before
  }

  /** The entries taken so far do not depend on what is appended later. */
  lemma {:induction false} TraceOfGrows(cfg: Config, input: seq<Entry>, more: seq<Entry>, start: Trace, first: nat,
                                        rounds: seq<Round>, given: seq<nat>)
    requires first + |given| <= |input| && forall n :: 0 <= n < |given| ==> given[n] < |rounds|
    ensures TraceOf(cfg, input + more, start, first, rounds, given) == TraceOf(cfg, input, start, first, rounds, given)
  {
    hide Extended;
    if given != [] {
      TraceOfGrows(cfg, input, more, start, first, rounds, given[..|given| - 1]);
    }
  }

  lemma TraceOfNext(cfg: Config, input: seq<Entry>, start: Trace, first: nat, rounds: seq<Round>, given: seq<nat>,
                    i: nat)
    requires first + |given| < |input| && i < |rounds| && forall n :: 0 <= n < |given| ==> given[n] < |rounds|
    ensures var before := TraceOf(cfg, input, start, first, rounds, given);
      TraceOf(cfg, input, start, first, rounds, given + [i]) ==
        if rounds[i].read.Ok? then Extended(cfg, before, first + |given|, input[first + |given|], rounds[i]) else before
  {
    hide Extended;
    assert (given + [i])[..|given|] == given;
  }

  /** A delivered entry joins the acknowledged or the pending ones. */
  lemma SettledNext(base: Group, g: Group, g': Group, first: nat, rounds: seq<Round>, given: seq<nat>, i: nat)
    requires Settled(base, g, first, rounds, given) && i < |rounds|
    requires g'.exists_ && g'.start == g.start && g'.next == g.next + 1
    requires var acked := rounds[i].read.Ok? && rounds[i].ack.Applied();
      && g'.acked == g.acked + (if acked then {g.next} else {})
      && g'.pending == g.pending + (if acked then {} else {g.next})
    ensures Settled(base, g', first, rounds, given + [i])
  {
    var longer := given + [i];
    forall id: nat, acked ensures EndsIn(first, rounds, longer, id, acked) <==>
      || EndsIn(first, rounds, given, id, acked)
      || (id == g.next && acked == (rounds[i].read.Ok? && rounds[i].ack.Applied()))
    {
      if first <= id < first + |given| { assert longer[id - first] == given[id - first]; }
    }
  }

  lemma SettledSame(base: Group, g: Group, g': Group, first: nat, rounds: seq<Round>, given: seq<nat>)
    requires Settled(base, g, first, rounds, given)
    requires g'.exists_ && g'.start == g.start && g'.next == g.next && g'.acked == g.acked && g'.pending == g.pending
    ensures Settled(base, g', first, rounds, given)
  {
    assert g' == g;
  }

  /** When every read and acknowledgement ends well, the delivered entries are exactly acknowledged. */
  lemma AllAcknowledged(base: Group, g: Group, first: nat, rounds: seq<Round>, ran: nat, given: seq<nat>)
    requires Settled(base, g, first, rounds, given) && forall n :: 0 <= n < |given| ==> given[n] < ran
    requires ran <= |rounds| && forall i :: 0 <= i < ran ==> rounds[i].read.Ok? && rounds[i].ack.Ok?
    ensures g.pending == base.pending
    ensures forall id :: id in g.acked <==> id in base.acked || first <= id < g.next
  {
  }

  /** Where the loop is after its first `ran` rounds. */
  ghost predicate Handled(cfg: Config, begun: Session, base: Group, rounds: seq<Round>, ran: nat, given: seq<nat>,
                          l: Session)
    requires ran <= |rounds|
  {
    && l.input == begun.input + Arrived(rounds[..ran])
    && base.next + |given| == l.group.next <= |l.input|
    && (forall n :: 0 <= n < |given| ==> given[n] < ran)
    && Greedy(ChancesOf(|begun.input| - base.next, rounds[..ran]), given)
    && Settled(base, l.group, base.next, rounds, given)
    && l.trace == TraceOf(cfg, l.input, begun.trace, base.next, rounds, given)
    && ((forall i :: 0 <= i < ran ==> rounds[i].read.Ok? && rounds[i].ack.Ok?) ==>
          && l.group.pending == base.pending
          && forall id :: id in l.group.acked <==> id in base.acked || base.next <= id < l.group.next)
  }

  /** The group the loop reads: the one that is there, or a new one at the end of the stream. */
  function BaseOf(l: Session): Group {
    if l.group.exists_ then l.group else Group(true, |l.input|, |l.input|, {}, {})
  }

  lemma HandledFirst(cfg: Config, begun: Session, rounds: seq<Round>)
    requires begun.group.exists_ ==> GroupOk(begun.group, |begun.input|)
    ensures Arrived(rounds[..0]) == []
    ensures Handled(cfg, begun, BaseOf(begun), rounds, 0, [], begun.(group := BaseOf(begun)))
  {
    hide GroupOk, Greedy, Settled;
    var base := BaseOf(begun);
    NothingTaken();
    BaseFits(begun);
    NothingSettled(base, rounds);
    assert rounds[..0] == [];
  }

  lemma BaseFits(begun: Session)
    requires begun.group.exists_ ==> GroupOk(begun.group, |begun.input|)
    ensures BaseOf(begun).exists_ && BaseOf(begun).next <= |begun.input|
  {
  }

  lemma NothingSettled(base: Group, rounds: seq<Round>)
    requires base.exists_
    ensures Settled(base, base, base.next, rounds, [])
  {
  }

  lemma HandledNext(cfg: Config, begun: Session, base: Group, rounds: seq<Round>, ran: nat, given: seq<nat>,
                    l: Session, l': Session)
    requires ran < |rounds| && Handled(cfg, begun, base, rounds, ran, given, l) && l.group.exists_
    requires IsRound(cfg, l, rounds[ran], l')
    ensures Handled(cfg, begun, base, rounds, ran + 1,
                    if CanTake(l, rounds[ran]) then given + [ran] else given, l')
  {
    hide Extended, Settled, Greedy, TraceOf, Arrived, ChancesOf;
    var r, free := rounds[ran], |begun.input| - base.next;
    ArrivedNext(rounds, ran);
    TraceOfGrows(cfg, l.input, r.arrivals, begun.trace, base.next, rounds, given);
    ChancesNext(free, rounds, ran);
    GreedyNext(ChancesOf(free, rounds[..ran]), given,
               Chance(free + |Arrived(rounds[..ran + 1])|, r.read.Applied()));
    if !CanTake(l, r) {
      SettledSame(base, l.group, l'.group, base.next, rounds, given);
    } else {
      SettledNext(base, l.group, l'.group, base.next, rounds, given, ran);
      TraceOfNext(cfg, l'.input, begun.trace, base.next, rounds, given, ran);
    }
    var given' := if CanTake(l, r) then given + [ran] else given;
    if forall i :: 0 <= i < ran + 1 ==> rounds[i].read.Ok? && rounds[i].ack.Ok? {
      AllAcknowledged(base, l'.group, base.next, rounds, ran + 1, given');
    }
  }

  /** There is an entry for the read of this round. */
  predicate CanTake(l: Session, r: Round) {
    r.read.Applied() && l.group.next < |l.input| + |r.arrivals|
  }

  /**
   * One round: the entry at the cursor, if there is one and the read is applied, is
   * delivered; if the read succeeds it is handled, and acknowledged if that command
   * is applied.
   */
  predicate IsRound(cfg: Config, l: Session, r: Round, l': Session) {
    var next, taken, acked := l.group.next, CanTake(l, r), r.read.Ok? && r.ack.Applied();
    && l'.input == l.input + r.arrivals
    && l'.group.exists_ && l'.group.start == l.group.start
    && l'.group.next == (if taken then next + 1 else next)
    && l'.group.acked == (if taken && acked then l.group.acked + {next} else l.group.acked)
    && l'.group.pending == (if taken && !acked then l.group.pending + {next} else l.group.pending)
    && l'.trace == if taken && r.read.Ok? then Extended(cfg, l.trace, next, l'.input[next], r) else l.trace
  }

  // ---- The loop as a fold over its rounds ----

  /** The input stream with its group, and what the consumer has had done. */
  datatype Session = Session(input: seq<Entry>, group: Group, trace: Trace)

  /** One round: whatever was appended, at most one entry is read, handled and acknowledged. */
  function AfterRound(cfg: Config, l: Session, r: Round): Session {
    var input, g := l.input + r.arrivals, l.group;
    if !r.read.Applied() || !g.exists_ || g.next >= |input| then l.(input := input)
    else if !r.read.Ok? then l.(input := input, group := DeliverNext(g))
    else
      Session(input,
               if r.ack.Applied() then Acknowledge(DeliverNext(g), g.next) else DeliverNext(g),
               Extended(cfg, l.trace, g.next, input[g.next], r))
  }

  lemma AfterRoundIsRound(cfg: Config, l: Session, r: Round)
    requires l.group.exists_ && l.group.next !in l.group.pending && l.group.next !in l.group.acked
    ensures IsRound(cfg, l, r, AfterRound(cfg, l, r))
  {
    hide Extended;
    if CanTake(l, r) && r.read.Ok? && r.ack.Applied() {
      AckDelivered(l.group);
    }
  }

  lemma AckDelivered(g: Group)
    requires g.next !in g.pending
    ensures Acknowledge(DeliverNext(g), g.next) == g.(next := g.next + 1, acked := g.acked + {g.next})
  {
    assert g.pending + {g.next} - {g.next} == g.pending;
  }

  /** All rounds until shutdown. */
  function AfterRounds(cfg: Config, l: Session, rounds: seq<Round>): Session
    decreases |rounds|
  {
    if rounds == [] || rounds[0].cancelled then l else AfterRounds(cfg, AfterRound(cfg, l, rounds[0]), rounds[1..])
  }

  /** The loop runs once the group is there. */
  function AfterRun(cfg: Config, l: Session, start: Reply, rounds: seq<Round>): Session {
    var started := if start.Applied() then l.(group := CreateGroup(l.group, |l.input|)) else l;
    if start.Ok? then AfterRounds(cfg, started, rounds) else started
  }

  class Consumer {
    const cfg: Config
    const broker: Broker<DeadLetter>
    const deadLetterStream: string
    const backend: BackendRedis
    const registry: Registry<Strategy>
    const queue: SenderQueue

    constructor (cfg: Config, broker: Broker<DeadLetter>, deadLetterStream: string, backend: BackendRedis,
                 registry: Registry<Strategy>, queue: SenderQueue)
      ensures this.cfg == cfg && this.broker == broker && this.deadLetterStream == deadLetterStream
      ensures this.backend == backend && this.registry == registry && this.queue == queue
    {
      this.cfg, this.broker, this.deadLetterStream := cfg, broker, deadLetterStream;
      this.backend, this.registry, this.queue := backend, registry, queue;
    }

    ghost predicate Valid()
      reads this, registry, broker
    {
      registry.Valid() && registry.strategies.Keys == cfg.strategyKeys && broker.Valid()
    }

    function AsSession(): Session
      reads queue, broker, backend
    {
      Session(broker.input, broker.group, Traced())
    }

    function Traced(): Trace
      reads queue, broker, backend
    {
      Trace(queue.sent, broker.Stream(deadLetterStream), backend.AsStore())
    }

    /** The checks up to the enrichment, which merge and enrich the event data in place. */
    method Screen(incoming: IncomingMessage, t: Turn) returns (v: Verdict)
      modifies incoming.eventData
      ensures v == Judge(cfg, t.now1, t.now2, old(Snapshot(incoming)))
      ensures Snapshot(incoming).eventData ==
        if v.Reject? || v.Admit? then Some(v.info) else old(Snapshot(incoming).eventData)
    {
      hide IsAccepted, Enrich;
      var eventName, eventData := incoming.eventName, incoming.eventData;
      if eventData == null || !IsAccepted(eventName) {
        return Skip;
      }
      if eventData.exporterId != "" && cfg.exportProducer {
        if IsExportRequest(eventName, eventData.Info()) {
          return Forward;
        }
      }
      if eventData.exporterId != "" || eventData.jobId != "" || eventData.isLiveDashboard
         || eventData.isNewsletterReport || eventData.isExportEngagements {
        return Skip;
      }
      if |incoming.selectedWidgets| > 0 {
        eventData.selectedWidgets := eventData.selectedWidgets + incoming.selectedWidgets;
      }
      assert eventData.Info() == Merged(old(Snapshot(incoming)));
      if eventData.requestTimestamp > 0 {
        var elapsed := t.now1 - eventData.requestTimestamp;
        if elapsed > cfg.eventTimeout {
          return Reject(STALE_REQUEST, eventData.Info());
        }
      }
      if (eventName == "fedi_listener_go_dispatcher" || eventName == "staci.fedi.dispatcher")
         && eventData.exportXlsx && eventData.requestTimestamp > 0 {
        if t.now2 - eventData.requestTimestamp > MESSAGE_DISPATCHER_TIMEOUT_SEC {
          return Reject(EXPORT_XLSX_TIMEOUT, eventData.Info());
        }
      }
      EventToPageEnrichment(eventName, eventData);
      return Admit(eventData.Info());
    }

    /** Screens the message, then forwards it, rejects it, or runs it. */
    method ProcessMessage(src: nat, incoming: IncomingMessage, t: Turn) returns (ack: bool, reason: string)
      requires Valid()
      modifies incoming.eventData, backend`status, queue
      ensures Valid()
      ensures var outcome := OutcomeOf(cfg, old(backend.AsStore()), src, old(Snapshot(incoming)), t);
        && ack == outcome.ack && reason == outcome.reason
        && Snapshot(incoming).eventData == outcome.info
        && queue.sent == old(queue.sent) + outcome.sent
        && backend.AsStore() == outcome.store
      ensures backend.buffers == old(backend.buffers)
      ensures match Judge(cfg, t.now1, t.now2, old(Snapshot(incoming)))
        case Admit(info) =>
          var api := info.streamTech == "API" && info.routingKey != "";
          && ack == t.widgetSent && reason == (if t.widgetSent then "" else "controller_error")
          && backend.status == (if api && t.announce.Applied()
               then old(backend.status)[info.routingKey := "PROCESSING_EVENT_IN_PUBLISHER_CONTROLLER"]
               else old(backend.status))
          && queue.sent == old(queue.sent)
               + (if t.widgetSent then [WidgetOf(cfg.strategyKeys, src, info)] else [])
               + (if t.widgetSent && api && t.markerSent then [Marker(src, info.routingKey)] else [])
        case Reject(why, _) =>
          !ack && reason == why && queue.sent == old(queue.sent) && backend.status == old(backend.status)
        case Forward =>
          && ack == t.exportSent && reason == (if t.exportSent then "" else "export_send_failed")
          && queue.sent == old(queue.sent) && backend.status == old(backend.status)
        case Skip => ack && reason == "" && queue.sent == old(queue.sent) && backend.status == old(backend.status)
    {
      hide Judge, WidgetOf, OutcomeOf, Enrich;
      var v := Screen(incoming, t);
      OutcomeByVerdict(cfg, old(backend.AsStore()), src, old(Snapshot(incoming)), t);
      match v {
        case Skip => return true, "";
        case Forward =>
          if !t.exportSent {
            return false, EXPORT_SEND_FAILED;
          }
          return true, "";
        case Reject(why, _) => return false, why;
        case Admit(_) =>
          assert incoming.eventData != null by { OnlyDataIsAdmitted(cfg, t, old(Snapshot(incoming))); }
          ack, reason := RunAdmitted(src, incoming.eventData, t);
      }
    }

    /** The rest of the call, once the message is admitted and enriched. */
    method RunAdmitted(src: nat, eventData: EventData, t: Turn) returns (ack: bool, reason: string)
      requires Valid()
      modifies backend`status, queue
      ensures Valid()
      ensures backend.buffers == old(backend.buffers)
      ensures var info := eventData.Info();
        var api := info.streamTech == "API" && info.routingKey != "";
        && ack == t.widgetSent && reason == (if t.widgetSent then "" else "controller_error")
        && backend.status == (if api && t.announce.Applied()
             then old(backend.status)[info.routingKey := "PROCESSING_EVENT_IN_PUBLISHER_CONTROLLER"]
             else old(backend.status))
        && queue.sent == old(queue.sent)
             + (if t.widgetSent then [WidgetOf(cfg.strategyKeys, src, info)] else [])
             + (if t.widgetSent && api && t.markerSent then [Marker(src, info.routingKey)] else [])
    {
      hide WidgetOf;
      if eventData.streamTech == "API" && eventData.routingKey != "" {
        var _ := backend.UpdateEventStatus(eventData.routingKey, PROCESSING, t.announce);
      }
      var ok := Controller.Run(registry, src, eventData, queue, t.widgetSent);
      if !ok {
        return false, CONTROLLER_ERROR;
      }
      if eventData.streamTech == "API" && eventData.routingKey != "" {
        var _ := queue.Select(Marker(src, eventData.routingKey), t.markerSent);
      }
      return true, "";
    }

    /** Writes the message, as mutated so far, to the dead-letter stream and acknowledges it whatever comes of that. */
    method DeadLetterEntry(id: nat, incoming: IncomingMessage, reason: string, bury: Reply, ack: Reply)
      requires Valid()
      modifies broker`group, broker`streams
      ensures Valid()
      ensures broker.group == if ack.Applied() then Acknowledge(old(broker.group), id) else old(broker.group)
      ensures broker.group.exists_ == old(broker.group.exists_) && broker.group.next == old(broker.group.next)
      ensures broker.Stream(deadLetterStream) == old(broker.Stream(deadLetterStream))
        + if bury.Applied() then [DeadLetter(old(Snapshot(incoming)), reason, id)] else []
    {
      var _ := broker.AddToStream(deadLetterStream, DeadLetter(Snapshot(incoming), reason, id), bury);
      broker.Ack(id, ack);
    }

    /** A decoded entry, from ProcessMessage to the acknowledgement. */
    method HandleMessage(id: nat, m: Incoming, r: Round)
      requires Valid()
      modifies broker`group, broker`streams, backend`status, queue
      ensures Valid()
      ensures broker.group == if r.ack.Applied() then Acknowledge(old(broker.group), id) else old(broker.group)
      ensures broker.group.exists_ == old(broker.group.exists_) && broker.group.next == old(broker.group.next)
      ensures var outcome := OutcomeOf(cfg, old(backend.AsStore()), id, m, r.turn);
        && queue.sent == old(queue.sent) + outcome.sent
        && backend.AsStore() == outcome.store
        && broker.Stream(deadLetterStream) == old(broker.Stream(deadLetterStream)) +
             (if !outcome.ack && r.bury.Applied()
              then [DeadLetter(m.(eventData := outcome.info), outcome.reason, id)] else [])
    {
      hide OutcomeOf, Acknowledge, GroupOk;
      var data: EventData? := null;
      if m.eventData.Some? {
        data := new EventData(m.eventData.value);
      }
      var incoming := IncomingMessage(m.eventName, data, m.selectedWidgets);
      assert Snapshot(incoming) == m;
      var ack, reason := ProcessMessage(id, incoming, r.turn);
      if ack {
        broker.Ack(id, r.ack);
      } else {
        DeadLetterEntry(id, incoming, reason, r.bury, r.ack);
      }
    }

    /** One delivered entry; what holds no message is only acknowledged. */
    method HandleEntry(id: nat, r: Round)
      requires Valid() && id < |broker.input|
      modifies broker`group, broker`streams, backend`status, queue
      ensures Valid()
      ensures broker.group == if r.ack.Applied() then Acknowledge(old(broker.group), id) else old(broker.group)
      ensures broker.group.exists_ == old(broker.group.exists_) && broker.group.next == old(broker.group.next)
      ensures Traced() == Extended(cfg, old(Traced()), id, broker.input[id], r)
    {
      hide OutcomeOf, Acknowledge, GroupOk;
      match broker.input[id].Content() {
        case Json(m) => HandleMessage(id, m, r);
        case _ => broker.Ack(id, r.ack);
      }
    }

    /**
     * The read loop, over the rounds it meets until shutdown; it does what `AfterRun`
     * says. It runs the first `ran` rounds, up to the one that is cancelled. Entry
     * `first + n` is delivered in round `given[n]`: never before, in stream order,
     * once each, and as soon as a read is applied. Exactly those entries are added to
     * the group, acknowledged if they were read and the command was applied, pending
     * otherwise. What is sent, buried and announced is exactly what handling the
     * entries read, one after the other, does.
     */
    method Run(start: Reply, rounds: seq<Round>) returns (given: seq<nat>, ran: nat)
      requires Valid()
      modifies broker`input, broker`group, broker`streams, backend`status, queue
      ensures Valid()
      ensures AsSession() == AfterRun(cfg, old(AsSession()), start, rounds)
      ensures !start.Ok? ==> given == [] && ran == 0 && broker.input == old(broker.input) && Traced() == old(Traced())
      ensures ran <= |rounds| && forall i :: 0 <= i < ran ==> !rounds[i].cancelled
      ensures start.Ok? && ran < |rounds| ==> rounds[ran].cancelled
      ensures broker.input == old(broker.input) + Arrived(rounds[..ran])
      ensures start.Ok? ==>
        var length := |old(broker.input)|;
        var base := if old(broker.group.exists_) then old(broker.group) else Group(true, length, length, {}, {});
        && Greedy(ChancesOf(length - base.next, rounds[..ran]), given)
        && (forall n :: 0 <= n < |given| ==> given[n] < ran)
        && Settled(base, broker.group, base.next, rounds, given)
        && broker.group.next <= |broker.input|
        && Traced() == TraceOf(cfg, broker.input, old(Traced()), base.next, rounds, given)
        && ((forall i :: 0 <= i < ran ==> rounds[i].read.Ok? && rounds[i].ack.Ok?) ==>
              && broker.group.pending == base.pending
              && forall id :: id in broker.group.acked <==> id in base.acked || base.next <= id < broker.group.next)
    {
      hide Extended, SetStatus, Settled, Greedy, ChancesOf, GroupOk, TraceOf, Arrived, AfterRound, IsRound, CanTake;
      given, ran := [], 0;
      ghost var begun := AsSession();
      ghost var base := BaseOf(begun);
      HandledFirst(cfg, begun, rounds);
      var ok := broker.EnsureConsumerGroup(None, start);
      if !ok {
        return;
      }
      ghost var started := AsSession();
      while ran < |rounds|
        invariant ran <= |rounds| && Valid() && broker.group.exists_
        invariant forall i :: 0 <= i < ran ==> !rounds[i].cancelled
        invariant AfterRounds(cfg, started, rounds) == AfterRounds(cfg, AsSession(), rounds[ran..])
        invariant Handled(cfg, begun, base, rounds, ran, given, AsSession())
      {
        if rounds[ran].cancelled {
          break;
        }
        ghost var l := AsSession();
        var delivered := RunRound(rounds[ran]);
        HandledNext(cfg, begun, base, rounds, ran, given, l, AsSession());
        if delivered {
          given := given + [ran];
        }
        assert rounds[ran..][1..] == rounds[ran + 1..];
        ran := ran + 1;
      }
      assert Handled(cfg, begun, base, rounds, ran, given, AsSession());
    }

    /** One round of the loop; `delivered` tells whether it was given an entry. */
    method RunRound(r: Round) returns (delivered: bool)
      requires Valid() && broker.group.exists_
      modifies broker`input, broker`group, broker`streams, backend`status, queue
      ensures Valid() && broker.group.exists_
      ensures AsSession() == AfterRound(cfg, old(AsSession()), r)
      ensures delivered <==> CanTake(old(AsSession()), r)
      ensures IsRound(cfg, old(AsSession()), r, AsSession())
    {
      hide Extended, SetStatus, IsRound;
      AfterRoundIsRound(cfg, AsSession(), r);
      broker.Arrive(r.arrivals);
      delivered := r.read.Applied() && broker.group.next < |broker.input|;
      var id := broker.ReadGroup(r.read);
      if id.Some? {
        HandleEntry(id.value, r);
      }
    }
  }

  /** What each verdict makes of the call. */
  lemma OutcomeByVerdict(cfg: Config, store: Store, src: nat, m: Incoming, t: Turn)
    ensures OutcomeOf(cfg, store, src, m, t) ==
      match Judge(cfg, t.now1, t.now2, m)
      case Skip => Outcome(true, "", m.eventData, [], store)
      case Forward => Outcome(t.exportSent, if t.exportSent then "" else "export_send_failed", m.eventData, [], store)
      case Reject(why, info) => Outcome(false, why, Some(info), [], store)
      case Admit(info) =>
        var api := info.streamTech == "API" && info.routingKey != "";
        Outcome(t.widgetSent, if t.widgetSent then "" else "controller_error", Some(info),
          (if t.widgetSent then [WidgetOf(cfg.strategyKeys, src, info)] else [])
            + (if t.widgetSent && api && t.markerSent then [Marker(src, info.routingKey)] else []),
          store.(status := if api && t.announce.Applied()
            then store.status[info.routingKey := "PROCESSING_EVENT_IN_PUBLISHER_CONTROLLER"] else store.status))
  {
    hide Judge, WidgetOf;
  }

  lemma OnlyDataIsAdmitted(cfg: Config, t: Turn, m: Incoming)
    ensures Judge(cfg, t.now1, t.now2, m).Admit? ==> m.eventData.Some?
  {
  }
}

/**
 * Kafka delivery for one partition with one owner at a time:
 * internal/kafka/client.go:138-167. Crashes, restarts, failed fetches, failed
 * dead-letter writes and failed commits may come at any point.
 */
module Kafka {
  import opened Prelude
  import opened Messages
  import opened Rounds

  /** Where the loop of RunConsumer stands. `next` is the reader's fetch position. */
  datatype Stage =
    | Down                                        // no process owns the partition
    | Ready(next: nat)                            // before FetchMessage
    | Fetched(next: nat, offset: nat)             // before decoding
    | Burying(next: nat, offset: nat, reason: string) // before the DLQ write
    | Committing(next: nat, offset: nat)          // before CommitMessages

  /**
   * `committed` is the group's offset on the broker: everything below it counts as
   * consumed. `rejected` and `returned` are histories: the offsets whose value was
   * no JSON, and those on which `process` returned.
   */
  datatype State = State(
    log: seq<Text>, committed: nat, stage: Stage, dlq: seq<(nat, string)>, rejected: set<nat>, returned: set<nat>)

  const INITIAL := State([], 0, Down, [], {}, {})

  datatype Step =
    | Produce(value: Text)
    | Start
    | Crash
    | Fetch(reply: Reply)
    | Reject
    | Process(ack: bool, reason: string)
    | DeadLetter(reply: Reply)
    | Commit(reply: Reply)

  predicate Enabled(s: State, step: Step) {
    match step
    case Produce(_) => true
    case Start => s.stage.Down?
    case Crash => !s.stage.Down?
    case Fetch(_) => s.stage.Ready?
    case Reject => s.stage.Fetched? && s.stage.offset < |s.log| && !s.log[s.stage.offset].Json?
    case Process(_, _) => s.stage.Fetched? && s.stage.offset < |s.log| && s.log[s.stage.offset].Json?
    case DeadLetter(_) => s.stage.Burying?
    case Commit(_) => s.stage.Committing?
  }

  function Apply(s: State, step: Step): State
    requires Enabled(s, step)
  {
    match step
    case Produce(value) => s.(log := s.log + [value])
    case Start => s.(stage := Ready(s.committed))
    case Crash => s.(stage := Down)
    case Fetch(reply) =>
      if reply.Ok? && s.stage.next < |s.log| then s.(stage := Fetched(s.stage.next + 1, s.stage.next)) else s
    case Reject => s.(stage := Committing(s.stage.next, s.stage.offset), rejected := s.rejected + {s.stage.offset})
    case Process(ack, reason) =>
      s.(returned := s.returned + {s.stage.offset},
         stage := if ack then Committing(s.stage.next, s.stage.offset)
                  else Burying(s.stage.next, s.stage.offset, reason))
    case DeadLetter(reply) =>
      s.(stage := Committing(s.stage.next, s.stage.offset),
         dlq := if reply.Applied() then s.dlq + [(s.stage.offset, s.stage.reason)] else s.dlq)
    case Commit(reply) =>
      s.(stage := Ready(s.stage.next), committed := if reply.Applied() then s.stage.offset + 1 else s.committed)
  }

  ghost predicate IsRun(run: seq<State>, steps: seq<Step>) {
    && |run| == |steps| + 1
    && run[0] == INITIAL
    && forall i :: 0 <= i < |steps| ==> Enabled(run[i], steps[i]) && run[i + 1] == Apply(run[i], steps[i])
  }

  // ---- The invariant ----

  /** Offsets below `limit` are all dealt with. */
  ghost predicate DealtWith(s: State, limit: int) {
    forall offset :: 0 <= offset < limit ==> offset in s.rejected || offset in s.returned
  }

  ghost predicate Inv(s: State) {
    && s.committed <= |s.log|
    && DealtWith(s, s.committed)
    && (forall offset :: offset in s.rejected ==> offset < |s.log| && !s.log[offset].Json?)
    && (forall offset :: offset in s.returned ==> offset < |s.log| && s.log[offset].Json?)
    && match s.stage
       case Down => true
       case Ready(next) => s.committed <= next <= |s.log| && DealtWith(s, next)
       case Fetched(next, offset) => s.committed <= offset && next == offset + 1 <= |s.log| && DealtWith(s, offset)
       case Burying(next, offset, _) => s.committed <= offset && next == offset + 1 <= |s.log| && DealtWith(s, next)
       case Committing(next, offset) => s.committed <= offset && next == offset + 1 <= |s.log| && DealtWith(s, next)
  }

  lemma InvStep(s: State, step: Step)
    requires Inv(s) && Enabled(s, step)
    ensures Inv(Apply(s, step))
  {
  }

  lemma {:induction false} InvAlways(run: seq<State>, steps: seq<Step>, i: nat)
    requires IsRun(run, steps) && i < |run|
    ensures Inv(run[i])
  {
    hide Inv, Enabled, Apply;
    if i == 0 {
      assert Inv(INITIAL) by { InitialInv(); }
    } else {
      InvAlways(run, steps, i - 1);
      InvStep(run[i - 1], steps[i - 1]);
    }
  }

  lemma InitialInv()
    ensures Inv(INITIAL)
  {
  }

  // ---- At least once ----

  /** The offset that the step hands to `process`. */
  predicate Processes(s: State, step: Step, offset: nat) {
    step.Process? && Enabled(s, step) && s.stage.offset == offset
  }

  lemma {:induction false} CommittedGrows(run: seq<State>, steps: seq<Step>, i: nat, j: nat)
    requires IsRun(run, steps) && i <= j < |run|
    ensures run[i].committed <= run[j].committed
    ensures run[i].returned <= run[j].returned && run[i].log <= run[j].log
  {
    if i < j {
      CommittedGrows(run, steps, i, j - 1);
      InvAlways(run, steps, j - 1);
    }
  }

  /** `process` was called on the offset at some step before `i`. */
  ghost predicate WasProcessed(run: seq<State>, steps: seq<Step>, i: nat, offset: nat) {
    exists k :: 0 <= k < i && k < |steps| && k < |run| && Processes(run[k], steps[k], offset)
  }

  lemma {:induction false} ReturnedWasProcessed(run: seq<State>, steps: seq<Step>, i: nat, offset: nat)
    requires IsRun(run, steps) && i < |run| && offset in run[i].returned
    ensures WasProcessed(run, steps, i, offset)
  {
    if i > 0 {
      if offset in run[i - 1].returned {
        ReturnedWasProcessed(run, steps, i - 1, offset);
      } else {
        assert Processes(run[i - 1], steps[i - 1], offset);
      }
    }
  }

  /**
   * At least once: in every run, every offset below the committed one carries no
   * JSON, or was handed to `process`, which returned. The committed offset never
   * passes the fetch position of the owner, and never goes back.
   */
  lemma AtLeastOnce(run: seq<State>, steps: seq<Step>, i: nat, offset: nat)
    requires IsRun(run, steps) && i < |run|
    ensures run[i].committed <= |run[i].log|
    ensures offset < run[i].committed && run[i].log[offset].Json? ==> WasProcessed(run, steps, i, offset)
    ensures !run[i].stage.Down? ==> run[i].committed <= run[i].stage.next <= |run[i].log|
    ensures forall j :: i <= j < |run| ==> run[i].committed <= run[j].committed
  {
    InvAlways(run, steps, i);
    if offset < run[i].committed && run[i].log[offset].Json? {
      ReturnedWasProcessed(run, steps, i, offset);
    }
    forall j | i <= j < |run| ensures run[i].committed <= run[j].committed {
      CommittedGrows(run, steps, i, j);
    }
  }

  /** What is committed is never processed again; a restart replays from the committed offset. */
  lemma CommittedIsNotReplayed(run: seq<State>, steps: seq<Step>, i: nat, j: nat, offset: nat)
    requires IsRun(run, steps) && i <= j < |steps| && Processes(run[j], steps[j], offset)
    ensures offset >= run[i].committed
  {
    InvAlways(run, steps, j);
    CommittedGrows(run, steps, i, j);
  }

  /** No crash separates the two moments. */
  ghost predicate SameOwner(steps: seq<Step>, i: nat, j: nat) {
    forall k :: i <= k < j && k < |steps| ==> !steps[k].Crash?
  }

  lemma {:induction false} PositionGrows(run: seq<State>, steps: seq<Step>, i: nat, j: nat)
    requires IsRun(run, steps) && i <= j < |run| && !run[i].stage.Down? && SameOwner(steps, i, j)
    ensures !run[j].stage.Down? && run[i].stage.next <= run[j].stage.next
  {
    if i < j {
      PositionGrows(run, steps, i, j - 1);
    }
  }

  /** One owner processes offsets in increasing order, skipping only values that are no JSON. */
  lemma OwnerIsInOrder(run: seq<State>, steps: seq<Step>, i: nat, j: nat, a: nat, b: nat)
    requires IsRun(run, steps) && i < j < |steps| && SameOwner(steps, i, j)
    requires Processes(run[i], steps[i], a) && Processes(run[j], steps[j], b)
    ensures a < b
    ensures forall offset :: a < offset < b ==> offset in run[j].rejected || offset in run[j].returned
  {
    InvAlways(run, steps, i);
    InvAlways(run, steps, j);
    hide Inv;
    assert run[i + 1].stage.next == a + 1 by { ProcessedNext(run[i], steps[i], a); }
    NoLongerFetched(run, steps, i, j, a);
    assert run[j].stage.next == b + 1 by { ProcessedNext(run[j], steps[j], b); }
    DealtBelow(run[j], b);
  }

  lemma ProcessedNext(s: State, step: Step, offset: nat)
    requires Inv(s) && Processes(s, step, offset)
    ensures s.stage.next == offset + 1 && Apply(s, step).stage.next == offset + 1
  {
  }

  lemma DealtBelow(s: State, offset: nat)
    requires Inv(s) && s.stage.Fetched? && s.stage.offset == offset
    ensures DealtWith(s, offset)
  {
  }

  /** After `process` returned on an offset, its owner never stands before that offset again. */
  lemma {:induction false} NoLongerFetched(run: seq<State>, steps: seq<Step>, i: nat, j: nat, offset: nat)
    requires IsRun(run, steps) && i < j < |run| && SameOwner(steps, i, j) && Processes(run[i], steps[i], offset)
    ensures !run[j].stage.Down? && run[j].stage.next >= offset + 1
    ensures run[j].stage.Fetched? ==> run[j].stage.offset > offset
  {
    InvAlways(run, steps, j - 1);
    if i + 1 < j {
      NoLongerFetched(run, steps, i, j - 1, offset);
    }
  }

  /**
   * An offset is processed twice only after its owner crashed in between, before
   * its commit took effect.
   */
  lemma DuplicatesNeedACrash(run: seq<State>, steps: seq<Step>, i: nat, j: nat, offset: nat)
    requires IsRun(run, steps) && i < j < |steps|
    requires Processes(run[i], steps[i], offset) && Processes(run[j], steps[j], offset)
    ensures exists k :: i < k < j && steps[k].Crash? && run[k].committed <= offset
  {
    CommittedIsNotReplayed(run, steps, j, j, offset);
    if SameOwner(steps, i, j) {
      NoLongerFetched(run, steps, i, j, offset);
    }
    var k :| i <= k < j && steps[k].Crash?;
    CommittedGrows(run, steps, k, j);
  }

  // ---- Which offsets can still be processed again ----

  /** The longer run starts with the shorter one. */
  ghost predicate Continues(run: seq<State>, steps: seq<Step>, run': seq<State>, steps': seq<Step>) {
    IsRun(run', steps') && run <= run' && steps <= steps'
  }

  lemma Extend(run: seq<State>, steps: seq<Step>, step: Step) returns (run': seq<State>, steps': seq<Step>)
    requires IsRun(run, steps) && Enabled(run[|steps|], step)
    ensures IsRun(run', steps') && steps' == steps + [step] && run' == run + [Apply(run[|steps|], step)]
    ensures |run'| == |steps'| + 1
  {
    hide Enabled, Apply;
    run', steps' := run + [Apply(run[|steps|], step)], steps + [step];
  }

  /** An owner that stands at or before the offset gets there, though no commit takes effect on the way. */
  lemma {:induction false} Approach(run: seq<State>, steps: seq<Step>, offset: nat)
    returns (run': seq<State>, steps': seq<Step>)
    requires IsRun(run, steps) && run[|steps|].stage.Ready?
    requires run[|steps|].stage.next <= offset < |run[|steps|].log|
    ensures Continues(run, steps, run', steps')
    ensures run'[|steps'|].stage == Ready(offset) && run'[|steps'|].log == run[|steps|].log
    decreases offset - run[|steps|].stage.next
  {
    run', steps' := run, steps;
    var s := run[|steps|];
    var next := s.stage.next;
    if next < offset {
      hide IsRun;
      run', steps' := Extend(run', steps', Fetch(Ok));
      run', steps' := Extend(run', steps', if s.log[next].Json? then Process(true, "") else Reject);
      run', steps' := Extend(run', steps', Commit(Error));
      run', steps' := Approach(run', steps', offset);
    }
  }

  /** A new owner starts at the committed offset, whether or not the last one is still there. */
  lemma Restart(run: seq<State>, steps: seq<Step>) returns (run': seq<State>, steps': seq<Step>)
    requires IsRun(run, steps)
    ensures Continues(run, steps, run', steps')
    ensures var s, s' := run[|steps|], run'[|steps'|];
      s' == s.(stage := Ready(s.committed))
  {
    run', steps' := run, steps;
    if !run[|steps|].stage.Down? {
      run', steps' := Extend(run', steps', Crash);
    }
    run', steps' := Extend(run', steps', Start);
  }

  /** Some continuation of the run hands the offset to `process`, again or for the first time. */
  ghost predicate CanProcess(run: seq<State>, steps: seq<Step>, offset: nat) {
    exists run', steps' :: Continues(run, steps, run', steps') && ProcessedFrom(run', steps', |steps|, offset)
  }

  ghost predicate ProcessedFrom(run: seq<State>, steps: seq<Step>, i: nat, offset: nat) {
    exists k :: i <= k < |steps| && k < |run| && Processes(run[k], steps[k], offset)
  }

  /**
   * Exactly when an offset can be replayed: after any run, an offset on which
   * `process` returned can be handed to it again, by some continuation, if and only
   * if it is not yet committed.
   */
  lemma ReplayableIff(run: seq<State>, steps: seq<Step>, offset: nat)
    requires IsRun(run, steps) && offset in run[|steps|].returned
    ensures CanProcess(run, steps, offset) <==> run[|steps|].committed <= offset
  {
    var s := run[|steps|];
    InvAlways(run, steps, |steps|);
    if s.committed <= offset {
      var run', steps' := Restart(run, steps);
      run', steps' := Approach(run', steps', offset);
      run', steps' := Extend(run', steps', Fetch(Ok));
      var k := |steps'|;
      assert Processes(run'[k], Process(true, ""), offset);
      run', steps' := Extend(run', steps', Process(true, ""));
      assert steps'[k] == Process(true, "") && ProcessedFrom(run', steps', |steps|, offset);
    }
    if run', steps' :| Continues(run, steps, run', steps') && ProcessedFrom(run', steps', |steps|, offset) {
      var k :| |steps| <= k < |steps'| && Processes(run'[k], steps'[k], offset);
      assert run'[|steps|] == s;
      CommittedIsNotReplayed(run', steps', |steps|, k, offset);
    }
  }

  lemma NoStepsYet()
    ensures IsRun([INITIAL], [])
  {
  }

  /** Duplicates do happen: the owner crashes after `process` returned and before the commit. */
  lemma DuplicateRun(value: Text) returns (run: seq<State>, steps: seq<Step>)
    requires value.Json?
    ensures IsRun(run, steps)
    ensures steps == [Produce(value), Start, Fetch(Ok), Process(true, ""), Crash, Start, Fetch(Ok), Process(true, "")]
    ensures forall k :: 1 <= k <= 8 ==> run[k].log == [value]
    ensures Processes(run[3], steps[3], 0) && Processes(run[7], steps[7], 0)
  {
    hide IsRun;
    run, steps := [INITIAL], [];
    assert IsRun(run, steps) by { NoStepsYet(); }
    run, steps := Extend(run, steps, Produce(value));
    run, steps := Extend(run, steps, Start);
    run, steps := Extend(run, steps, Fetch(Ok));
    run, steps := Extend(run, steps, Process(true, ""));
    run, steps := Extend(run, steps, Crash);
    run, steps := Extend(run, steps, Start);
    run, steps := Extend(run, steps, Fetch(Ok));
    run, steps := Extend(run, steps, Process(true, ""));
  }

  // ---- The loop itself ----

  /**
   * What one round of the loop meets: shutdown, what producers wrote since the
   * last one, the ends of its commands, and what `process` returns.
   */
  datatype Round = Round(
    cancelled: bool, arrivals: seq<Text>, fetch: Reply, ack: bool, reason: string, bury: Reply, commit: Reply)

  /** The producers' steps. */
  function Produced(values: seq<Text>): seq<Step> {
    if values == [] then [] else [Produce(values[0])] + Produced(values[1..])
  }

  /** The partition with the new values. */
  function WithArrivals(s: State, values: seq<Text>): State {
    s.(log := s.log + values)
  }

  /** The loop's own steps in one round. */
  function RoundSteps(s: State, r: Round): seq<Step>
    requires s.stage.Ready?
  {
    if !r.fetch.Ok? || s.stage.next >= |s.log| then [Fetch(r.fetch)]
    else if !s.log[s.stage.next].Json? then [Fetch(r.fetch), Reject, Commit(r.commit)]
    else if r.ack then [Fetch(r.fetch), Process(r.ack, r.reason), Commit(r.commit)]
    else [Fetch(r.fetch), Process(r.ack, r.reason), DeadLetter(r.bury), Commit(r.commit)]
  }

  /** The partition after the loop's part of one round, in one piece. */
  function AfterMessage(s: State, r: Round): State
    requires s.stage.Ready?
  {
    var offset := s.stage.next;
    if !r.fetch.Ok? || offset >= |s.log| then s
    else
      s.(stage := Ready(offset + 1),
         committed := if r.commit.Applied() then offset + 1 else s.committed,
         dlq := s.dlq + if s.log[offset].Json? && !r.ack && r.bury.Applied() then [(offset, r.reason)] else [],
         rejected := s.rejected + if s.log[offset].Json? then {} else {offset},
         returned := s.returned + if s.log[offset].Json? then {offset} else {})
  }

  function AfterRound(s: State, r: Round): State
    requires s.stage.Ready?
  {
    AfterMessage(WithArrivals(s, r.arrivals), r)
  }

  /** The partition after the loop met these rounds; shutdown ends it. */
  function Loop(s: State, rounds: seq<Round>): State
    requires s.stage.Ready?
    decreases |rounds|
  {
    if rounds == [] || rounds[0].cancelled then s else Loop(AfterRound(s, rounds[0]), rounds[1..])
  }

  // ---- What the rounds leave behind ----

  /** Everything produced in the rounds. */
  function Arrived(rounds: seq<Round>): seq<Text> {
    if rounds == [] then [] else Arrived(rounds[..|rounds| - 1]) + rounds[|rounds| - 1].arrivals
  }

  /** What the rounds find when `ahead` values are not fetched before: the values so far, and a fetch that succeeds. */
  function ChancesOf(ahead: int, rounds: seq<Round>): (r: seq<Chance>)
    ensures |r| == |rounds|
  {
    if rounds == [] then []
    else
      var last := |rounds| - 1;
      ChancesOf(ahead, rounds[..last]) + [Chance(ahead + |Arrived(rounds)|, rounds[last].fetch.Ok?)]
  }

  lemma RoundNext(ahead: int, rounds: seq<Round>, i: nat)
    requires i < |rounds|
    ensures Arrived(rounds[..i + 1]) == Arrived(rounds[..i]) + rounds[i].arrivals
    ensures ChancesOf(ahead, rounds[..i + 1]) ==
      ChancesOf(ahead, rounds[..i]) + [Chance(ahead + |Arrived(rounds[..i + 1])|, rounds[i].fetch.Ok?)]
  {
    assert rounds[..i + 1][..i] == rounds[..i];
  }

  /** The commit of the value fetched in round `given[n]` was applied, and none after it. */
  ghost predicate LastCommit(rounds: seq<Round>, given: seq<nat>, n: nat)
    requires forall k :: 0 <= k < |given| ==> given[k] < |rounds|
  {
    && n < |given| && rounds[given[n]].commit.Applied()
    && forall k :: n < k < |given| ==> !rounds[given[k]].commit.Applied()
  }

  /** The committed offset is one past the last value whose commit was applied, or what it was. */
  ghost predicate CommitsFollow(first: nat, was: nat, now: nat, rounds: seq<Round>, given: seq<nat>)
    requires forall k :: 0 <= k < |given| ==> given[k] < |rounds|
  {
    && (forall n: nat :: LastCommit(rounds, given, n) ==> now == first + n + 1)
    && ((forall n :: 0 <= n < |given| ==> !rounds[given[n]].commit.Applied()) ==> now == was)
  }

  /** The value at this offset is put in the DLQ with the reason: a message that `process` did not take. */
  ghost predicate IsBuried(log: seq<Text>, first: nat, rounds: seq<Round>, given: seq<nat>, record: (nat, string))
    requires forall k :: 0 <= k < |given| ==> given[k] < |rounds|
  {
    && first <= record.0 < first + |given| && record.0 < |log| && log[record.0].Json?
    && var r := rounds[given[record.0 - first]];
    && !r.ack && r.bury.Applied() && record.1 == r.reason
  }

  /** The records are exactly those, by offset. */
  ghost predicate BuriedInOrder(log: seq<Text>, first: nat, rounds: seq<Round>, given: seq<nat>,
                                records: seq<(nat, string)>)
    requires forall k :: 0 <= k < |given| ==> given[k] < |rounds|
  {
    && (forall a, b :: 0 <= a < b < |records| ==> records[a].0 < records[b].0)
    && (forall record: (nat, string) :: record in records <==> IsBuried(log, first, rounds, given, record))
  }

  /** What the loop has done after its first `ran` rounds. */
  ghost predicate Followed(begun: State, rounds: seq<Round>, ran: nat, given: seq<nat>, s: State)
    requires begun.stage.Ready? && s.stage.Ready? && ran <= |rounds|
  {
    var first := begun.stage.next;
    && s.log == begun.log + Arrived(rounds[..ran])
    && s.stage.next == first + |given|
    && (given == [] || s.stage.next <= |s.log|)
    && (forall n :: 0 <= n < |given| ==> given[n] < ran)
    && Greedy(ChancesOf(|begun.log| - first, rounds[..ran]), given)
    && CommitsFollow(first, begun.committed, s.committed, rounds, given)
    && begun.dlq <= s.dlq
    && BuriedInOrder(s.log, first, rounds, given, s.dlq[|begun.dlq|..])
  }

  lemma CommitsNext(first: nat, was: nat, now: nat, rounds: seq<Round>, given: seq<nat>, i: nat)
    requires i < |rounds| && forall k :: 0 <= k < |given| ==> given[k] < |rounds|
    requires CommitsFollow(first, was, now, rounds, given)
    ensures CommitsFollow(first, was, if rounds[i].commit.Applied() then first + |given| + 1 else now, rounds,
                          given + [i])
  {
    var longer := given + [i];
    assert longer[|given|] == i;
    forall n: nat ensures LastCommit(rounds, longer, n) ==>
      if rounds[i].commit.Applied() then n == |given| else LastCommit(rounds, given, n)
    {
      if LastCommit(rounds, longer, n) && n < |given| {
        assert !rounds[longer[|given|]].commit.Applied();
        assert forall k :: 0 <= k < |given| ==> longer[k] == given[k];
      }
    }
    if forall n :: 0 <= n < |longer| ==> !rounds[longer[n]].commit.Applied() {
      assert forall n :: 0 <= n < |given| ==> given[n] == longer[n];
    }
  }

  lemma BuriedNext(log: seq<Text>, more: seq<Text>, first: nat, rounds: seq<Round>, given: seq<nat>, i: nat,
                   records: seq<(nat, string)>)
    requires i < |rounds| && forall k :: 0 <= k < |given| ==> given[k] < |rounds|
    requires BuriedInOrder(log, first, rounds, given, records)
    requires (given == [] || first + |given| <= |log|) && first + |given| < |log + more|
    ensures var r, offset := rounds[i], first + |given|;
      BuriedInOrder(log + more, first, rounds, given + [i],
        records + if (log + more)[offset].Json? && !r.ack && r.bury.Applied() then [(offset, r.reason)] else [])
  {
    var r, offset, longer := rounds[i], first + |given|, given + [i];
    var last := if (log + more)[offset].Json? && !r.ack && r.bury.Applied() then [(offset, r.reason)] else [];
    forall record: (nat, string)
      ensures record in records + last <==> IsBuried(log + more, first, rounds, longer, record)
    {
      assert record in records <==> IsBuried(log, first, rounds, given, record);
      if first <= record.0 < offset {
        assert longer[record.0 - first] == given[record.0 - first] && (log + more)[record.0] == log[record.0];
      }
    }
    forall k | 0 <= k < |records| ensures records[k].0 < offset {
      assert records[k] in records;
    }
  }

  lemma BuriedSame(log: seq<Text>, more: seq<Text>, first: nat, rounds: seq<Round>, given: seq<nat>,
                   records: seq<(nat, string)>)
    requires forall k :: 0 <= k < |given| ==> given[k] < |rounds|
    requires BuriedInOrder(log, first, rounds, given, records) && (given == [] || first + |given| <= |log|)
    ensures BuriedInOrder(log + more, first, rounds, given, records)
  {
    forall record: (nat, string) ensures record in records <==> IsBuried(log + more, first, rounds, given, record) {
      assert record in records <==> IsBuried(log, first, rounds, given, record);
    }
  }

  lemma FollowedNext(begun: State, rounds: seq<Round>, ran: nat, given: seq<nat>, s: State)
    requires begun.stage.Ready? && s.stage.Ready? && ran < |rounds| && Followed(begun, rounds, ran, given, s)
    ensures var r := rounds[ran];
      var found := r.fetch.Ok? && s.stage.next < |s.log| + |r.arrivals|;
      Followed(begun, rounds, ran + 1, if found then given + [ran] else given, AfterRound(s, r))
  {
    hide Greedy, CommitsFollow, BuriedInOrder, Arrived, ChancesOf;
    var r, first, ahead := rounds[ran], begun.stage.next, |begun.log| - begun.stage.next;
    var s' := AfterRound(s, r);
    RoundNext(ahead, rounds, ran);
    GreedyNext(ChancesOf(ahead, rounds[..ran]), given, Chance(ahead + |Arrived(rounds[..ran + 1])|, r.fetch.Ok?));
    var records := s.dlq[|begun.dlq|..];
    if r.fetch.Ok? && s.stage.next < |s.log| + |r.arrivals| {
      CommitsNext(first, begun.committed, s.committed, rounds, given, ran);
      BuriedNext(s.log, r.arrivals, first, rounds, given, ran, records);
      assert s'.dlq[|begun.dlq|..] == records + s'.dlq[|s.dlq|..];
    } else {
      BuriedSame(s.log, r.arrivals, first, rounds, given, records);
    }
  }

  lemma NothingFollowed(begun: State, rounds: seq<Round>)
    requires begun.stage.Ready?
    ensures Followed(begun, rounds, 0, [], begun)
  {
    hide Greedy;
    NothingTaken();
    assert rounds[..0] == [] && begun.dlq[|begun.dlq|..] == [];
  }

  /** When every commit of a fetched value is applied, the committed offset is the fetch position. */
  lemma AllCommitted(first: nat, was: nat, now: nat, rounds: seq<Round>, given: seq<nat>)
    requires given != [] && forall n :: 0 <= n < |given| ==> given[n] < |rounds| && rounds[given[n]].commit.Applied()
    requires CommitsFollow(first, was, now, rounds, given)
    ensures now == first + |given|
  {
    assert LastCommit(rounds, given, |given| - 1);
  }

  /** The steps lead, each enabled, from `s` to `t`. */
  ghost predicate Leads(s: State, steps: seq<Step>, t: State)
    decreases |steps|
  {
    if steps == [] then s == t
    else Enabled(s, steps[0]) && Leads(Apply(s, steps[0]), steps[1..], t)
  }

  lemma {:induction false} LeadsOn(s: State, xs: seq<Step>, t: State, ys: seq<Step>, u: State)
    requires Leads(s, xs, t) && Leads(t, ys, u)
    ensures Leads(s, xs + ys, u)
    decreases |xs|
  {
    if xs == [] {
      assert xs + ys == ys;
    } else {
      assert (xs + ys)[1..] == xs[1..] + ys;
      LeadsOn(Apply(s, xs[0]), xs[1..], t, ys, u);
    }
  }

  /** The reader, the broker's side of the partition and the DLQ topic, as the client updates them. */
  class Client {
    var log: seq<Text>
    var committed: nat
    var position: nat
    var dlq: seq<(nat, string)>
    ghost var rejected: set<nat>
    ghost var returned: set<nat>

    ghost function AsState(): State
      reads this
    {
      State(log, committed, Ready(position), dlq, rejected, returned)
    }

    constructor (log: seq<Text>, committed: nat)
      ensures this.log == log && AsState() == State(log, committed, Ready(committed), [], {}, {})
    {
      this.log, this.committed, this.position, this.dlq := log, committed, committed, [];
      rejected, returned := {}, {};
    }

    /** One round after a successful fetch of `offset`. */
    method HandleMessage(offset: nat, r: Round)
      requires offset == position < |log|
      modifies this
      ensures log == old(log)
      ensures position == offset + 1
      ensures committed == if r.commit.Applied() then offset + 1 else old(committed)
      ensures dlq == old(dlq) + if log[offset].Json? && !r.ack && r.bury.Applied() then [(offset, r.reason)] else []
      ensures rejected == old(rejected) + if log[offset].Json? then {} else {offset}
      ensures returned == old(returned) + if log[offset].Json? then {offset} else {}
    {
      position := offset + 1;
      if !log[offset].Json? {
        rejected := rejected + {offset};
      } else {
        returned := returned + {offset};
        if !r.ack && r.bury.Applied() {
          dlq := dlq + [(offset, r.reason)];
        }
      }
      if r.commit.Applied() {
        committed := offset + 1;
      }
    }

    /**
     * The loop, over the rounds it meets until shutdown. Offset `first + n` is fetched
     * in round `given[n]`, whenever a fetch succeeds and there is one. The committed
     * offset is one past the last of them whose commit was applied, whatever `process`
     * returned. The DLQ gets exactly the messages that `process` did not take and whose
     * record was applied, by offset.
     */
    method RunConsumer(rounds: seq<Round>) returns (given: seq<nat>, ran: nat)
      modifies this
      ensures AsState() == Loop(old(AsState()), rounds)
      ensures ran <= |rounds| && forall i :: 0 <= i < ran ==> !rounds[i].cancelled
      ensures ran < |rounds| ==> rounds[ran].cancelled
      ensures forall n :: 0 <= n < |given| ==> given[n] < ran
      ensures log == old(log) + Arrived(rounds[..ran])
      ensures position == old(position) + |given|
      ensures Greedy(ChancesOf(|old(log)| - old(position), rounds[..ran]), given)
      ensures CommitsFollow(old(position), old(committed), committed, rounds, given)
      ensures old(dlq) <= dlq && BuriedInOrder(log, old(position), rounds, given, dlq[|old(dlq)|..])
      ensures given != [] && (forall n :: 0 <= n < |given| ==> rounds[given[n]].commit.Applied()) ==>
        committed == position
    {
      hide Greedy, CommitsFollow, BuriedInOrder, AfterRound, Arrived, ChancesOf;
      given, ran := [], 0;
      ghost var begun := AsState();
      NothingFollowed(begun, rounds);
      while ran < |rounds|
        invariant ran <= |rounds| && forall i :: 0 <= i < ran ==> !rounds[i].cancelled
        invariant Loop(begun, rounds) == Loop(AsState(), rounds[ran..])
        invariant Followed(begun, rounds, ran, given, AsState())
      {
        var r := rounds[ran];
        if r.cancelled {
          break;
        }
        FollowedNext(begun, rounds, ran, given, AsState());
        var found := RunRound(r);
        if found {
          given := given + [ran];
        }
        assert rounds[ran..][1..] == rounds[ran + 1..];
        ran := ran + 1;
      }
      if given != [] && forall n :: 0 <= n < |given| ==> rounds[given[n]].commit.Applied() {
        AllCommitted(begun.stage.next, begun.committed, committed, rounds, given);
      }
    }

    /** One round of the loop. */
    method RunRound(r: Round) returns (found: bool)
      modifies this
      ensures found <==> r.fetch.Ok? && old(position) < |log|
      ensures log == old(log) + r.arrivals
      ensures AsState() == AfterRound(old(AsState()), r)
    {
      log := log + r.arrivals;
      found := r.fetch.Ok? && position < |log|;
      if found {
        HandleMessage(position, r);
      }
    }
  }

  /**
   * Whatever the loop does is a run of the partition machine, so what is proved of
   * all runs holds of it.
   */
  lemma {:induction false} LoopLeads(s: State, rounds: seq<Round>) returns (steps: seq<Step>)
    requires Inv(s) && s.stage.Ready?
    ensures Leads(s, steps, Loop(s, rounds)) && Inv(Loop(s, rounds))
    decreases |rounds|
  {
    hide Inv, Leads;
    if rounds == [] || rounds[0].cancelled {
      steps := [];
      NoStepsLead(s);
    } else {
      var t := AfterRound(s, rounds[0]);
      var arrived := WithArrivals(s, rounds[0].arrivals);
      ArrivalsLead(s, rounds[0].arrivals);
      LeadsInv(s, Produced(rounds[0].arrivals), arrived);
      RoundLeads(arrived, rounds[0]);
      var round := Produced(rounds[0].arrivals) + RoundSteps(arrived, rounds[0]);
      LeadsOn(s, Produced(rounds[0].arrivals), arrived, RoundSteps(arrived, rounds[0]), t);
      steps := LoopLeads(t, rounds[1..]);
      LeadsOn(s, round, t, steps, Loop(s, rounds));
      steps := round + steps;
    }
  }

  lemma LeadsBy(s: State, step: Step, rest: seq<Step>, t: State)
    requires Enabled(s, step) && Leads(Apply(s, step), rest, t)
    ensures Leads(s, [step] + rest, t)
  {
    assert ([step] + rest)[1..] == rest;
  }

  lemma LeadsInv(s: State, steps: seq<Step>, t: State)
    requires Inv(s) && Leads(s, steps, t)
    ensures Inv(t)
    decreases |steps|
  {
    if steps != [] {
      InvStep(s, steps[0]);
      LeadsInv(Apply(s, steps[0]), steps[1..], t);
    }
  }

  lemma {:induction false} ArrivalsLead(s: State, values: seq<Text>)
    ensures Leads(s, Produced(values), WithArrivals(s, values))
    decreases |values|
  {
    if values == [] {
      assert WithArrivals(s, values) == s;
    } else {
      var s1 := Apply(s, Produce(values[0]));
      assert WithArrivals(s1, values[1..]) == WithArrivals(s, values) by {
        assert s.log + [values[0]] + values[1..] == s.log + values;
      }
      ArrivalsLead(s1, values[1..]);
      LeadsBy(s, Produce(values[0]), Produced(values[1..]), WithArrivals(s, values));
    }
  }

  lemma RejectLeads(s: State, r: Round)
    requires s.stage.Ready? && r.fetch.Ok? && s.stage.next < |s.log| && !s.log[s.stage.next].Json?
    ensures Leads(s, RoundSteps(s, r), AfterMessage(s, r))
  {
    hide Leads;
    var t := AfterMessage(s, r);
    var s1, commit := Apply(s, Fetch(r.fetch)), [Commit(r.commit)];
    assert commit == [Commit(r.commit)] + [];
    NoStepsLead(t);
    LeadsBy(Apply(s1, Reject), Commit(r.commit), [], t);
    LeadsBy(s1, Reject, commit, t);
    LeadsBy(s, Fetch(r.fetch), [Reject] + commit, t);
    assert RoundSteps(s, r) == [Fetch(r.fetch)] + ([Reject] + commit);
  }

  lemma ProcessLeads(s: State, r: Round)
    requires s.stage.Ready? && r.fetch.Ok? && s.stage.next < |s.log| && s.log[s.stage.next].Json?
    ensures Leads(s, RoundSteps(s, r), AfterMessage(s, r))
  {
    hide Leads;
    var t := AfterMessage(s, r);
    var s1, process, commit := Apply(s, Fetch(r.fetch)), Process(r.ack, r.reason), [Commit(r.commit)];
    var s2 := Apply(s1, process);
    assert commit == [Commit(r.commit)] + [];
    NoStepsLead(t);
    if r.ack {
      LeadsBy(s2, Commit(r.commit), [], t);
      LeadsBy(s1, process, commit, t);
      LeadsBy(s, Fetch(r.fetch), [process] + commit, t);
      assert RoundSteps(s, r) == [Fetch(r.fetch)] + ([process] + commit);
    } else {
      LeadsBy(Apply(s2, DeadLetter(r.bury)), Commit(r.commit), [], t);
      LeadsBy(s2, DeadLetter(r.bury), commit, t);
      LeadsBy(s1, process, [DeadLetter(r.bury)] + commit, t);
      LeadsBy(s, Fetch(r.fetch), [process] + ([DeadLetter(r.bury)] + commit), t);
      assert RoundSteps(s, r) == [Fetch(r.fetch)] + ([process] + ([DeadLetter(r.bury)] + commit));
    }
  }

  /** The outcome of one round, however it ends, is what its steps lead to. */
  lemma RoundLeads(s: State, r: Round)
    requires Inv(s) && s.stage.Ready?
    ensures Leads(s, RoundSteps(s, r), AfterMessage(s, r)) && Inv(AfterMessage(s, r))
  {
    hide Inv;
    if !r.fetch.Ok? || s.stage.next >= |s.log| {
      assert Leads(s, RoundSteps(s, r), AfterMessage(s, r));
    } else if s.log[s.stage.next].Json? {
      ProcessLeads(s, r);
    } else {
      RejectLeads(s, r);
    }
    hide Leads, RoundSteps, AfterMessage;
    LeadsInv(s, RoundSteps(s, r), AfterMessage(s, r));
  }

  lemma NoStepsLead(s: State)
    ensures Leads(s, [], s)
  {
  }
}

/**
 * Which delivered entries can still be finished: exactly those that are not
 * stranded, and which pending ones can still be acknowledged.
 */
module Stranding {
  import opened Prelude
  import opened Messages
  import opened RedisBackend
  import opened RedisBroker
  import opened Cluster
  import opened ClusterInvariant
  import opened OpHistory
  import opened Delivery
  import opened Progress

  /** Stranding does happen: a process reads an entry and dies before it finishes. */
  lemma StrandedRun(cfg: Config, e: Entry) returns (run: seq<State>, steps: seq<Step>)
    ensures IsRun(cfg, run, steps) && Stranded(Last(run), 0)
    ensures steps == [Environment(Start), Consumer(0, EnsureGroup(Ok)), Environment(Append(e)), Consumer(0, Read(Ok)),
                      Environment(Crash(0))]
  {
    run, steps := [INITIAL], [];
    run, steps := Extend(cfg, run, steps, Environment(Start));
    run, steps := Extend(cfg, run, steps, Consumer(0, EnsureGroup(Ok)));
    run, steps := Extend(cfg, run, steps, Environment(Append(e)));
    run, steps := Extend(cfg, run, steps, Consumer(0, Read(Ok)));
    run, steps := Extend(cfg, run, steps, Environment(Crash(0)));
  }

  /** A living process holds the entry. */
  ghost predicate HeldAlive(s: State, id: nat) {
    id in s.owner && id !in s.fate && Alive(s, s.owner[id])
  }

  /** A delivered entry has a fate, is held by a living process, or is stranded. */
  lemma DeliveredIs(cfg: Config, s: State, id: nat)
    requires Inv(cfg, s) && s.group.start <= id < s.group.next
    ensures Stranded(s, id) <==> id !in s.fate && !HeldAlive(s, id)
  {
    hide Inv, HeldBy;
    InvParts(cfg, s);
  }

  lemma HolderHolds(cfg: Config, s: State, id: nat)
    requires Inv(cfg, s) && HeldAlive(s, id)
    ensures s.procs[s.owner[id]].consumer.InFlight() && s.procs[s.owner[id]].consumer.id == id
    ensures id < |s.stream| && id in s.group.pending && Fifo(s.procs[s.owner[id]])
  {
    hide Inv, ItemOk, StageOk;
    InvParts(cfg, s);
    assert !Fated(s, id);
    assert ProcInv(cfg, s.stream, s.owner, s.owner[id], s.procs[s.owner[id]]);
  }

  /** What the holder's own next step does to the fates. */
  lemma OwnNextServes(cfg: Config, s: State, p: nat)
    requires Alive(s, p) && s.procs[p].consumer.InFlight() && Enabled(s, OwnNext(s.procs[p], p))
    ensures var s', id := Apply(cfg, s, OwnNext(s.procs[p], p)), s.procs[p].consumer.id;
      && p < |s'.procs| && s'.procs[p].alive
      && if s.procs[p].consumer.Acking?
         then id in s'.fate && (id in s.group.pending ==> id in s'.group.acked)
         else s'.fate == s.fate
  {
    var step := OwnNext(s.procs[p], p);
    OwnNextIsQuiet(s.procs[p], p);
    hide OwnNext, ApplyConsumer, ApplyWorker, ConsumerAfter, WorkerAfter;
    match step {
      case Worker(_, move) => WorkerTouches(cfg, s, p, move);
      case Consumer(_, move) =>
        ConsumerProcs(cfg, s, p, move);
        FetchedByRead(cfg, s, s.procs[p], move);
        if move.Ack? { AckServes(cfg, s, p); } else { QuietMove(cfg, s, p, move); }
      case _ =>
    }
  }

  lemma AckServes(cfg: Config, s: State, p: nat)
    requires Enabled(s, Consumer(p, Ack(Ok)))
    ensures var s', id := ApplyConsumer(cfg, s, p, Ack(Ok)), s.procs[p].consumer.id;
      id in s'.fate && (id in s.group.pending ==> id in s'.group.acked)
  {
    hide ConsumerAfter;
  }

  lemma OwnNextIsQuiet(pr: Proc, p: nat)
    requires pr.consumer.InFlight()
    ensures var step := OwnNext(pr, p);
      && StepOf(step, p)
      && (pr.consumer.Acking? <==> step.Consumer? && step.c.Ack?)
      && (step.Consumer? ==> !step.c.EnsureGroup? && !step.c.Read? && (step.c.Ack? ==> step.c == Ack(Ok)))
  {
  }

  /** The holder's own next step finishes the entry, or leaves it held with less to do. */
  ghost predicate Serves(s: State, s': State, id: nat) {
    && HeldAlive(s, id)
    && if s.procs[s.owner[id]].consumer.Acking? then id in s'.fate && id in s'.group.acked
       else
         && HeldAlive(s', id) && s'.owner[id] == s.owner[id]
         && Measure(s'.procs[s'.owner[id]]) < Measure(s.procs[s.owner[id]])
  }

  lemma OwnStep(cfg: Config, s: State, id: nat)
    requires Inv(cfg, s) && HeldAlive(s, id)
    ensures var step := OwnNext(s.procs[s.owner[id]], s.owner[id]);
      StepOf(step, s.owner[id]) && Enabled(s, step) && Serves(s, Apply(cfg, s, step), id)
  {
    hide Inv, OwnNext, Apply, Enabled, Measure, Fifo;
    var p := s.owner[id];
    InvParts(cfg, s);
    HolderHolds(cfg, s, id);
    OwnNextIsEnabled(s, p);
    OwnNextServes(cfg, s, p);
    OwnersGrow(cfg, s, OwnNext(s.procs[p], p));
    StepCosts(cfg, s, OwnNext(s.procs[p], p), p);
  }

  /** The holder, left alone, brings the entry to its end and acknowledges it. */
  lemma {:induction false} Finish(cfg: Config, run: seq<State>, steps: seq<Step>, id: nat)
    returns (run': seq<State>, steps': seq<Step>)
    requires IsRun(cfg, run, steps) && HeldAlive(Last(run), id)
    ensures Continues(cfg, run, steps, run', steps')
    ensures id in Last(run').fate && id in Last(run').group.acked
    ensures forall k :: |steps| <= k < |steps'| ==> StepOf(steps'[k], Last(run).owner[id])
    decreases Measure(Last(run).procs[Last(run).owner[id]])
  {
    hide IsRun, Inv, OwnNext, Apply, Enabled, Measure, StepOf;
    Lengths(cfg, run, steps);
    InvAlways(cfg, run, steps, |run| - 1);
    OwnStep(cfg, Last(run), id);
    var p := Last(run).owner[id];
    var acking := Last(run).procs[p].consumer.Acking?;
    run', steps' := Extend(cfg, run, steps, OwnNext(Last(run).procs[p], p));
    if !acking {
      run', steps' := Finish(cfg, run', steps', id);
    }
  }

  /** Some continuation of the run brings the entry to its end. */
  ghost predicate CanFinish(cfg: Config, run: seq<State>, steps: seq<Step>, id: nat) {
    exists run', steps' :: Continues(cfg, run, steps, run', steps') && run' != [] && id in Last(run').fate
  }

  /** Some continuation of the run acknowledges the entry. */
  ghost predicate CanAck(cfg: Config, run: seq<State>, steps: seq<Step>, id: nat) {
    exists run', steps' :: Continues(cfg, run, steps, run', steps') && run' != [] && id in Last(run').group.acked
  }

  /**
   * Exactly when a delivered entry is lost. It can still be brought to its end, by
   * some continuation of the run, if and only if it is not stranded.
   */
  lemma FinishableIff(cfg: Config, run: seq<State>, steps: seq<Step>, id: nat)
    requires IsRun(cfg, run, steps) && Last(run).group.start <= id < Last(run).group.next
    ensures CanFinish(cfg, run, steps, id) <==> !Stranded(Last(run), id)
  {
    hide IsRun, Inv, Stranded, HeldAlive;
    Lengths(cfg, run, steps);
    InvAlways(cfg, run, steps, |run| - 1);
    DeliveredIs(cfg, Last(run), id);
    if id in Last(run).fate {
      assert Continues(cfg, run, steps, run, steps);
    } else if HeldAlive(Last(run), id) {
      var run', steps' := Finish(cfg, run, steps, id);
    }
    if run', steps' :| Continues(cfg, run, steps, run', steps') && run' != [] && id in Last(run').fate {
      Lengths(cfg, run', steps');
      if Stranded(Last(run), id) {
        assert run'[|run| - 1] == Last(run);
        StrandedForever(cfg, run', steps', |run| - 1, |run'| - 1, id);
        NoFateWhenStranded(Last(run'), id);
      }
    }
  }

  lemma NoFateWhenStranded(s: State, id: nat)
    requires Stranded(s, id)
    ensures id !in s.fate
  {
  }

  // ---- Pending for good ----

  /** The entry reached its end, but its acknowledgement did not take effect. */
  ghost predicate Unacked(s: State, id: nat) {
    id in s.fate && id in s.group.pending
  }

  lemma StaysUnacked(cfg: Config, s: State, step: Step, id: nat)
    requires Inv(cfg, s) && Unacked(s, id) && Enabled(s, step)
    ensures Unacked(Apply(cfg, s, step), id)
  {
    hide Inv, ApplyEnv, ApplyWorker, ApplyConsumer;
    InvParts(cfg, s);
    match step {
      case Worker(p, move) => WorkerRests(cfg, s, p, move);
      case Environment(move) => EnvRests(s, move);
      case Consumer(p, move) => ConsumerKeepsUnacked(cfg, s, p, move, id);
    }
  }

  /** No fate is forgotten, and only an acknowledgement takes an entry from the pending ones. */
  lemma OnlyAcksTake(cfg: Config, s: State, p: nat, move: ConsumerMove, id: nat)
    requires s.group.exists_ && Enabled(s, Consumer(p, move)) && Unacked(s, id)
    ensures Unacked(ApplyConsumer(cfg, s, p, move), id) || (move.Ack? && id == s.procs[p].consumer.id)
  {
    hide ConsumerAfter, SetStatus;
  }

  lemma ConsumerKeepsUnacked(cfg: Config, s: State, p: nat, move: ConsumerMove, id: nat)
    requires ProcsInv(cfg, s) && GroupInv(s) && Unacked(s, id) && Enabled(s, Consumer(p, move))
    ensures Unacked(ApplyConsumer(cfg, s, p, move), id)
  {
    if s.procs[p].consumer.InFlight() {
      InFlightIsOwned(cfg, s, p);
      assert Fated(s, s.procs[p].consumer.id) <==> !HeldBy(s.procs[p], s.procs[p].consumer.id);
    }
    assert s.group.exists_ by { assert s.group.start <= id < s.group.next; }
    hide ProcsInv, ApplyConsumer, HeldBy;
    OnlyAcksTake(cfg, s, p, move, id);
  }

  lemma {:induction false} UnackedForever(cfg: Config, run: seq<State>, steps: seq<Step>, i: nat, j: nat, id: nat)
    requires IsRun(cfg, run, steps) && i <= j < |run| && Unacked(run[i], id)
    ensures Unacked(run[j], id)
  {
    hide Inv, Unacked, Apply, Enabled;
    if i < j {
      UnackedForever(cfg, run, steps, i, j - 1, id);
      InvAlways(cfg, run, steps, j - 1);
      StaysUnacked(cfg, run[j - 1], steps[j - 1], id);
    }
  }

  /**
   * Exactly when a pending entry stays pending for good: it can still be
   * acknowledged if and only if a living process holds it. It is then neither
   * stranded nor one whose acknowledgement failed.
   */
  lemma AckableIff(cfg: Config, run: seq<State>, steps: seq<Step>, id: nat)
    requires IsRun(cfg, run, steps) && id in Last(run).group.pending
    ensures CanAck(cfg, run, steps, id) <==> HeldAlive(Last(run), id)
    ensures HeldAlive(Last(run), id) <==> !Stranded(Last(run), id) && !Unacked(Last(run), id)
  {
    hide IsRun, Inv, Stranded, HeldAlive;
    Lengths(cfg, run, steps);
    InvAlways(cfg, run, steps, |run| - 1);
    PendingIsDelivered(cfg, Last(run), id);
    DeliveredIs(cfg, Last(run), id);
    if HeldAlive(Last(run), id) {
      assert id !in Last(run).fate by { HeldHasNoFate(Last(run), id); }
      var run', steps' := Finish(cfg, run, steps, id);
    }
    if run', steps' :| Continues(cfg, run, steps, run', steps') && run' != [] && id in Last(run').group.acked {
      Lengths(cfg, run', steps');
      InvAlways(cfg, run', steps', |run'| - 1);
      AckedHasFate(cfg, Last(run'), id);
      assert run'[|run| - 1] == Last(run);
      if Unacked(Last(run), id) {
        UnackedForever(cfg, run', steps', |run| - 1, |run'| - 1, id);
      }
      assert CanFinish(cfg, run, steps, id);
      FinishableIff(cfg, run, steps, id);
    }
  }

  lemma HeldHasNoFate(s: State, id: nat)
    requires HeldAlive(s, id)
    ensures id !in s.fate
  {
  }

  lemma PendingIsDelivered(cfg: Config, s: State, id: nat)
    requires Inv(cfg, s) && id in s.group.pending
    ensures s.group.start <= id < s.group.next
  {
    hide Inv;
    InvParts(cfg, s);
  }

  lemma AckedHasFate(cfg: Config, s: State, id: nat)
    requires Inv(cfg, s) && id in s.group.acked
    ensures id in s.fate && id !in s.group.pending
  {
    hide Inv;
    InvParts(cfg, s);
  }
}

/** Where every delivered entry is: conservation of fates, and how many can be pending. */
module Accounting {
  import opened Prelude
  import opened Messages
  import opened RedisBackend
  import opened Cluster
  import opened ClusterInvariant
  import opened OpHistory
  import opened Delivery

  /** Delivered, but the reply never reached a process. */
  ghost function Unseen(s: State): set<nat> {
    set id | id in Range(s.group.start, s.group.next) && id !in s.owner
  }

  /** Held by a living process. */
  ghost function InFlight(s: State): set<nat> {
    set id | id in s.owner && id !in s.fate && s.owner[id] < |s.procs| && s.procs[s.owner[id]].alive
  }

  /** Held by a process that crashed. */
  ghost function Orphaned(s: State): set<nat> {
    set id | id in s.owner && id !in s.fate && s.owner[id] < |s.procs| && !s.procs[s.owner[id]].alive
  }

  ghost function SkippedIds(s: State): set<nat> { set id | id in s.fate && s.fate[id].Skipped? }

  ghost function ForwardedIds(s: State): set<nat> { set id | id in s.fate && s.fate[id].Forwarded? }

  ghost function ProcessedIds(s: State): set<nat> { set id | id in s.fate && s.fate[id].Processed? }

  ghost function DeadLetteredIds(s: State): set<nat> { set id | id in s.fate && s.fate[id].DeadLettered? }

  lemma FourSizes<T>(a: set<T>, b: set<T>, c: set<T>, d: set<T>)
    requires a !! b && (a + b) !! c && (a + b + c) !! d
    ensures |a + b + c + d| == |a| + |b| + |c| + |d|
  {
    assert |a + b| == |a| + |b|;
    assert |a + b + c| == |a + b| + |c|;
  }

  lemma FatesPartition(s: State)
    ensures |s.fate.Keys| == |SkippedIds(s)| + |ForwardedIds(s)| + |ProcessedIds(s)| + |DeadLetteredIds(s)|
  {
    assert s.fate.Keys == SkippedIds(s) + ForwardedIds(s) + ProcessedIds(s) + DeadLetteredIds(s);
    FourSizes(SkippedIds(s), ForwardedIds(s), ProcessedIds(s), DeadLetteredIds(s));
  }

  /** Every delivered entry is in exactly one of four places. */
  lemma DeliveredPartition(s: State)
    requires GroupInv(s)
    ensures Unseen(s) + InFlight(s) + Orphaned(s) + s.fate.Keys == Range(s.group.start, s.group.next)
    ensures Unseen(s) !! InFlight(s) && (Unseen(s) + InFlight(s)) !! Orphaned(s)
    ensures (Unseen(s) + InFlight(s) + Orphaned(s)) !! s.fate.Keys
  {
    hide HeldBy;
    forall id ensures id in Unseen(s) + InFlight(s) + Orphaned(s) + s.fate.Keys
        <==> id in Range(s.group.start, s.group.next) {
    }
  }

  /**
   * Fate conservation. In every reachable state with a group, what was appended
   * since its creation is the undelivered, the unseen, the in-flight, the
   * orphaned, the skipped, the forwarded, the processed and the dead-lettered
   * entries, each counted once.
   */
  lemma FateConservation(cfg: Config, run: seq<State>, steps: seq<Step>, i: nat)
    requires IsRun(cfg, run, steps) && i < |run| && run[i].group.exists_
    ensures var s := run[i];
      |s.stream| - s.group.start ==
        (|s.stream| - s.group.next) + |Unseen(s)| + |InFlight(s)| + |Orphaned(s)|
        + |SkippedIds(s)| + |ForwardedIds(s)| + |ProcessedIds(s)| + |DeadLetteredIds(s)|
  {
    hide IsRun, Inv;
    InvAlways(cfg, run, steps, i);
    InvParts(cfg, run[i]);
    var s := run[i];
    RangeSize(s.group.start, s.group.next);
    DeliveredPartition(s);
    FatesPartition(s);
    FourSizes(Unseen(s), InFlight(s), Orphaned(s), s.fate.Keys);
  }

  /** A delivered entry is pending or acknowledged, never both; what has no fate yet is pending. */
  lemma PendingOrAcked(cfg: Config, run: seq<State>, steps: seq<Step>, i: nat)
    requires IsRun(cfg, run, steps) && i < |run|
    ensures var s := run[i];
      && s.group.pending !! s.group.acked
      && s.group.pending + s.group.acked == Range(s.group.start, s.group.next)
      && s.group.acked <= s.fate.Keys
      && InFlight(s) + Orphaned(s) + Unseen(s) == s.group.pending - s.fate.Keys
  {
    hide IsRun, Inv, ProcsInv, FateInv, OpsInv, HeldBy;
    InvAlways(cfg, run, steps, i);
    InvParts(cfg, run[i]);
    var s := run[i];
    forall id ensures id in s.group.pending + s.group.acked <==> id in Range(s.group.start, s.group.next) {
    }
    DeliveredPartition(s);
    forall id ensures id in InFlight(s) + Orphaned(s) + Unseen(s) <==> id in s.group.pending - s.fate.Keys {
    }
  }

  // ---- Without faults ----

  /** No command fails, and no process is shut down or crashes. */
  predicate Clean(step: Step) {
    match step
    case Environment(move) => !move.Cancel? && !move.Crash?
    case Consumer(_, move) =>
      (move.EnsureGroup? || move.Read? || move.Announce? || move.Bury? || move.Ack?) ==> move.reply.Ok?
    case Worker(_, move) =>
      (move.Emit? || move.Increment? || move.Look? || move.Complete?) ==> move.reply.Ok?
  }

  ghost predicate CleanState(s: State) {
    && (forall p :: 0 <= p < |s.procs| ==> s.procs[p].alive)
    && s.group.pending !! s.fate.Keys
    && s.group.pending <= s.owner.Keys
  }

  lemma CleanStep(cfg: Config, s: State, step: Step)
    requires GroupInv(s) && CleanState(s) && Enabled(s, step) && Clean(step)
    ensures CleanState(Apply(cfg, s, step))
  {
    hide ApplyEnv, ApplyConsumer, ApplyWorker, GroupInv;
    match step {
      case Environment(move) => CleanEnv(s, move);
      case Consumer(p, move) => CleanConsumer(cfg, s, p, move);
      case Worker(p, move) =>
        WorkerTouches(cfg, s, p, move);
    }
  }

  lemma CleanEnv(s: State, move: EnvMove)
    requires CleanState(s) && EnvCan(s, move) && Clean(Environment(move))
    ensures CleanState(ApplyEnv(s, move))
  {
    hide HSet, DropBuffer, DropStatus;
  }

  lemma CleanConsumer(cfg: Config, s: State, p: nat, move: ConsumerMove)
    requires GroupInv(s) && CleanState(s) && Enabled(s, Consumer(p, move)) && Clean(Consumer(p, move))
    ensures CleanState(ApplyConsumer(cfg, s, p, move))
  {
    FetchedByRead(cfg, s, s.procs[p], move);
    hide ConsumerAfter, SetStatus, HeldBy;
  }

  lemma {:induction false} CleanAlways(cfg: Config, run: seq<State>, steps: seq<Step>, i: nat)
    requires IsRun(cfg, run, steps) && i < |run| && forall k :: 0 <= k < i ==> Clean(steps[k])
    ensures CleanState(run[i])
  {
    hide Inv, CleanState, Apply, Enabled, Clean;
    if i == 0 {
      assert CleanState(INITIAL) by { InitiallyClean(); }
    } else {
      CleanAlways(cfg, run, steps, i - 1);
      InvAlways(cfg, run, steps, i - 1);
      InvParts(cfg, run[i - 1]);
      CleanStep(cfg, run[i - 1], steps[i - 1]);
    }
  }

  lemma InitiallyClean()
    ensures CleanState(INITIAL)
  {
  }

  /** The entries held by the first `n` processes. */
  ghost function HeldByFirst(procs: seq<Proc>, n: nat): set<nat>
    requires n <= |procs|
  {
    if n == 0 then {}
    else HeldByFirst(procs, n - 1) + (if procs[n - 1].consumer.InFlight() then {procs[n - 1].consumer.id} else {})
  }

  lemma {:induction false} OneEach(procs: seq<Proc>, n: nat)
    requires n <= |procs|
    ensures |HeldByFirst(procs, n)| <= n
    ensures forall p :: 0 <= p < n && procs[p].consumer.InFlight() ==> procs[p].consumer.id in HeldByFirst(procs, n)
  {
    if n > 0 {
      OneEach(procs, n - 1);
    }
  }

  /**
   * Without faults or shutdown exactly the in-flight entries are pending, at most
   * one per process, so every fetched entry is acknowledged before the next one.
   */
  lemma CleanPending(cfg: Config, run: seq<State>, steps: seq<Step>, i: nat)
    requires IsRun(cfg, run, steps) && i < |run| && forall k :: 0 <= k < i ==> Clean(steps[k])
    ensures run[i].group.pending == InFlight(run[i])
    ensures |run[i].group.pending| <= |run[i].procs|
  {
    hide IsRun, Inv, ProcsInv, FateInv, OpsInv, Clean;
    var s := run[i];
    CleanAlways(cfg, run, steps, i);
    InvAlways(cfg, run, steps, i);
    InvParts(cfg, s);
    forall id | id in s.group.pending ensures id in InFlight(s) && id in HeldByFirst(s.procs, |s.procs|) {
      assert !Fated(s, id);
      assert HeldBy(s.procs[s.owner[id]], id);
      OneEach(s.procs, |s.procs|);
    }
    forall id | id in InFlight(s) ensures id in s.group.pending {
      assert id !in s.group.acked;
    }
    OneEach(s.procs, |s.procs|);
    SubsetSize(s.group.pending, HeldByFirst(s.procs, |s.procs|));
  }
}

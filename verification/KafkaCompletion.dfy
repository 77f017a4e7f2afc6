/**
 * The completion protocol behind Kafka delivery. Each call of `process` is one
 * delivery, and the cluster works through the deliveries, not through the log: a
 * replayed request is announced and counted again. Every owner hands an offset to
 * `process` at most once, so crashes bound the deliveries.
 */
module KafkaCompletion {
  import opened Prelude
  import opened Messages
  import opened Admission
  import opened Cluster
  import opened Completion
  import K = Kafka

  // ---- Deliveries ----

  function Crashes(steps: seq<K.Step>): nat {
    if steps == [] then 0
    else Crashes(steps[..|steps| - 1]) + if steps[|steps| - 1].Crash? then 1 else 0
  }

  /** One call of `process`; `owner` counts the owners that crashed before. */
  datatype Delivery = Delivery(offset: nat, value: Text, owner: nat)

  /** What was handed to `process`, in order. */
  function Deliveries(run: seq<K.State>, steps: seq<K.Step>): seq<Delivery>
    requires |run| == |steps| + 1
    decreases |steps|
  {
    if steps == [] then []
    else
      var n := |steps| - 1;
      Deliveries(run[..n + 1], steps[..n]) + NewDelivery(run[n], steps[n], Crashes(steps[..n]))
  }

  function NewDelivery(s: K.State, step: K.Step, owner: nat): seq<Delivery> {
    if step.Process? && K.Enabled(s, step) then [Delivery(s.stage.offset, s.log[s.stage.offset], owner)] else []
  }

  /** The cluster's entries are deliveries, in order. */
  ghost predicate Fed(stream: seq<Entry>, deliveries: seq<Delivery>) {
    |stream| <= |deliveries| && forall k :: 0 <= k < |stream| ==> stream[k] == Entry(deliveries[k].value, Empty)
  }

  /** The offsets of the log that hold requests counted under `rk`. */
  ghost function LogRequests(cfg: Config, log: seq<Text>, rk: string): set<nat> {
    set offset: nat | offset in Range(0, |log|) && IsRequestFor(cfg, Entry(log[offset], Empty), rk)
  }

  // ---- Every owner delivers an offset once ----

  /**
   * The deliveries so far increase, first by owner and then by offset, and those
   * of the current owner lie before its position.
   */
  ghost predicate InOrder(d: seq<Delivery>, s: K.State, crashes: nat) {
    && (forall a, b :: 0 <= a < b < |d| ==>
          d[a].owner < d[b].owner || (d[a].owner == d[b].owner && d[a].offset < d[b].offset))
    && (forall a :: 0 <= a < |d| ==> d[a].offset < |s.log| && d[a].value == s.log[d[a].offset])
    && (forall a :: 0 <= a < |d| ==> d[a].owner <= crashes)
    && (s.stage.Down? ==> forall a :: 0 <= a < |d| ==> d[a].owner < crashes)
    && (!s.stage.Down? ==> forall a :: 0 <= a < |d| && d[a].owner == crashes ==> d[a].offset < s.stage.next)
    && (s.stage.Fetched? ==> forall a :: 0 <= a < |d| && d[a].owner == crashes ==> d[a].offset < s.stage.offset)
  }

  lemma InOrderStep(d: seq<Delivery>, s: K.State, step: K.Step, crashes: nat)
    requires InOrder(d, s, crashes) && K.Inv(s) && K.Enabled(s, step)
    ensures InOrder(d + NewDelivery(s, step, crashes), K.Apply(s, step), crashes + if step.Crash? then 1 else 0)
  {
  }

  lemma {:induction false} DeliveriesInOrder(run: seq<K.State>, steps: seq<K.Step>)
    requires K.IsRun(run, steps)
    ensures InOrder(Deliveries(run, steps), run[|steps|], Crashes(steps))
    decreases |steps|
  {
    if steps != [] {
      hide K.Inv, K.Enabled, K.Apply, InOrder, NewDelivery;
      var n := |steps| - 1;
      DeliveriesInOrder(run[..n + 1], steps[..n]);
      K.InvAlways(run, steps, n);
      InOrderStep(Deliveries(run[..n + 1], steps[..n]), run[n], steps[n], Crashes(steps[..n]));
    }
  }

  /** Positions of one owner carry different offsets, so there are no more of the one than of the other. */
  lemma {:induction false} PositionsAreOffsets(d: seq<Delivery>, positions: set<nat>, offsets: set<nat>)
    requires forall k :: k in positions ==> k < |d| && d[k].offset in offsets
    requires forall a, b :: a in positions && b in positions && a < b ==> d[a].offset != d[b].offset
    ensures |positions| <= |offsets|
    decreases positions
  {
    if positions != {} {
      var k :| k in positions;
      forall a | a in positions - {k} ensures d[a].offset in offsets - {d[k].offset} {
        assert a < k || k < a;
      }
      PositionsAreOffsets(d, positions - {k}, offsets - {d[k].offset});
    }
  }

  /** No owner delivers an offset twice. */
  ghost predicate OncePerOwner(d: seq<Delivery>) {
    forall a, b :: 0 <= a < b < |d| && d[a].owner == d[b].owner ==> d[a].offset != d[b].offset
  }

  function OfOwner(d: seq<Delivery>, positions: set<nat>, owner: nat): (r: set<nat>)
    requires forall k :: k in positions ==> k < |d|
    ensures forall k :: k in r <==> k in positions && d[k].owner == owner
  {
    set k | k in positions && d[k].owner == owner
  }

  /** `a` added `b` times. */
  function Times(a: nat, b: nat): nat {
    if b == 0 then 0 else Times(a, b - 1) + a
  }

  lemma {:induction false} TimesIsProduct(a: nat, b: nat)
    ensures Times(a, b) == a * b
  {
    if b > 0 {
      TimesIsProduct(a, b - 1);
    }
  }

  lemma {:induction false} TimesGrows(a: nat, b: nat, c: nat, d: nat)
    requires a <= c && b <= d
    ensures Times(a, b) <= Times(c, d)
  {
    if b < d {
      TimesGrows(a, b, c, d - 1);
    } else if b > 0 {
      TimesGrows(a, b - 1, c, d - 1);
    }
  }

  lemma LastIsOnce(d: seq<Delivery>, positions: set<nat>)
    requires OncePerOwner(d) && forall k :: k in positions ==> k < |d|
    requires forall a, b :: a in positions && b in positions ==> d[a].owner == d[b].owner
    ensures forall a, b :: a in positions && b in positions && a < b ==> d[a].offset != d[b].offset
  {
  }

  /** Owner by owner: `owners` owners deliver at most `owners` times as many positions as there are offsets. */
  lemma {:induction false} PositionsOfOwners(d: seq<Delivery>, positions: set<nat>, offsets: set<nat>, owners: nat)
    requires OncePerOwner(d)
    requires forall k :: k in positions ==> k < |d| && d[k].offset in offsets && d[k].owner < owners
    ensures |positions| <= Times(|offsets|, owners)
  {
    hide OncePerOwner;
    if owners == 0 {
      assert positions == {} by { assert forall k :: k !in positions; }
    } else {
      var last := OfOwner(d, positions, owners - 1);
      var rest := positions - last;
      LastIsOnce(d, last);
      PositionsAreOffsets(d, last, offsets);
      PositionsOfOwners(d, rest, offsets, owners - 1);
      assert positions == last + rest;
    }
  }

  lemma OrderedOnce(d: seq<Delivery>, s: K.State, crashes: nat)
    requires InOrder(d, s, crashes)
    ensures OncePerOwner(d)
  {
  }

  /** A deliverable request of the cluster was delivered, and lies in the log. */
  lemma RequestIsInLog(cfg: Config, s: State, d: seq<Delivery>, ks: K.State, crashes: nat, rk: string, k: nat)
    requires Fed(s.stream, d) && InOrder(d, ks, crashes) && k in Requests(cfg, s, rk)
    ensures k < |d| && d[k].offset in LogRequests(cfg, ks.log, rk) && d[k].owner < crashes + 1
  {
    hide IsRequestFor;
  }

  lemma RequestsAreDelivered(cfg: Config, s: State, d: seq<Delivery>, ks: K.State, crashes: nat, rk: string,
                             n: nat, c: nat)
    requires Fed(s.stream, d) && InOrder(d, ks, crashes) && crashes <= c && |LogRequests(cfg, ks.log, rk)| <= n
    ensures |Requests(cfg, s, rk)| <= Times(n, c + 1)
  {
    OrderedOnce(d, ks, crashes);
    hide InOrder, OncePerOwner, Requests, LogRequests, Fed, Times;
    var positions, offsets := Requests(cfg, s, rk), LogRequests(cfg, ks.log, rk);
    forall k | k in positions ensures k < |d| && d[k].offset in offsets && d[k].owner < c + 1 {
      RequestIsInLog(cfg, s, d, ks, crashes, rk, k);
    }
    PositionsOfOwners(d, positions, offsets, c + 1);
    TimesGrows(|offsets|, c + 1, n, c + 1);
  }

  /** At most `n` requests in the log, at most `c` crashes. */
  ghost predicate Bounded(cfg: Config, krun: seq<K.State>, ksteps: seq<K.Step>, rk: string, n: nat, c: nat)
    requires |krun| == |ksteps| + 1
  {
    |LogRequests(cfg, krun[|ksteps|].log, rk)| <= n && Crashes(ksteps) <= c
  }

  /** Behind Kafka there are at most as many deliverable requests as requests in the log, times owners. */
  lemma RequestsAreInLog(cfg: Config, s: State, krun: seq<K.State>, ksteps: seq<K.Step>, rk: string, n: nat, c: nat)
    requires K.IsRun(krun, ksteps) && Fed(s.stream, Deliveries(krun, ksteps)) && Bounded(cfg, krun, ksteps, rk, n, c)
    ensures |Requests(cfg, s, rk)| <= Times(n, c + 1)
  {
    DeliveriesInOrder(krun, ksteps);
    hide Requests, LogRequests, InOrder, Fed, Times;
    RequestsAreDelivered(cfg, s, Deliveries(krun, ksteps), krun[|ksteps|], Crashes(ksteps), rk, n, c);
  }

  /**
   * No status regression behind Kafka while the requests in the log, times the
   * owners of the partition so far, do not exceed max(total, 1).
   */
  lemma NoRegressionWithinBound(cfg: Config, krun: seq<K.State>, ksteps: seq<K.Step>,
                                run: seq<State>, steps: seq<Step>, i: nat, j: nat, rk: string, total: int,
                                n: nat, c: nat)
    requires K.IsRun(krun, ksteps) && Bounded(cfg, krun, ksteps, rk, n, c)
    requires IsRun(cfg, run, steps) && i < j < |steps| && Fed(run[j].stream, Deliveries(krun, ksteps))
    requires WritesBuffered(run[i], steps[i], rk, total)
    requires Times(n, c + 1) <= Max(total, 1)
    ensures !WritesProcessing(run[j], steps[j], rk)
  {
    Lengths(cfg, run, steps);
    hide K.IsRun, IsRun, WritesBuffered, WritesProcessing, Requests, Fed, Deliveries, Times, Bounded;
    RequestsAreInLog(cfg, run[j], krun, ksteps, rk, n, c);
    NoStatusRegression(cfg, run, steps, i, j, rk, total);
  }

  ghost predicate NoCrash(steps: seq<K.Step>) {
    forall k :: 0 <= k < |steps| ==> !steps[k].Crash?
  }

  lemma {:induction false} NoneCrashed(steps: seq<K.Step>)
    requires NoCrash(steps)
    ensures Crashes(steps) == 0
  {
    if steps != [] {
      NoneCrashed(steps[..|steps| - 1]);
    }
  }

  /** As long as no owner crashes, the bound speaks of the requests in the log. */
  lemma NoRegressionWithoutCrash(cfg: Config, krun: seq<K.State>, ksteps: seq<K.Step>,
                                 run: seq<State>, steps: seq<Step>, i: nat, j: nat, rk: string, total: int)
    requires K.IsRun(krun, ksteps) && NoCrash(ksteps)
    requires IsRun(cfg, run, steps) && i < j < |steps| && Fed(run[j].stream, Deliveries(krun, ksteps))
    requires WritesBuffered(run[i], steps[i], rk, total)
    requires |LogRequests(cfg, krun[|ksteps|].log, rk)| <= Max(total, 1)
    ensures !WritesProcessing(run[j], steps[j], rk)
  {
    assert |krun| == |ksteps| + 1;
    hide K.IsRun, IsRun, WritesBuffered, WritesProcessing, LogRequests, Fed, Deliveries, Crashes;
    NoneCrashed(ksteps);
    NoRegressionWithinBound(cfg, krun, ksteps, run, steps, i, j, rk, total,
                            |LogRequests(cfg, krun[|ksteps|].log, rk)|, 0);
  }

  // ---- The two machines side by side ----

  function ClusterCrashes(steps: seq<Step>): nat {
    if steps == [] then 0
    else
      var last := steps[|steps| - 1];
      ClusterCrashes(steps[..|steps| - 1]) + if last.Environment? && last.env.Crash? then 1 else 0
  }

  /** After `t` steps of the partition and the steps `done` of the cluster: the same deliveries, the same crashes. */
  ghost predicate Matches(krun: seq<K.State>, ksteps: seq<K.Step>, t: nat, s: State, done: seq<Step>)
    requires |krun| == |ksteps| + 1 && t <= |ksteps|
  {
    var d := Deliveries(krun[..t + 1], ksteps[..t]);
    |s.stream| == |d| && Fed(s.stream, d) && ClusterCrashes(done) == Crashes(ksteps[..t])
  }

  /**
   * One execution: `clock[i]` tells how far the partition was when the cluster had
   * taken `i` steps. At every moment the cluster's stream is what has been
   * delivered until then, and as many processes as owners have crashed.
   */
  ghost predicate InStep(krun: seq<K.State>, ksteps: seq<K.Step>, run: seq<State>, steps: seq<Step>, clock: seq<nat>) {
    && |krun| == |ksteps| + 1 && |run| == |steps| + 1 && |clock| == |run|
    && (forall i :: 0 <= i < |clock| ==> clock[i] <= |ksteps|)
    && (forall i, j :: 0 <= i < j < |clock| ==> clock[i] <= clock[j])
    && forall i :: 0 <= i < |run| ==> Matches(krun, ksteps, clock[i], run[i], steps[..i])
  }

  /** An execution in which PROCESSING follows BUFFERED, with `n` requests in the log and at most `c` crashes. */
  ghost predicate Regresses(cfg: Config, krun: seq<K.State>, ksteps: seq<K.Step>, run: seq<State>, steps: seq<Step>,
                            clock: seq<nat>, i: nat, j: nat, rk: string, total: int, n: nat, c: nat) {
    && K.IsRun(krun, ksteps) && IsRun(cfg, run, steps) && InStep(krun, ksteps, run, steps, clock)
    && i < j < |steps|
    && WritesBuffered(run[i], steps[i], rk, total)
    && WritesProcessing(run[j], steps[j], rk)
    && |LogRequests(cfg, krun[|ksteps|].log, rk)| == n
    && Crashes(ksteps) <= c
  }

  // ---- The bound holds ----

  lemma {:induction false} CrashesGrow(steps: seq<K.Step>, t: nat)
    requires t <= |steps|
    ensures Crashes(steps[..t]) <= Crashes(steps)
  {
    if t < |steps| {
      CrashesGrow(steps[..|steps| - 1], t);
      assert steps[..|steps| - 1][..t] == steps[..t];
    } else {
      assert steps[..t] == steps;
    }
  }

  lemma PrefixIsRun(run: seq<K.State>, steps: seq<K.Step>, t: nat)
    requires K.IsRun(run, steps) && t <= |steps|
    ensures K.IsRun(run[..t + 1], steps[..t]) && run[..t + 1][t] == run[t] && run[t].log <= run[|steps|].log
  {
    K.CommittedGrows(run, steps, t, |steps|);
    hide K.Enabled, K.Apply;
  }

  lemma LogRequestsGrow(cfg: Config, log: seq<Text>, log': seq<Text>, rk: string)
    requires log <= log'
    ensures |LogRequests(cfg, log, rk)| <= |LogRequests(cfg, log', rk)|
  {
    hide IsRequestFor;
    SubsetSize(LogRequests(cfg, log, rk), LogRequests(cfg, log', rk));
  }

  /** A regression takes more than max(total, 1) deliveries, so n * (c + 1) has to exceed it. */
  lemma RegressionExceeds(cfg: Config, krun: seq<K.State>, ksteps: seq<K.Step>, run: seq<State>, steps: seq<Step>,
                          clock: seq<nat>, i: nat, j: nat, rk: string, total: int, n: nat, c: nat)
    requires Regresses(cfg, krun, ksteps, run, steps, clock, i, j, rk, total, n, c)
    ensures Times(n, c + 1) > Max(total, 1)
  {
    Lengths(cfg, run, steps);
    hide K.IsRun, IsRun, WritesBuffered, WritesProcessing, LogRequests, Fed, Deliveries, Crashes, ClusterCrashes;
    var t := clock[j];
    assert Matches(krun, ksteps, t, run[j], steps[..j]);
    PrefixIsRun(krun, ksteps, t);
    CrashesGrow(ksteps, t);
    LogRequestsGrow(cfg, krun[t].log, krun[|ksteps|].log, rk);
    if Times(n, c + 1) <= Max(total, 1) {
      assert Bounded(cfg, krun[..t + 1], ksteps[..t], rk, n, c);
      NoRegressionWithinBound(cfg, krun[..t + 1], ksteps[..t], run, steps, i, j, rk, total, n, c);
    }
  }
}

/**
 * The bound behind Kafka is exact: executions in which owners crash between the
 * return of `process` and the commit, so that every new owner starts over, and
 * PROCESSING is written after BUFFERED.
 */
module KafkaReplay {
  import opened Prelude
  import opened Messages
  import opened Admission
  import opened RedisBackend
    import opened Dispatcher
  import opened Cluster
  import opened Completion
  import opened KafkaCompletion
  import Scenes = Regression
  import K = Kafka

  // ---- Taking steps ----

  /** One more step of the partition. */
  lemma KStep(krun: seq<K.State>, ksteps: seq<K.Step>, step: K.Step) returns (krun': seq<K.State>, ksteps': seq<K.Step>)
    requires K.IsRun(krun, ksteps) && K.Enabled(krun[|ksteps|], step)
    ensures K.IsRun(krun', ksteps') && |krun'| == |ksteps'| + 1
    ensures ksteps' == ksteps + [step] && krun' == krun + [K.Apply(krun[|ksteps|], step)]
    ensures Deliveries(krun', ksteps') == Deliveries(krun, ksteps) + NewDelivery(krun[|ksteps|], step, Crashes(ksteps))
    ensures Crashes(ksteps') == Crashes(ksteps) + if step.Crash? then 1 else 0
  {
    hide NewDelivery, K.Apply, K.Enabled;
    krun', ksteps' := K.Extend(krun, ksteps, step);
    assert krun'[..|ksteps| + 1] == krun && ksteps'[..|ksteps|] == ksteps;
  }

  /** More steps of the partition leave what was in step in step. */
  lemma StaysInStep(krun: seq<K.State>, ksteps: seq<K.Step>, krun': seq<K.State>, ksteps': seq<K.Step>,
                    run: seq<State>, steps: seq<Step>, clock: seq<nat>)
    requires InStep(krun, ksteps, run, steps, clock) && |krun'| == |ksteps'| + 1 && krun <= krun' && ksteps <= ksteps'
    ensures InStep(krun', ksteps', run, steps, clock)
  {
    hide Fed, Deliveries, Crashes, ClusterCrashes;
    forall i | 0 <= i < |run| ensures Matches(krun', ksteps', clock[i], run[i], steps[..i]) {
      assert Matches(krun, ksteps, clock[i], run[i], steps[..i]);
      assert krun'[..clock[i] + 1] == krun[..clock[i] + 1] && ksteps'[..clock[i]] == ksteps[..clock[i]];
    }
  }

  /** One more step of the cluster, the partition being where its run ends. */
  lemma Tick(krun: seq<K.State>, ksteps: seq<K.Step>, run: seq<State>, steps: seq<Step>, clock: seq<nat>,
             run': seq<State>, steps': seq<Step>)
    returns (clock': seq<nat>)
    requires InStep(krun, ksteps, run, steps, clock)
    requires |run'| == |run| + 1 && |steps'| == |steps| + 1 && run <= run' && steps <= steps'
    requires Matches(krun, ksteps, |ksteps|, run'[|run|], steps')
    ensures InStep(krun, ksteps, run', steps', clock') && clock <= clock'
  {
    hide Matches;
    clock' := clock + [|ksteps|];
    forall i | 0 <= i < |run'| ensures Matches(krun, ksteps, clock'[i], run'[i], steps'[..i]) {
      if i < |run| {
        assert steps'[..i] == steps[..i] && run'[i] == run[i];
      } else {
        assert steps'[..i] == steps';
      }
    }
  }

  lemma CountCrash(steps: seq<Step>, step: Step)
    ensures ClusterCrashes(steps + [step])
         == ClusterCrashes(steps) + if step.Environment? && step.env.Crash? then 1 else 0
  {
    assert (steps + [step])[..|steps|] == steps;
  }

  /** Steps of goroutines append nothing to the stream. */
  lemma GoroutinesKeepStream(cfg: Config, s: State, step: Step)
    requires Enabled(s, step) && !step.Environment?
    ensures Apply(cfg, s, step).stream == s.stream
  {
    hide ConsumerAfter, WorkerAfter, SetStatus, SinkOf, Written, CanIncrement, Counter, ReadMeta, HSet, HIncr;
  }

  lemma QuietMatch(cfg: Config, krun: seq<K.State>, ksteps: seq<K.Step>, s: State, done: seq<Step>, step: Step)
    requires |krun| == |ksteps| + 1 && Matches(krun, ksteps, |ksteps|, s, done)
    requires Enabled(s, step) && !step.Environment?
    ensures Matches(krun, ksteps, |ksteps|, Apply(cfg, s, step), done + [step])
  {
    hide Enabled, Apply, Fed, Deliveries, Crashes, ClusterCrashes;
    GoroutinesKeepStream(cfg, s, step);
    CountCrash(done, step);
  }

  /** While goroutines move, the partition waits. */
  lemma {:induction false} QuietTicks(cfg: Config, krun: seq<K.State>, ksteps: seq<K.Step>,
                                      run: seq<State>, steps: seq<Step>, clock: seq<nat>,
                                      run': seq<State>, steps': seq<Step>)
    returns (clock': seq<nat>)
    requires |krun| == |ksteps| + 1 && |run| == |steps| + 1
    requires InStep(krun, ksteps, run, steps, clock) && Matches(krun, ksteps, |ksteps|, run[|steps|], steps)
    requires IsRun(cfg, run', steps') && |run'| == |steps'| + 1 && run <= run' && steps <= steps'
    requires Scenes.NoEnvironment(steps, steps')
    ensures InStep(krun, ksteps, run', steps', clock') && clock <= clock'
    ensures Matches(krun, ksteps, |ksteps|, run'[|steps'|], steps')
    decreases |steps'|
  {
    hide IsRun, InStep, Matches, Enabled, Apply;
    var n := |steps'|;
    if n == |steps| {
      assert run' == run && steps' == steps;
      clock' := clock;
    } else {
      PrefixOfRun(cfg, run', steps', n - 1);
      var shorter := steps'[..n - 1];
      clock' := QuietTicks(cfg, krun, ksteps, run, steps, clock, run'[..n], shorter);
      assert run'[..n][n - 1] == run'[n - 1];
      QuietMatch(cfg, krun, ksteps, run'[n - 1], shorter, steps'[n - 1]);
      assert steps' == shorter + [steps'[n - 1]];
      clock' := Tick(krun, ksteps, run'[..n], shorter, clock', run', steps');
    }
  }

  lemma PrefixOfRun(cfg: Config, run: seq<State>, steps: seq<Step>, n: nat)
    requires IsRun(cfg, run, steps) && n < |steps|
    ensures IsRun(cfg, run[..n + 1], steps[..n])
    ensures Enabled(run[n], steps[n]) && run[n + 1] == Apply(cfg, run[n], steps[n]) && |run| == |steps| + 1
  {
    hide Enabled, Apply;
  }

  // ---- Both machines between two deliveries ----

  /** An execution so far. */
  datatype Pair = Pair(krun: seq<K.State>, ksteps: seq<K.Step>, run: seq<State>, steps: seq<Step>, clock: seq<nat>)

  ghost predicate IsPair(cfg: Config, x: Pair) {
    && K.IsRun(x.krun, x.ksteps) && |x.krun| == |x.ksteps| + 1
    && IsRun(cfg, x.run, x.steps) && |x.run| == |x.steps| + 1
    && InStep(x.krun, x.ksteps, x.run, x.steps, x.clock)
    && Matches(x.krun, x.ksteps, |x.ksteps|, Last(x.run), x.steps)
  }

  ghost predicate Grows(x: Pair, y: Pair) {
    && x.krun <= y.krun && x.ksteps <= y.ksteps && x.run <= y.run && x.steps <= y.steps && x.clock <= y.clock
  }

  /** The log holds `n` copies of the value. */
  ghost predicate Copies(log: seq<Text>, value: Text, n: nat) {
    |log| == n && forall k :: 0 <= k < n ==> log[k] == value
  }

  /**
   * The latest owner has served the first `o` of `n` equal requests, nothing was
   * ever committed, and its process stands idle with everything counted.
   */
  ghost predicate Between(cfg: Config, x: Pair, sc: Scenes.Scene, value: Text, n: nat, o: nat) {
    && IsPair(cfg, x)
    && sc.e == Entry(value, Empty) && value.Json? && Scenes.GoodScene(cfg, sc)
    && var s := x.krun[|x.ksteps|];
    && s.stage == K.Ready(o) && s.committed == 0 && Copies(s.log, value, n) && o <= n
    && Crashes(x.ksteps) == sc.p
    && Scenes.At(sc, Last(x.run), Idle, Resting, [], sc.n, sc.n)
  }

  /** The partition hands the next offset to `process`, and the entry is in the cluster's stream. */
  lemma HandOver(cfg: Config, x: Pair, sc: Scenes.Scene, value: Text, n: nat, o: nat) returns (y: Pair)
    requires Between(cfg, x, sc, value, n, o) && o < n
    ensures IsPair(cfg, y) && Grows(x, y)
    ensures |y.steps| == |x.steps| + 1 && y.steps[|x.steps|] == Environment(Append(sc.e))
    ensures y.krun[|y.ksteps|].stage == K.Committing(o + 1, o)
    ensures y.krun[|y.ksteps|].committed == 0 && y.krun[|y.ksteps|].log == x.krun[|x.ksteps|].log
    ensures Crashes(y.ksteps) == sc.p
    ensures |y.ksteps| == |x.ksteps| + 2 && K.Processes(y.krun[|x.ksteps| + 1], y.ksteps[|x.ksteps| + 1], o)
    ensures Scenes.At(sc.(n := sc.n + 1), Last(y.run), Idle, Resting, [], sc.n, sc.n)
  {
    hide IsRun, K.IsRun, InStep, Deliveries, Crashes, ClusterCrashes, Scenes.GoodScene, Scenes.Books;
    var krun, ksteps := KStep(x.krun, x.ksteps, K.Fetch(Ok));
    krun, ksteps := KStep(krun, ksteps, K.Process(true, ""));
    StaysInStep(x.krun, x.ksteps, krun, ksteps, x.run, x.steps, x.clock);
    CountCrash(x.steps, Environment(Append(sc.e)));
    var run, steps := Extend(cfg, x.run, x.steps, Environment(Append(sc.e)));
    assert krun[..|ksteps| + 1] == krun && ksteps[..|ksteps|] == ksteps;
    assert x.krun[..|x.ksteps| + 1] == x.krun && x.ksteps[..|x.ksteps|] == x.ksteps;
    var clock := Tick(krun, ksteps, x.run, x.steps, x.clock, run, steps);
    y := Pair(krun, ksteps, run, steps, clock);
  }

  /** The cluster serves the entry, then the commit fails. */
  lemma ServeNext(cfg: Config, x: Pair, sc: Scenes.Scene, value: Text, n: nat, o: nat) returns (y: Pair, i: nat)
    requires Between(cfg, x, sc, value, n, o) && o < n
    ensures Between(cfg, y, sc.(n := sc.n + 1), value, n, o + 1) && Grows(x, y)
    ensures sc.n + 1 >= sc.total ==>
      i < |y.steps| && WritesBuffered(y.run[i], y.steps[i], sc.rk, sc.total)
  {
    hide IsRun, K.IsRun, InStep, Matches, Deliveries, Crashes, Scenes.At, Scenes.GoodScene, WritesBuffered;
    var h := HandOver(cfg, x, sc, value, n, o);
    var sc' := sc.(n := sc.n + 1);
    assert Scenes.GoodScene(cfg, sc') by { SameScene(cfg, sc, sc'); }
    var run, steps;
    run, steps, i := Scenes.ServeOne(cfg, sc', h.run, h.steps, sc.n);
    Lengths(cfg, run, steps);
    var clock := QuietTicks(cfg, h.krun, h.ksteps, h.run, h.steps, h.clock, run, steps);
    y := FailCommit(cfg, Pair(h.krun, h.ksteps, run, steps, clock), o);
  }

  lemma SameScene(cfg: Config, sc: Scenes.Scene, sc': Scenes.Scene)
    requires Scenes.GoodScene(cfg, sc) && sc'.e == sc.e && sc'.rk == sc.rk
    ensures Scenes.GoodScene(cfg, sc')
  {
  }

  lemma FailCommit(cfg: Config, x: Pair, o: nat) returns (y: Pair)
    requires IsPair(cfg, x) && x.krun[|x.ksteps|].stage == K.Committing(o + 1, o)
    ensures IsPair(cfg, y) && Grows(x, y) && y.run == x.run && y.steps == x.steps
    ensures y.krun[|y.ksteps|] == x.krun[|x.ksteps|].(stage := K.Ready(o + 1)) && Crashes(y.ksteps) == Crashes(x.ksteps)
  {
    hide IsRun, K.IsRun, InStep, Deliveries, Crashes, ClusterCrashes;
    var krun, ksteps := KStep(x.krun, x.ksteps, K.Commit(Error));
    StaysInStep(x.krun, x.ksteps, krun, ksteps, x.run, x.steps, x.clock);
    assert krun[..|ksteps| + 1] == krun && ksteps[..|ksteps|] == ksteps;
    assert x.krun[..|x.ksteps| + 1] == x.krun && x.ksteps[..|x.ksteps|] == x.ksteps;
    y := Pair(krun, ksteps, x.run, x.steps, x.clock);
  }

  /** The owner crashes together with its process, and a new one starts from the committed offset. */
  lemma NewOwner(cfg: Config, x: Pair, sc: Scenes.Scene, value: Text, n: nat, o: nat) returns (y: Pair)
    requires Between(cfg, x, sc, value, n, o)
    ensures Between(cfg, y, sc.(p := sc.p + 1), value, n, 0) && Grows(x, y)
    ensures |y.steps| > |x.steps| && y.steps[|x.steps|] == Environment(Crash(sc.p))
    ensures Last(y.run).stream == Last(x.run).stream
  {
    hide IsRun, K.IsRun, InStep, Deliveries, Crashes, ClusterCrashes, Scenes.GoodScene, Scenes.Books;
    var krun, ksteps := KStep(x.krun, x.ksteps, K.Crash);
    krun, ksteps := KStep(krun, ksteps, K.Start);
    StaysInStep(x.krun, x.ksteps, krun, ksteps, x.run, x.steps, x.clock);
    assert krun[..|ksteps| + 1] == krun && ksteps[..|ksteps|] == ksteps;
    assert x.krun[..|x.ksteps| + 1] == x.krun && x.ksteps[..|x.ksteps|] == x.ksteps;
    CountCrash(x.steps, Environment(Crash(sc.p)));
    var run, steps := Extend(cfg, x.run, x.steps, Environment(Crash(sc.p)));
    var clock := Tick(krun, ksteps, x.run, x.steps, x.clock, run, steps);
    y := StartNext(cfg, Pair(krun, ksteps, run, steps, clock), sc);
    assert Scenes.GoodScene(cfg, sc.(p := sc.p + 1)) by { SameScene(cfg, sc, sc.(p := sc.p + 1)); }
  }

  /** The next process starts and finds the group. */
  lemma StartNext(cfg: Config, x: Pair, sc: Scenes.Scene) returns (y: Pair)
    requires IsPair(cfg, x) && |Last(x.run).procs| == sc.p + 1
    requires var s := Last(x.run);
      Scenes.At(sc, s.(procs := s.procs[sc.p := s.procs[sc.p].(alive := true)]), Idle, Resting, [], sc.n, sc.n)
    ensures IsPair(cfg, y) && Grows(x, y) && y.krun == x.krun && y.ksteps == x.ksteps
    ensures |y.steps| > |x.steps| && Last(y.run).stream == Last(x.run).stream
    ensures Scenes.At(sc.(p := sc.p + 1), Last(y.run), Idle, Resting, [], sc.n, sc.n)
  {
    hide IsRun, K.IsRun, InStep, Deliveries, Crashes, ClusterCrashes, Scenes.Books;
    CountCrash(x.steps, Environment(Start));
    var run, steps := Extend(cfg, x.run, x.steps, Environment(Start));
    var clock := Tick(x.krun, x.ksteps, x.run, x.steps, x.clock, run, steps);
    CountCrash(steps, Consumer(sc.p + 1, EnsureGroup(Ok)));
    var run2, steps2 := Extend(cfg, run, steps, Consumer(sc.p + 1, EnsureGroup(Ok)));
    var clock2 := Tick(x.krun, x.ksteps, run, steps, clock, run2, steps2);
    y := Pair(x.krun, x.ksteps, run2, steps2, clock2);
  }

  // ---- The executions ----

  lemma {:induction false} ProduceCopies(krun: seq<K.State>, ksteps: seq<K.Step>, value: Text, have: nat,
                                         want: nat)
    returns (krun': seq<K.State>, ksteps': seq<K.Step>)
    requires K.IsRun(krun, ksteps) && |krun| == |ksteps| + 1
    requires Deliveries(krun, ksteps) == [] && Crashes(ksteps) == 0
    requires krun[|ksteps|].stage.Down? && krun[|ksteps|].committed == 0
    requires Copies(krun[|ksteps|].log, value, have) && have <= want
    ensures K.IsRun(krun', ksteps') && |krun'| == |ksteps'| + 1
    ensures Deliveries(krun', ksteps') == [] && Crashes(ksteps') == 0
    ensures krun'[|ksteps'|].stage.Down? && krun'[|ksteps'|].committed == 0
    ensures Copies(krun'[|ksteps'|].log, value, want)
    decreases want - have
  {
    krun', ksteps' := krun, ksteps;
    if have < want {
      hide K.IsRun, Deliveries, Crashes;
      krun', ksteps' := KStep(krun, ksteps, K.Produce(value));
      krun', ksteps' := ProduceCopies(krun', ksteps', value, have + 1, want);
    }
  }

  lemma OpenPartition(value: Text, n: nat) returns (krun: seq<K.State>, ksteps: seq<K.Step>)
    ensures K.IsRun(krun, ksteps) && |krun| == |ksteps| + 1
    ensures Deliveries(krun, ksteps) == [] && Crashes(ksteps) == 0
    ensures krun[|ksteps|].stage == K.Ready(0) && krun[|ksteps|].committed == 0 && Copies(krun[|ksteps|].log, value, n)
  {
    krun, ksteps := [K.INITIAL], [];
    assert K.IsRun(krun, ksteps) by { K.NoStepsYet(); }
    krun, ksteps := ProduceCopies(krun, ksteps, value, 0, n);
    hide K.IsRun, Deliveries, Crashes;
    krun, ksteps := KStep(krun, ksteps, K.Start);
  }

  lemma NothingYet(krun: seq<K.State>, ksteps: seq<K.Step>)
    requires |krun| == |ksteps| + 1 && Deliveries(krun, ksteps) == [] && Crashes(ksteps) == 0
    ensures Matches(krun, ksteps, |ksteps|, INITIAL, [])
    ensures InStep(krun, ksteps, [INITIAL], [], [|ksteps|])
  {
    assert krun[..|ksteps| + 1] == krun && ksteps[..|ksteps|] == ksteps;
    hide Deliveries, Crashes;
    var steps: seq<Step> := [];
    assert steps[..0] == [];
  }

  /** The group is created on the empty stream, and the publisher writes its total. */
  lemma Open(cfg: Config, sc: Scenes.Scene, value: Text, n: nat) returns (x: Pair)
    requires sc.n == 0 && sc.p == 0 && sc.e == Entry(value, Empty) && value.Json? && Scenes.GoodScene(cfg, sc)
    ensures Between(cfg, x, sc, value, n, 0) && Last(x.run).stream == []
  {
    hide K.IsRun, InStep, Deliveries, Crashes, ClusterCrashes, Scenes.GoodScene, Scenes.Books;
    var krun, ksteps := OpenPartition(value, n);
    NothingYet(krun, ksteps);
    assert krun[..|ksteps| + 1] == krun && ksteps[..|ksteps|] == ksteps;
    assert ClusterCrashes([]) == 0 by { NoneYet(); }
    CountCrash([], Environment(Start));
    var run, steps := Extend(cfg, [INITIAL], [], Environment(Start));
    var clock := Tick(krun, ksteps, [INITIAL], [], [|ksteps|], run, steps);
    CountCrash(steps, Consumer(0, EnsureGroup(Ok)));
    var run2, steps2 := Extend(cfg, run, steps, Consumer(0, EnsureGroup(Ok)));
    var clock2 := Tick(krun, ksteps, run, steps, clock, run2, steps2);
    var meta := Environment(SetMeta(sc.rk, Total(sc.total)));
    Scenes.FreshBooks(sc.rk, sc.total);
    CountCrash(steps2, meta);
    var run3, steps3 := Extend(cfg, run2, steps2, meta);
    var clock3 := Tick(krun, ksteps, run2, steps2, clock2, run3, steps3);
    x := Pair(krun, ksteps, run3, steps3, clock3);
  }

  lemma NoneYet()
    ensures ClusterCrashes([]) == 0
  {
  }

  /** Being through with `n` offsets under one owner is being at the start under the next one. */
  predicate SameCount(n: nat, p: nat, o: nat, p': nat, o': nat) {
    (p' == p && o' == o) || (o == n && o' == 0 && p' == p + 1)
  }

  /** `k` deliveries bring `p` owners to their end and the next one to offset `o`. */
  predicate Counted(n: nat, p: nat, o: nat, k: nat) {
    Times(n, p) + o == k
  }

  lemma CountStays(n: nat, p: nat, o: nat, p': nat, o': nat, k: nat)
    requires SameCount(n, p, o, p', o') && Counted(n, p, o, k)
    ensures Counted(n, p', o', k) && Counted(n, p', o' + 1, k + 1)
  {
  }

  /** An owner that is through with the log gives way to the next one. */
  lemma NextOffset(cfg: Config, x: Pair, sc: Scenes.Scene, value: Text, n: nat, o: nat)
    returns (y: Pair, sc': Scenes.Scene, o': nat)
    requires Between(cfg, x, sc, value, n, o) && n > 0
    ensures Between(cfg, y, sc', value, n, o') && o' < n && Grows(x, y)
    ensures sc' == sc.(p := sc'.p) && SameCount(n, sc.p, o, sc'.p, o')
    ensures |x.run| == |x.steps| + 1
  {
    PairLengths(cfg, x, sc, value, n, o);
    hide Between, Counted, Scenes.At;
    y, sc', o' := x, sc, o;
    if o == n {
      y := NewOwner(cfg, x, sc, value, n, o);
      sc', o' := sc.(p := sc.p + 1), 0;
    }
  }

  /** Which scene the served deliveries leave, and that BUFFERED was written if there were enough of them. */
  ghost predicate Served(x: Pair, start: Scenes.Scene, sc: Scenes.Scene, n: nat, o: nat, k: nat, i: nat) {
    && sc == start.(n := k, p := sc.p) && Counted(n, sc.p, o, k)
    && (k >= Max(start.total, 1) ==>
          i < |x.steps| && i < |x.run| && WritesBuffered(x.run[i], x.steps[i], start.rk, start.total))
  }

  /** `k` deliveries are served, owner by owner; when `k` reaches the total and one, BUFFERED is written on the way. */
  lemma {:induction false} Reach(cfg: Config, start: Scenes.Scene, value: Text, n: nat, k: nat)
    returns (x: Pair, sc: Scenes.Scene, o: nat, i: nat)
    requires start.n == 0 && start.p == 0 && start.e == Entry(value, Empty) && value.Json?
    requires Scenes.GoodScene(cfg, start) && n > 0
    ensures Between(cfg, x, sc, value, n, o) && Served(x, start, sc, n, o, k, i)
    decreases k
  {
    hide *;
    if k == 0 {
      x := Open(cfg, start, value, n);
      sc, o, i := start, 0, 0;
      NothingServed(x, start, n);
    } else {
      x, sc, o, i := Reach(cfg, start, value, n, k - 1);
      ServedFacts(x, start, sc, n, o, k - 1, i);
      x, sc, o, i := ServeOneMore(cfg, x, sc, value, n, o, k - 1);
      OneMoreServed(x, start, sc, n, o, k, i);
    }
  }

  lemma NothingServed(x: Pair, start: Scenes.Scene, n: nat)
    requires start.n == 0 && start.p == 0
    ensures Served(x, start, start, n, 0, 0, 0)
  {
  }

  lemma NextCounted(cfg: Config, x: Pair, sc: Scenes.Scene, value: Text, n: nat, o: nat, k: nat)
    returns (y: Pair, sc': Scenes.Scene, o': nat)
    requires Between(cfg, x, sc, value, n, o) && n > 0 && Counted(n, sc.p, o, k)
    ensures Between(cfg, y, sc', value, n, o') && o' < n && sc' == sc.(p := sc'.p) && Counted(n, sc'.p, o' + 1, k + 1)
  {
    hide *;
    y, sc', o' := NextOffset(cfg, x, sc, value, n, o);
    CountStays(n, sc.p, o, sc'.p, o', k);
  }

  lemma ServeOneMore(cfg: Config, x: Pair, sc: Scenes.Scene, value: Text, n: nat, o: nat, k: nat)
    returns (y: Pair, sc': Scenes.Scene, o': nat, i: nat)
    requires Between(cfg, x, sc, value, n, o) && Counted(n, sc.p, o, k) && n > 0
    ensures Between(cfg, y, sc', value, n, o') && Counted(n, sc'.p, o', k + 1)
    ensures sc' == sc.(n := sc.n + 1, p := sc'.p)
    ensures |y.run| == |y.steps| + 1
    ensures sc.n + 1 >= sc.total ==> i < |y.steps| && WritesBuffered(y.run[i], y.steps[i], sc.rk, sc.total)
  {
    hide *;
    var z, next, at := NextCounted(cfg, x, sc, value, n, o, k);
    y, i := ServeNext(cfg, z, next, value, n, at);
    sc', o' := next.(n := next.n + 1), at + 1;
    PairLengths(cfg, y, sc', value, n, o');
  }

  lemma ServedFacts(x: Pair, start: Scenes.Scene, sc: Scenes.Scene, n: nat, o: nat, k: nat, i: nat)
    requires Served(x, start, sc, n, o, k, i)
    ensures sc == start.(n := k, p := sc.p) && Counted(n, sc.p, o, k)
  {
    hide WritesBuffered, Counted;
  }

  lemma OneMoreServed(y: Pair, start: Scenes.Scene, sc: Scenes.Scene, n: nat, o: nat, k: nat, i: nat)
    requires sc == start.(n := k, p := sc.p) && Counted(n, sc.p, o, k) && |y.run| == |y.steps| + 1
    requires k >= start.total ==> i < |y.steps| && WritesBuffered(y.run[i], y.steps[i], start.rk, start.total)
    ensures Served(y, start, sc, n, o, k, i)
  {
    hide WritesBuffered, Counted;
  }

  lemma PairLengths(cfg: Config, x: Pair, sc: Scenes.Scene, value: Text, n: nat, o: nat)
    requires Between(cfg, x, sc, value, n, o)
    ensures |x.run| == |x.steps| + 1 && o <= n
  {
    hide K.IsRun, IsRun, InStep, Matches, Deliveries, Crashes, Scenes.GoodScene, Scenes.At;
  }

  /** The next delivery gets as far as its announcement. */
  lemma AnnounceNext(cfg: Config, x: Pair, sc: Scenes.Scene, value: Text, n: nat, o: nat) returns (y: Pair, j: nat)
    requires Between(cfg, x, sc, value, n, o) && o < n
    ensures IsPair(cfg, y) && Grows(x, y) && |x.steps| <= j < |y.steps|
    ensures |y.steps| > |x.steps| + 1 && j > |x.steps| && WritesProcessing(y.run[j], y.steps[j], sc.rk)
    ensures Copies(y.krun[|y.ksteps|].log, value, n) && Crashes(y.ksteps) == sc.p
    ensures y.steps[|x.steps|] == Environment(Append(sc.e))
  {
    hide IsRun, K.IsRun, InStep, Matches, Deliveries, Crashes, Scenes.GoodScene, WritesProcessing;
    var h := HandOver(cfg, x, sc, value, n, o);
    var sc' := sc.(n := sc.n + 1);
    assert Scenes.GoodScene(cfg, sc') by { SameScene(cfg, sc, sc'); }
    hide *;
    var ready := ConsumeNext(cfg, h, sc', sc.n);
    y, j := AnnounceOn(cfg, ready, sc');
    GrowsOn(x, h, ready);
    GrowsOn(x, ready, y);
    Kept(h, ready, |x.steps|);
    Kept(ready, y, |x.steps|);
  }

  lemma GrowsOn(x: Pair, y: Pair, z: Pair)
    requires Grows(x, y) && Grows(y, z)
    ensures Grows(x, z) && |x.steps| <= |y.steps| <= |z.steps|
  {
  }

  lemma ConsumeNext(cfg: Config, x: Pair, sc: Scenes.Scene, k: nat) returns (y: Pair)
    requires IsPair(cfg, x) && Scenes.GoodScene(cfg, sc) && k < sc.n
    requires Scenes.At(sc, Last(x.run), Idle, Resting, [], k, k)
    ensures IsPair(cfg, y) && Grows(x, y) && y.krun == x.krun && y.ksteps == x.ksteps
    ensures Enabled(Last(y.run), Consumer(sc.p, Announce(Ok)))
    ensures WritesProcessing(Last(y.run), Consumer(sc.p, Announce(Ok)), sc.rk)
  {
    hide IsRun, K.IsRun, InStep, Matches, Deliveries, Crashes, Scenes.GoodScene, Scenes.At, WritesProcessing, Enabled;
    var run, steps := Scenes.Consume(cfg, sc, x.run, x.steps, k, true);
    Lengths(cfg, run, steps);
    var clock := QuietTicks(cfg, x.krun, x.ksteps, x.run, x.steps, x.clock, run, steps);
    y := Pair(x.krun, x.ksteps, run, steps, clock);
    AnnounceIsNext(cfg, sc, Last(run), k);
  }

  lemma AnnounceOn(cfg: Config, x: Pair, sc: Scenes.Scene) returns (y: Pair, j: nat)
    requires IsPair(cfg, x) && Scenes.GoodScene(cfg, sc)
    requires Enabled(Last(x.run), Consumer(sc.p, Announce(Ok)))
    requires WritesProcessing(Last(x.run), Consumer(sc.p, Announce(Ok)), sc.rk)
    ensures IsPair(cfg, y) && Grows(x, y) && y.krun == x.krun && y.ksteps == x.ksteps
    ensures j == |x.steps| && |y.steps| == j + 1 && WritesProcessing(y.run[j], y.steps[j], sc.rk)
  {
    hide IsRun, K.IsRun, InStep, Matches, Deliveries, Crashes, Scenes.GoodScene, WritesProcessing, Enabled, Apply;
    var run, steps := Extend(cfg, x.run, x.steps, Consumer(sc.p, Announce(Ok)));
    var clock := QuietTicks(cfg, x.krun, x.ksteps, x.run, x.steps, x.clock, run, steps);
    y := Pair(x.krun, x.ksteps, run, steps, clock);
    j := |x.steps|;
  }

  lemma AnnounceIsNext(cfg: Config, sc: Scenes.Scene, s: State, k: nat)
    requires Scenes.GoodScene(cfg, sc)
    requires Scenes.At(sc, s, Announcing(k, Scenes.InfoOf(cfg, sc)), Resting, [], k + 1, k)
    ensures Enabled(s, Consumer(sc.p, Announce(Ok))) && WritesProcessing(s, Consumer(sc.p, Announce(Ok)), sc.rk)
  {
    hide Prepared, Scenes.Books, WantsCompletion;
  }

  lemma CopiesAreRequests(cfg: Config, log: seq<Text>, value: Text, n: nat, rk: string)
    requires Copies(log, value, n) && IsRequestFor(cfg, Entry(value, Empty), rk)
    ensures |LogRequests(cfg, log, rk)| == n
  {
    hide IsRequestFor;
    assert LogRequests(cfg, log, rk) == Range(0, n);
    RangeSize(0, n);
  }

  lemma RequestIsJson(cfg: Config, value: Text, rk: string)
    requires IsRequestFor(cfg, Entry(value, Empty), rk)
    ensures value.Json?
  {
  }

  lemma SceneIsSet(cfg: Config, value: Text, rk: string, total: int)
    requires IsRequestFor(cfg, Entry(value, Empty), rk)
    ensures Scenes.GoodScene(cfg, Scenes.Scene(Entry(value, Empty), 0, rk, total, 0))
  {
  }

  /** An owner after the last allowed one would be one too many. */
  lemma OwnersSuffice(n: nat, c: nat, p: nat, o: nat, k: nat)
    requires Counted(n, p, o, k) && k < Times(n, c + 1)
    ensures p <= c
  {
    if p > c { TimesGrows(n, c + 1, n, p); }
  }

  /** A longer execution keeps what an earlier step did. */
  lemma Kept(x: Pair, y: Pair, i: nat)
    requires Grows(x, y) && i < |x.run|
    ensures i < |y.run| && y.run[i] == x.run[i]
    ensures i < |x.steps| ==> i < |y.steps| && y.steps[i] == x.steps[i]
  {
  }

  lemma IsRegression(cfg: Config, y: Pair, i: nat, j: nat, value: Text, rk: string, total: int, n: nat, c: nat)
    requires IsPair(cfg, y) && Copies(y.krun[|y.ksteps|].log, value, n) && Crashes(y.ksteps) <= c
    requires IsRequestFor(cfg, Entry(value, Empty), rk)
    requires i < j < |y.steps| && WritesBuffered(y.run[i], y.steps[i], rk, total)
    requires WritesProcessing(y.run[j], y.steps[j], rk)
    ensures Regresses(cfg, y.krun, y.ksteps, y.run, y.steps, y.clock, i, j, rk, total, n, c)
  {
    hide IsRequestFor, IsRun, K.IsRun, InStep, Matches, WritesProcessing, WritesBuffered, LogRequests, Copies, Crashes;
    CopiesAreRequests(cfg, y.krun[|y.ksteps|].log, value, n, rk);
  }

  lemma ServedEnough(x: Pair, start: Scenes.Scene, sc: Scenes.Scene, n: nat, o: nat, k: nat, i: nat)
    requires Served(x, start, sc, n, o, k, i) && k >= Max(start.total, 1)
    ensures i < |x.steps| && i < |x.run| && WritesBuffered(x.run[i], x.steps[i], start.rk, start.total)
  {
    hide WritesBuffered, Counted;
  }

  /** With enough owners for more than max(total, 1) deliveries the status regresses. */
  lemma RegressionByReplay(cfg: Config, value: Text, rk: string, total: int, n: nat, c: nat)
    returns (y: Pair, i: nat, j: nat)
    requires IsRequestFor(cfg, Entry(value, Empty), rk) && Times(n, c + 1) > Max(total, 1)
    ensures Regresses(cfg, y.krun, y.ksteps, y.run, y.steps, y.clock, i, j, rk, total, n, c)
  {
    if n == 0 {
      TimesNone(c + 1);
    }
    var k: nat := Max(total, 1);
    hide *;
    RequestIsJson(cfg, value, rk);
    SceneIsSet(cfg, value, rk, total);
    var start := Scenes.Scene(Entry(value, Empty), 0, rk, total, 0);
    var x, sc, o;
    x, sc, o, i := Reach(cfg, start, value, n, k);
    ServedFacts(x, start, sc, n, o, k, i);
    ServedEnough(x, start, sc, n, o, k, i);
    var z, sc', o' := NextOffset(cfg, x, sc, value, n, o);
    CountStays(n, sc.p, o, sc'.p, o', k);
    OwnersSuffice(n, c, sc'.p, o', k);
    y, j := AnnounceNext(cfg, z, sc', value, n, o');
    Kept(x, z, i);
    Kept(z, y, i);
    PairLengths(cfg, z, sc', value, n, o');
    IsRegression(cfg, y, i, j, value, rk, total, n, c);
  }

  lemma {:induction false} TimesNone(b: nat)
    ensures Times(0, b) == 0
  {
    if b > 0 { TimesNone(b - 1); }
  }

  /**
   * The exact condition behind Kafka. Given any request for `rk`, an execution with
   * `n` requests for `rk` in the log and at most `c` crashes, in which PROCESSING is
   * written after BUFFERED against `total`, exists if and only if n * (c + 1)
   * exceeds max(total, 1). Without crashes this is the bound of the Redis stream.
   */
  lemma ReplayRegressionIff(cfg: Config, value: Text, rk: string, total: int, n: nat, c: nat)
    requires IsRequestFor(cfg, Entry(value, Empty), rk)
    ensures (exists krun, ksteps, run, steps, clock, i, j ::
               Regresses(cfg, krun, ksteps, run, steps, clock, i, j, rk, total, n, c))
            <==> n * (c + 1) > Max(total, 1)
  {
    hide IsRequestFor, Regresses, Max;
    TimesIsProduct(n, c + 1);
    if Times(n, c + 1) > Max(total, 1) {
      var y, i, j := RegressionByReplay(cfg, value, rk, total, n, c);
    }
    if krun, ksteps, run, steps, clock, i, j :|
      Regresses(cfg, krun, ksteps, run, steps, clock, i, j, rk, total, n, c)
    {
      RegressionExceeds(cfg, krun, ksteps, run, steps, clock, i, j, rk, total, n, c);
    }
  }

  /**
   * The smallest such execution: one request, total 1. Its owner dies between the
   * return of `process` and the commit; only then is the request delivered again,
   * and the next owner writes PROCESSING after the first one's worker wrote BUFFERED.
   */
  lemma ReplayRegresses(cfg: Config, value: Text, rk: string) returns (y: Pair, i: nat, d: nat, a: nat, j: nat)
    requires IsRequestFor(cfg, Entry(value, Empty), rk)
    ensures Regresses(cfg, y.krun, y.ksteps, y.run, y.steps, y.clock, i, j, rk, 1, 1, 1)
    ensures i < d < a < j && y.steps[d] == Environment(Crash(0)) && y.run[d].stream == [Entry(value, Empty)]
    ensures y.steps[a] == Environment(Append(Entry(value, Empty)))
  {
    hide *;
    RequestIsJson(cfg, value, rk);
    SceneIsSet(cfg, value, rk, 1);
    var sc := Scenes.Scene(Entry(value, Empty), 0, rk, 1, 0);
    var x := Open(cfg, sc, value, 1);
    x, i := ServeNext(cfg, x, sc, value, 1, 0);
    sc := sc.(n := 1);
    PairLengths(cfg, x, sc, value, 1, 1);
    OneEntry(cfg, x, sc, value);
    d := |x.steps|;
    var z := NewOwner(cfg, x, sc, value, 1, 1);
    sc := sc.(p := 1);
    PairLengths(cfg, z, sc, value, 1, 0);
    a := |z.steps|;
    y, j := AnnounceNext(cfg, z, sc, value, 1, 0);
    Kept(x, z, i);
    Kept(z, y, i);
    Kept(x, z, d);
    Kept(z, y, d);
    IsRegression(cfg, y, i, j, value, rk, 1, 1, 1);
  }

  lemma OneEntry(cfg: Config, x: Pair, sc: Scenes.Scene, value: Text)
    requires Between(cfg, x, sc, value, 1, 1) && sc.n == 1 && |x.run| == |x.steps| + 1
    ensures x.run[|x.steps|].stream == [Entry(value, Empty)]
  {
    hide Scenes.Books, K.IsRun, IsRun, InStep, Matches, Deliveries, Crashes, Scenes.GoodScene;
  }
}

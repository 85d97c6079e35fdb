/** Whole runs of `run_experiments`, following the demonstration scripts
    examples/experiment_runner_examples.py and examples/skip_if_log_exists.py:
    their runners become outcome oracles, their configurations literal
    lists, and what the scripts announce is proved about `Batch`. */
module Scenarios {
  import opened Common
  import opened ConfigureProduction
  import opened TrackLogs
  import opened Timestamps
  import opened ExperimentRunners
  import opened Experimentors

  /** `[{'a': 1, 'b': 2}, {'c': 3, 'd': 4}]`. */
  const Demo: seq<ParamSet> := [[("a", Scalar("1")), ("b", Scalar("2"))], [("c", Scalar("3")), ("d", Scalar("4"))]]

  /** The same list with `{'e': 5, 'f': 6}` appended. */
  const Demo3: seq<ParamSet> := Demo + [[("e", Scalar("5")), ("f", Scalar("6"))]]

  const Message := "An exception is thrown"

  /** The first two combinations of `Demo3`. */
  const ConfACE: Conf := [("a", Scalar("1")), ("c", Scalar("3")), ("e", Scalar("5"))]
  const ConfACF: Conf := [("a", Scalar("1")), ("c", Scalar("3")), ("f", Scalar("6"))]

  /** The first `MaxTrialDemo`: it raises twice, then returns, and starts
      over; its counter `trials` is the call number modulo 3. */
  function ThirdCall(n: nat, c: Call): RunOutcome
  {
    if n % 3 == 2 then Returned else Threw(Raised(Message))
  }

  /** The second `MaxTrialDemo`: it returns, then raises, alternately; its
      flag `next_fail` is set after every even-numbered call. */
  function Alternating(n: nat, c: Call): RunOutcome
  {
    if n % 2 == 0 then Returned else Threw(Raised(Message))
  }

  /** No key appears in two different parameter sets. */
  predicate DistinctKeys(config: seq<ParamSet>)
  {
    forall i, j, x, y :: 0 <= i < j < |config| && 0 <= x < |config[i]| && 0 <= y < |config[j]| ==>
      config[i][x].0 != config[j][y].0
  }

  /** Every parameter set offers at least one choice. */
  predicate NoEmptySet(config: seq<ParamSet>)
  {
    forall i :: 0 <= i < |config| ==> |config[i]| > 0
  }

  /** With distinct keys and no empty set, every combination before the end
      is a pair: the iterator never raises. */
  lemma DistinctKeysYield(config: seq<ParamSet>, k: nat)
    requires DistinctKeys(config) && NoEmptySet(config) && k < Product(Sizes(config))
    ensures Product(Sizes(config)) > 0
    ensures StepAt(config, k).Yield?
  {
    var d := Unrank(k, Sizes(config));
    UnrankInRange(k, Sizes(config));
    SelectPicked(config, d);
    var ks := Keys(Chosen(config, d, |config|));
    assert NoDuplicates(ks) by {
      forall i, j | 0 <= i < j < |ks|
        ensures ks[i] != ks[j]
      {
        assert ks[i] == config[i][d[i]].0 && ks[j] == config[j][d[j]].0;
      }
    }
  }

  /** Without a log directory, a combination tried with `ThirdCall` after a
      multiple of three calls fails twice and succeeds at the third trial. */
  lemma ThirdCallRetry(env: Env, w: World, title: string, conf: Conf)
    requires env.setup.log.None? && env.setup.respond == ThirdCall && env.maxTrial >= 3
    requires |w.calls| % 3 == 0
    ensures var c := Call(title, conf, None);
            Retry(env, w, title, conf) ==
              ([RunFailed(Raised(Message)), RunFailed(Raised(Message)), Ran],
               w.(calls := w.calls + [c, c, c], ticks := w.ticks + 3))
  {
    var c := Call(title, conf, None);
    var f := RunFailed(Raised(Message));
    var w1 := w.(calls := w.calls + [c], ticks := w.ticks + 1);
    var w2 := w1.(calls := w1.calls + [c], ticks := w1.ticks + 1);
    var w3 := w2.(calls := w2.calls + [c], ticks := w2.ticks + 1);
    assert |w1.calls| % 3 == 1 && |w2.calls| % 3 == 2;
    assert Single(env.setup, w, title, conf, env.clock(w.ticks)) == (f, w1.(ticks := w.ticks));
    assert Single(env.setup, w1, title, conf, env.clock(w1.ticks)) == (f, w2.(ticks := w1.ticks));
    assert Single(env.setup, w2, title, conf, env.clock(w2.ticks)) == (Ran, w3.(ticks := w2.ticks));
    assert [f, f] + [Ran] == [f, f, Ran] && [f] + [f] == [f, f] && [] + [f] == [f];
    assert w3 == w3.(ticks := w2.ticks).(ticks := w2.ticks + 1);
    assert RetryFrom(env, w2, title, conf, 2, [f, f]) == ([f, f, Ran], w3);
    assert RetryFrom(env, w1, title, conf, 1, [f]) == ([f, f, Ran], w3);
    assert RetryFrom(env, w, title, conf, 0, []) == ([f, f, Ran], w3);
    assert w.calls + [c, c, c] == w.calls + [c] + [c] + [c];
  }

  /** One combination of such a run: three calls, then the next one. */
  lemma ThirdCallStep(env: Env, w: World, k: nat, trials: seq<Trial>)
    requires env.setup.log.None? && env.setup.respond == ThirdCall && env.maxTrial >= 3
    requires DistinctKeys(env.config) && NoEmptySet(env.config)
    requires k < Product(Sizes(env.config)) && |w.calls| % 3 == 0
    ensures StepAt(env.config, k).Yield?
    ensures var s := StepAt(env.config, k);
            var c := Call(s.title, s.conf, None);
            var w1 := w.(calls := w.calls + [c, c, c], ticks := w.ticks + 3);
            var t := Trial(s.title, [RunFailed(Raised(Message)), RunFailed(Raised(Message)), Ran]);
            BatchFrom(env, w, k, trials) == BatchFrom(env, w1, k + 1, trials + [t])
  {
    DistinctKeysYield(env.config, k);
    var s := StepAt(env.config, k);
    BatchEnds(env, w, k, trials);
    BatchStep(env, w, k, trials, s.title, s.conf);
    ThirdCallRetry(env, w, s.title, s.conf);
  }

  /** With `ThirdCall`, no log directory and at least three trials, a
      configuration with distinct keys and no empty set runs to completion:
      every combination is finished, with three calls each. */
  lemma {:induction false} ThirdCallCompletes(env: Env, w: World, k: nat, trials: seq<Trial>)
    requires env.setup.log.None? && env.setup.respond == ThirdCall && env.maxTrial >= 3
    requires DistinctKeys(env.config) && NoEmptySet(env.config)
    requires k <= Product(Sizes(env.config)) && |w.calls| % 3 == 0
    ensures var rep := BatchFrom(env, w, k, trials);
            rep.result == Completed && rep.progress == Product(Sizes(env.config)) &&
            |rep.world.calls| == |w.calls| + 3 * (Product(Sizes(env.config)) - k)
    decreases Product(Sizes(env.config)) - k
  {
    var p := Product(Sizes(env.config));
    if k < p {
      ThirdCallStep(env, w, k, trials);
      var s := StepAt(env.config, k);
      var c := Call(s.title, s.conf, None);
      var w1 := w.(calls := w.calls + [c, c, c], ticks := w.ticks + 3);
      var t := Trial(s.title, [RunFailed(Raised(Message)), RunFailed(Raised(Message)), Ran]);
      assert |w1.calls| == |w.calls| + 3;
      MultipleOfThree(|w.calls|);
      ThirdCallCompletes(env, w1, k + 1, trials + [t]);
      assert 3 * (p - (k + 1)) + 3 == 3 * (p - k);
    } else {
      ProductPositive(Sizes(env.config));
      BatchEnds(env, w, k, trials);
    }
  }

  lemma MultipleOfThree(n: nat)
    requires n % 3 == 0
    ensures (n + 3) % 3 == 0
  {
  }

  /** Both demonstration lists have distinct keys and two choices per set. */
  lemma DemoShape()
    ensures DistinctKeys(Demo) && NoEmptySet(Demo) && Product(Sizes(Demo)) == 4
  {
    assert Sizes(Demo) == [2, 2];
    assert [2, 2][..1] == [2] && [2][..0] == [];
    forall i, j, x, y | 0 <= i < j < |Demo| && 0 <= x < |Demo[i]| && 0 <= y < |Demo[j]|
      ensures Demo[i][x].0 != Demo[j][y].0
    {
      assert Demo[0][x].0 in {"a", "b"} && Demo[1][y].0 in {"c", "d"};
    }
  }

  lemma Demo3Shape()
    ensures DistinctKeys(Demo3) && NoEmptySet(Demo3) && Product(Sizes(Demo3)) == 8
  {
    assert Sizes(Demo3) == [2, 2, 2];
    assert [2, 2, 2][..2] == [2, 2] && [2, 2][..1] == [2] && [2][..0] == [];
    forall i, j, x, y | 0 <= i < j < |Demo3| && 0 <= x < |Demo3[i]| && 0 <= y < |Demo3[j]|
      ensures Demo3[i][x].0 != Demo3[j][y].0
    {
      assert Demo3[0][x].0 in {"a", "b"} && Demo3[1][x].0 in {"c", "d"};
      assert Demo3[j][y].0 in {"c", "d", "e", "f"};
    }
  }

  /** Example 1: `run_experiments(configuration, MaxTrialDemo(), None)` with
      the default three trials finishes all four combinations, each at its
      third trial, in twelve calls. */
  lemma MaxTrialDemoCompletes(clock: nat -> Timestamp, skip: bool, dirs: Dirs)
    ensures var rep := Batch(Env(Setup(None, ThirdCall, skip), Demo, clock, 3), World(dirs, [], 0));
            rep.result == Completed && rep.progress == 4 && |rep.world.calls| == 12
  {
    DemoShape();
    ThirdCallCompletes(Env(Setup(None, ThirdCall, skip), Demo, clock, 3), World(dirs, [], 0), 0, []);
  }
  /** Before a third call, an attempt with `ThirdCall` fails, whatever the
      log directory does: the runner raises, or the allocation raised and
      the runner was not called. Without `skip_exist` nothing is skipped. */
  lemma ThirdCallAttemptFails(s: Setup, w: World, title: string, conf: Conf, now: Timestamp)
    requires s.respond == ThirdCall && !s.skip && |w.calls| % 3 != 2
    ensures Failed(Single(s, w, title, conf, now).0)
    ensures |Single(s, w, title, conf, now).1.calls| <= |w.calls| + 1
  {
    if s.log.Some? {
      var (r, d) := Allocate(w.dirs, s.log.value, title, false, now);
      assert r != Ok(None);
    }
  }

  /** A failed attempt moves the retry loop on to the next trial. */
  lemma RetryAfterFailure(env: Env, w: World, title: string, conf: Conf, trial: nat, acc: seq<Attempt>)
    requires trial < env.maxTrial
    requires Failed(Single(env.setup, w, title, conf, env.clock(w.ticks)).0)
    ensures var (a, w1) := Single(env.setup, w, title, conf, env.clock(w.ticks));
            RetryFrom(env, w, title, conf, trial, acc) == RetryFrom(env, w1.(ticks := w1.ticks + 1), title, conf, trial + 1, acc + [a])
  {
  }

  /** Two trials of `ThirdCall` from a fresh runner both fail. */
  lemma TwoTrialsFail(env: Env, w: World, title: string, conf: Conf)
    requires env.setup.respond == ThirdCall && !env.setup.skip && env.maxTrial == 2 && |w.calls| == 0
    ensures |Retry(env, w, title, conf).0| == 2 && Exhausted(Retry(env, w, title, conf).0)
  {
    var (a1, v1) := Single(env.setup, w, title, conf, env.clock(w.ticks));
    ThirdCallAttemptFails(env.setup, w, title, conf, env.clock(w.ticks));
    RetryAfterFailure(env, w, title, conf, 0, []);
    var w1 := v1.(ticks := v1.ticks + 1);
    assert |w1.calls| == 0 || |w1.calls| == 1;
    var (a2, v2) := Single(env.setup, w1, title, conf, env.clock(w1.ticks));
    ThirdCallAttemptFails(env.setup, w1, title, conf, env.clock(w1.ticks));
    RetryAfterFailure(env, w1, title, conf, 1, [] + [a1]);
    var w2 := v2.(ticks := v2.ticks + 1);
    assert [] + [a1] + [a2] == [a1, a2];
    assert RetryFrom(env, w2, title, conf, 2, [a1, a2]) == ([a1, a2], w2);
  }

  /** The first combination of `Demo3` in odometer order. */
  lemma Demo3First()
    ensures StepAt(Demo3, 0) == Yield("a_c_e", ConfACE)
  {
    Demo3Shape();
    UnrankZero(Sizes(Demo3));
    assert Zeros(3) == [0, 0, 0];
    Demo3Prefix([0, 0, 0]);
  }

  /** Both first combinations start with `a_c`. */
  lemma Demo3Prefix(d: seq<nat>)
    requires |d| == 3 && d[0] == 0 && d[1] == 0
    ensures SelectUpTo(Demo3, d, 2) == Picked("a_c", [("a", Scalar("1")), ("c", Scalar("3"))])
  {
    assert SelectUpTo(Demo3, d, 1) == Picked("a", [("a", Scalar("1"))]);
  }

  /** Example 2: with `max_trial=2` the same runner never finishes the first
      combination `a_c_e`, so `run_experiments` raises "Failed to run the
      function" before the progress bar moves; this holds with or without a
      log directory. */
  lemma MaxTrialTwoAborts(log: Option<string>, clock: nat -> Timestamp, dirs: Dirs)
    ensures var rep := Batch(Env(Setup(log, ThirdCall, false), Demo3, clock, 2), World(dirs, [], 0));
            rep.result == Aborted(FailedToRun) && rep.progress == 0 && |rep.trials| == 1 &&
            rep.trials[0].title == "a_c_e" && |rep.trials[0].attempts| == 2 && Exhausted(rep.trials[0].attempts)
  {
    var env := Env(Setup(log, ThirdCall, false), Demo3, clock, 2);
    var w := World(dirs, [], 0);
    Demo3Shape();
    Demo3First();
    var s := StepAt(Demo3, 0);
    BatchStep(env, w, 0, [], s.title, s.conf);
    TwoTrialsFail(env, w, s.title, s.conf);
  }
  // ---------------------------------------------------------------------
  // skip_if_log_exists.py: a run that stops midway, then a resumed run.
  // ---------------------------------------------------------------------

  /** The filesystem right after `TrackLog('log')` on an empty one. */
  const LockedLog: Dirs := map["log" := ["lock"]]

  lemma LockedLogIsLock()
    ensures Lock(map[], "log", false) == (Pass, LockedLog)
  {
    var d: Dirs := map[];
    var l: seq<string> := [];
    assert l + ["lock"] == ["lock"];
    assert d["log" := l]["log" := l + ["lock"]] == d["log" := ["lock"]];
  }

  /** A fresh title under an existing root: the subdirectory is created
      with the new log file as its only entry. */
  lemma AllocateNew(dirs: Dirs, root: string, name: string, now: Timestamp)
    requires root != "" && name != "" && root in dirs && name !in dirs[root]
    requires Join(root, name) !in dirs && Join(Join(root, name), LogName(now)) !in dirs
    ensures var sub := Join(root, name);
            Allocate(dirs, root, name, false, now) ==
              (Ok(Some(Join(sub, LogName(now)))), dirs[root := dirs[root] + [name]][sub := [LogName(now)]])
  {
    var sub := Join(root, name);
    var path := Join(sub, LogName(now));
    assert |sub| > |root| && |path| > |sub|;
    assert !IsPlainFile(dirs, root, name);
    assert AddEntry(dirs[root], name) == dirs[root] + [name];
    var d := dirs[root := dirs[root] + [name]][sub := []];
    assert MakeDirs(dirs, root, name) == d;
    assert path !in d;
    assert SubdirKey(root, name) == sub && d[sub] == [];
    assert Allocate(dirs, root, name, false, now) == (Ok(Some(path)), d[sub := AddEntry(d[sub], LogName(now))]);
    assert AddEntry([], LogName(now)) == [LogName(now)];
    assert d[sub := [LogName(now)]] == dirs[root := dirs[root] + [name]][sub := [LogName(now)]];
  }

  /** The subdirectories of the first two combinations. */
  const DirACE := Join("log", "a_c_e")
  const DirACF := Join("log", "a_c_f")

  lemma LogDirsDistinct(now: Timestamp)
    ensures DirACE != "log" && DirACF != "log" && DirACE != DirACF
    ensures Join(DirACE, LogName(now)) !in {"log", DirACE, DirACF}
    ensures Join(DirACF, LogName(now)) !in {"log", DirACE, DirACF}
  {
    assert DirACE[8] == 'e' && DirACF[8] == 'f';
    assert |LogName(now)| > 0;
  }

  /** The filesystem halfway through the first run, and at its end: each
      title reached has a subdirectory holding its log file. */
  function HalfRunDirs(clock: nat -> Timestamp): Dirs
  {
    LockedLog["log" := ["lock", "a_c_e"]][DirACE := [LogName(clock(0))]]
  }

  function FirstRunDirs(clock: nat -> Timestamp): Dirs
  {
    HalfRunDirs(clock)["log" := ["lock", "a_c_e", "a_c_f"]][DirACF := [LogName(clock(1))]]
  }

  lemma UnrankOne()
    ensures Unrank(1, [2, 2, 2]) == [0, 0, 1]
  {
    var r: seq<nat> := [2, 2, 2];
    assert r[..2] == [2, 2] && r[..2][..1] == [2] && r[..2][..1][..0] == [];
    assert Unrank(0, [2]) == [0];
    assert Unrank(0, [2, 2]) == [0, 0];
  }

  /** The second combination of `Demo3`: the last set moves first. */
  lemma Demo3Second()
    ensures StepAt(Demo3, 1) == Yield("a_c_f", ConfACF)
  {
    Demo3Shape();
    assert Sizes(Demo3) == [2, 2, 2];
    UnrankOne();
    Demo3Prefix([0, 0, 1]);
  }

  /** With `max_trial=1` a combination gets exactly one attempt, whatever
      it ends with. */
  lemma OneTrial(env: Env, w: World, title: string, conf: Conf)
    requires env.maxTrial == 1
    ensures var single := Single(env.setup, w, title, conf, env.clock(w.ticks));
            RetryFrom(env, w, title, conf, 0, []) == ([single.0], single.1.(ticks := w.ticks + 1))
  {
    var single := Single(env.setup, w, title, conf, env.clock(w.ticks));
    assert [] + [single.0] == [single.0];
  }

  /** The setup of the first run: the runner succeeds on even calls and
      raises on odd ones, and `max_trial=1`. */
  function FirstRun(clock: nat -> Timestamp): Env
  {
    Env(Setup(Some("log"), Alternating, false), Demo3, clock, 1)
  }

  /** The first run, example 1 of skip_if_log_exists.py: the first
      combination `a_c_e` runs, the second `a_c_f` raises once and the run
      stops with "Failed to run the function"; each of them has left its
      log file behind. */
  lemma SkipDemoFirstRun(clock: nat -> Timestamp)
    ensures var rep := Batch(FirstRun(clock), World(LockedLog, [], 0));
            rep.result == Aborted(FailedToRun) && rep.progress == 1 &&
            rep.trials == [Trial("a_c_e", [Ran]), Trial("a_c_f", [RunFailed(Raised(Message))])] &&
            rep.world.dirs == FirstRunDirs(clock) && |rep.world.calls| == 2
  {
    var env := FirstRun(clock);
    var t0 := Trial("a_c_e", [Ran]);
    var w1 := FirstRunFirst(clock);
    Demo3Second();
    BatchEnds(env, w1, 1, [t0]);
    BatchStep(env, w1, 1, [t0], "a_c_f", ConfACF);
    FirstRunSecond(clock, w1);
    assert [t0] + [Trial("a_c_f", [RunFailed(Raised(Message))])] == [t0, Trial("a_c_f", [RunFailed(Raised(Message))])];
  }

  /** The first combination of the first run succeeds. */
  lemma FirstRunFirst(clock: nat -> Timestamp) returns (w1: World)
    ensures 1 <= Product(Sizes(Demo3))
    ensures Batch(FirstRun(clock), World(LockedLog, [], 0)) == BatchFrom(FirstRun(clock), w1, 1, [Trial("a_c_e", [Ran])])
    ensures w1.dirs == HalfRunDirs(clock) && |w1.calls| == 1 && w1.ticks == 1
  {
    var w := World(LockedLog, [], 0);
    Demo3Shape();
    Demo3First();
    w1 := FirstRunRetry(clock);
    BatchStep(FirstRun(clock), w, 0, [], "a_c_e", ConfACE);
    assert [] + [Trial("a_c_e", [Ran])] == [Trial("a_c_e", [Ran])];
  }

  lemma FirstRunRetry(clock: nat -> Timestamp) returns (w1: World)
    ensures RetryFrom(FirstRun(clock), World(LockedLog, [], 0), "a_c_e", ConfACE, 0, []) == ([Ran], w1)
    ensures w1.dirs == HalfRunDirs(clock) && |w1.calls| == 1 && w1.ticks == 1
  {
    var env := FirstRun(clock);
    var w := World(LockedLog, [], 0);
    var c := FirstRunAttempt(clock);
    OneTrial(env, w, "a_c_e", ConfACE);
    assert env.clock(w.ticks) == clock(0);
    w1 := World(HalfRunDirs(clock), [c], 1);
  }

  lemma FirstRunAttempt(clock: nat -> Timestamp) returns (c: Call)
    ensures Single(FirstRun(clock).setup, World(LockedLog, [], 0), "a_c_e", ConfACE, clock(0)) ==
              (Ran, World(HalfRunDirs(clock), [c], 0))
  {
    var path := Join(DirACE, LogName(clock(0)));
    FirstRunAllocate(clock);
    c := Call("a_c_e", ConfACE, Some(path));
    var w1 := World(HalfRunDirs(clock), [], 0);
    assert Single(FirstRun(clock).setup, World(LockedLog, [], 0), "a_c_e", ConfACE, clock(0)) ==
             Run(FirstRun(clock).setup, w1, c);
    assert [] + [c] == [c];
  }

  lemma FirstRunAllocate(clock: nat -> Timestamp)
    ensures Allocate(LockedLog, "log", "a_c_e", false, clock(0)) ==
              (Ok(Some(Join(DirACE, LogName(clock(0))))), HalfRunDirs(clock))
  {
    LogDirsDistinct(clock(0));
    assert LockedLog["log"] + ["a_c_e"] == ["lock", "a_c_e"];
    AllocateNew(LockedLog, "log", "a_c_e", clock(0));
  }

  /** The second combination of the first run raises once, which with
      `max_trial=1` ends the run. */
  lemma FirstRunSecond(clock: nat -> Timestamp, w1: World)
    requires w1.dirs == HalfRunDirs(clock) && |w1.calls| == 1 && w1.ticks == 1
    ensures var (attempts, w2) := RetryFrom(FirstRun(clock), w1, "a_c_f", ConfACF, 0, []);
            attempts == [RunFailed(Raised(Message))] && w2.dirs == FirstRunDirs(clock) && |w2.calls| == 2
  {
    var env := FirstRun(clock);
    LogDirsDistinct(clock(1));
    assert ["lock", "a_c_e"] + ["a_c_f"] == ["lock", "a_c_e", "a_c_f"];
    assert HalfRunDirs(clock)["log"] == ["lock", "a_c_e"];
    AllocateNew(w1.dirs, "log", "a_c_f", clock(1));
    OneTrial(env, w1, "a_c_f", ConfACF);
  }

  /** When the log of a combination is already there, `skip_exist` skips
      it: no call, no new file, and the batch moves on. */
  lemma SkippedCombination(env: Env, w: World, k: nat, trials: seq<Trial>, root: string, title: string, conf: Conf)
    requires env.setup.log == Some(root) && env.setup.skip && env.maxTrial >= 1
    requires StepAt(env.config, k) == Yield(title, conf) && k <= Product(Sizes(env.config))
    requires title != "" && root in w.dirs && title in w.dirs[root]
    requires Join(root, title) in w.dirs && |w.dirs[Join(root, title)]| > 0
    ensures k + 1 <= Product(Sizes(env.config))
    ensures BatchFrom(env, w, k, trials) ==
              BatchFrom(env, w.(ticks := w.ticks + 1), k + 1, trials + [Trial(title, [Skipped])])
  {
    BatchEnds(env, w, k, trials);
    SkipOnce(env, w, title, conf);
    BatchStep(env, w, k, trials, title, conf);
  }

  /** The single attempt of a combination whose log exists is a skip that
      changes nothing. */
  lemma SkipOnce(env: Env, w: World, title: string, conf: Conf)
    requires env.setup.log.Some? && env.setup.skip && env.maxTrial >= 1
    requires var root := env.setup.log.value;
             title != "" && root in w.dirs && title in w.dirs[root] &&
             Join(root, title) in w.dirs && |w.dirs[Join(root, title)]| > 0
    ensures RetryFrom(env, w, title, conf, 0, []) == ([Skipped], w.(ticks := w.ticks + 1))
  {
    var root := env.setup.log.value;
    MakeDirsExisting(w.dirs, root, title);
    assert Allocate(w.dirs, root, title, true, env.clock(w.ticks)) == (Ok(None), w.dirs);
    assert [] + [Skipped] == [Skipped];
  }

  /** The filesystem the resumed run works on: when the first call of
      `run_experiments` ended, its TrackLog released the lock, and the second
      call took it again. */
  function ReopenedDirs(clock: nat -> Timestamp): Dirs
  {
    Lock(Unlock(FirstRunDirs(clock), "log", false).1, "log", false).1
  }

  /** The resumed run, example 2 of skip_if_log_exists.py, with
      `skip_exist=True` (the script spells the keyword `skip_if_exists`): it
      can take the lock again, and it skips not only `a_c_e`, which had
      finished, but also `a_c_f`, whose failed attempt left its log file; it
      reaches the third combination without having called the runner. */
  lemma SkipDemoResume(clock: nat -> Timestamp, clock': nat -> Timestamp, respond: (nat, Call) -> RunOutcome)
    ensures Unlock(FirstRunDirs(clock), "log", false).0 == Pass
    ensures Lock(Unlock(FirstRunDirs(clock), "log", false).1, "log", false).0 == Pass
    ensures var env := Env(Setup(Some("log"), respond, true), Demo3, clock', 1);
            var d := ReopenedDirs(clock);
            2 <= Product(Sizes(Demo3)) &&
            Batch(env, World(d, [], 0)) ==
              BatchFrom(env, World(d, [], 2), 2, [Trial("a_c_e", [Skipped]), Trial("a_c_f", [Skipped])])
  {
    ReopenedDirsListing(clock);
    Demo3Shape();
    Demo3First();
    Demo3Second();
    ResumeSkipsTwo(Env(Setup(Some("log"), respond, true), Demo3, clock', 1), ReopenedDirs(clock), "a_c_e", ConfACE, "a_c_f", ConfACF);
  }

  /** Releasing and retaking the lock keeps both subdirectories and the
      root's listing of them. */
  lemma ReopenedDirsListing(clock: nat -> Timestamp)
    ensures Unlock(FirstRunDirs(clock), "log", false).0 == Pass
    ensures Lock(Unlock(FirstRunDirs(clock), "log", false).1, "log", false).0 == Pass
    ensures var d := ReopenedDirs(clock);
            "log" in d && "a_c_e" in d["log"] && "a_c_f" in d["log"] &&
            Join("log", "a_c_e") in d && |d[Join("log", "a_c_e")]| > 0 &&
            Join("log", "a_c_f") in d && |d[Join("log", "a_c_f")]| > 0
  {
    FirstRunUnlocked(clock);
    var u := Unlock(FirstRunDirs(clock), "log", false).1;
    assert Lock(u, "log", false) == (Pass, u["log" := u["log"] + ["lock"]]);
  }

  /** The first run's TrackLog removes its lock and nothing else. */
  lemma FirstRunUnlocked(clock: nat -> Timestamp)
    ensures var (o, u) := Unlock(FirstRunDirs(clock), "log", false);
            o == Pass && "log" in u && "lock" !in u["log"] && "a_c_e" in u["log"] && "a_c_f" in u["log"] &&
            Join("log", "a_c_e") in u && |u[Join("log", "a_c_e")]| > 0 &&
            Join("log", "a_c_f") in u && |u[Join("log", "a_c_f")]| > 0
  {
    var d := FirstRunDirs(clock);
    FirstRunDirsListing(clock);
    assert Join("log", "lock")[4] == 'l' && DirACE[4] == 'a' && DirACF[4] == 'a';
    assert Join("log", "lock") !in d;
    var u := d["log" := RemoveEntry(d["log"], "lock")];
    assert Unlock(d, "log", false) == (Pass, u);
  }

  /** A resumed run whose first two combinations both have their logs
      skips both. */
  lemma ResumeSkipsTwo(env: Env, d: Dirs, t0: string, c0: Conf, t1: string, c1: Conf)
    requires env.setup.log == Some("log") && env.setup.skip && env.maxTrial >= 1
    requires 2 <= Product(Sizes(env.config))
    requires StepAt(env.config, 0) == Yield(t0, c0) && StepAt(env.config, 1) == Yield(t1, c1)
    requires t0 != "" && "log" in d && t0 in d["log"] && Join("log", t0) in d && |d[Join("log", t0)]| > 0
    requires t1 != "" && t1 in d["log"] && Join("log", t1) in d && |d[Join("log", t1)]| > 0
    ensures Batch(env, World(d, [], 0)) == BatchFrom(env, World(d, [], 2), 2, [Trial(t0, [Skipped]), Trial(t1, [Skipped])])
  {
    var w := World(d, [], 0);
    var s0 := Trial(t0, [Skipped]);
    SkippedCombination(env, w, 0, [], "log", t0, c0);
    assert [] + [s0] == [s0];
    SkippedCombination(env, w.(ticks := 1), 1, [s0], "log", t1, c1);
    assert [s0] + [Trial(t1, [Skipped])] == [s0, Trial(t1, [Skipped])];
  }

  /** After the first run, the log root lists the lock and both
      subdirectories, there are no other directories, and each subdirectory
      holds one file. */
  lemma FirstRunDirsListing(clock: nat -> Timestamp)
    ensures var d := FirstRunDirs(clock);
            d.Keys == {"log", DirACE, DirACF} && d["log"] == ["lock", "a_c_e", "a_c_f"] &&
            Join("log", "a_c_e") in d && |d[Join("log", "a_c_e")]| > 0 &&
            Join("log", "a_c_f") in d && |d[Join("log", "a_c_f")]| > 0
  {
    LogDirsDistinct(clock(0));
    assert FirstRunDirs(clock)["log"] == ["lock", "a_c_e", "a_c_f"];
  }

  // ---------------------------------------------------------------------
  // Edge cases of the configuration.
  // ---------------------------------------------------------------------

  /** The same key in two parameter sets: the first combination already
      raises "Duplicated key", before any attempt. */
  lemma DuplicateKeyAborts(env: Env, w: World)
    requires env.config == [[("a", Scalar("1"))], [("a", Scalar("2"))]]
    ensures Batch(env, w) == Report(Aborted(DuplicatedKey("a")), 0, [], w)
  {
    assert Sizes(env.config) == [1, 1];
    UnrankZero([1, 1]);
    assert Zeros(2) == [0, 0];
    assert SelectUpTo(env.config, [0, 0], 1) == Picked("a", [("a", Scalar("1"))]);
    BatchEnds(env, w, 0, []);
  }

  /** A parameter set with no choice: there is no combination, and the
      first `__next__` fails on indexing that set. */
  lemma EmptySetAborts(env: Env, w: World)
    requires env.config == [[("a", Scalar("1"))], []]
    ensures Product(Sizes(env.config)) == 0
    ensures Batch(env, w) == Report(Aborted(IndexError), 0, [], w)
  {
    assert Sizes(env.config) == [1, 0];
    assert [1, 0][..1] == [1] && [1][..0] == [];
    assert Unrank(0, [1, 0]) == [0, 0];
    assert SelectUpTo(env.config, [0, 0], 1) == Picked("a", [("a", Scalar("1"))]);
    BatchEnds(env, w, 0, []);
  }

  /** The empty configuration: `count` reports 0 combinations, yet the
      iterator yields one pair, the empty title with the empty config, and
      `run_experiments` runs it once before completing with progress 1. */
  lemma EmptyConfigRunsOnce(env: Env, w: World)
    requires env.config == [] && env.setup.log.None? && env.maxTrial >= 1
    requires env.setup.respond(|w.calls|, Call("", [], None)) == Returned
    ensures StepAt([], 0) == Yield("", [])
    ensures Batch(env, w) == Report(Completed, 1, [Trial("", [Ran])],
                                    w.(calls := w.calls + [Call("", [], None)], ticks := w.ticks + 1))
  {
    assert Sizes([]) == [] && Product([]) == 1 && Unrank(0, []) == [];
    BatchEnds(env, w, 0, []);
    var w1 := w.(calls := w.calls + [Call("", [], None)], ticks := w.ticks + 1);
    assert RetryFrom(env, w, "", [], 0, []) == ([] + [Ran], w1);
    assert [] + [Ran] == [Ran] && [] + [Trial("", [Ran])] == [Trial("", [Ran])];
    BatchStep(env, w, 0, [], "", []);
    BatchEnds(env, w1, 1, [Trial("", [Ran])]);
  }
}

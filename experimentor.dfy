/** The batch controller of experimentor/experimentor.py: for every
    combination in odometer order, up to `max_trial` attempts, each of which
    allocates a log file (when logging) and calls the runner. The pure
    functions below are the specification; the class `Experimentor` runs the
    loops of the source against the runner and filesystem objects. */
module Experimentors {
  import opened Common
  import opened Timestamps
  import opened ConfigureProduction
  import opened TrackLogs
  import opened ExperimentRunners

  /** `count(config)`: 0 for an empty list, the product of the set sizes
      otherwise. */
  method Count(config: seq<ParamSet>) returns (num: nat)
    ensures num == (if |config| == 0 then 0 else Product(Sizes(config)))
  {
    if |config| == 0 {
      return 0;
    }
    ghost var r := Sizes(config);
    num := |config[0]|;
    assert r[..1][..0] == [];
    for i := 1 to |config|
      invariant num == Product(r[..i])
    {
      assert r[..i + 1][..i] == r[..i];
      num := num * |config[i]|;
    }
    assert r[..|config|] == r;
  }

  // ---------------------------------------------------------------------
  // One attempt: run_single_experiment.
  // ---------------------------------------------------------------------

  /** How one call of `run_single_experiment` ends: the runner returned, the
      title was skipped, the runner raised, the log allocation raised, or the
      runner raised KeyboardInterrupt. */
  datatype Attempt = Ran | Skipped | RunFailed(error: Exception) | LogFailed(error: Exception) | Cancelled

  /** The attempt set `successful` and left the retry loop. */
  predicate Succeeded(a: Attempt)
  {
    a.Ran? || a.Skipped?
  }

  /** The attempt raised an `Exception`, which the retry loop absorbs. */
  predicate Failed(a: Attempt)
  {
    a.RunFailed? || a.LogFailed?
  }

  function AttemptOf(o: RunOutcome): Attempt
  {
    match o
    case Returned => Ran
    case Threw(e) => RunFailed(e)
    case Interrupt => Cancelled
  }

  /** The filesystem, the runner's call log, and how many attempts this run
      has made (the clock is read once per attempt). */
  datatype World = World(dirs: Dirs, calls: seq<Call>, ticks: nat)

  /** What stays fixed for every attempt: the log root (None: no TrackLog),
      the runner, and `skip_exist`. */
  datatype Setup = Setup(log: Option<string>, respond: (nat, Call) -> RunOutcome, skip: bool)

  /** `self.runner.run_experiment(title, config, file)`. */
  function Run(s: Setup, w: World, c: Call): (res: (Attempt, World))
    ensures res.1 == w.(calls := w.calls + [c])
  {
    (AttemptOf(s.respond(|w.calls|, c)), w.(calls := w.calls + [c]))
  }

  /** `run_single_experiment(title, conf, skip_exist)` with the clock reading
      `now`. */
  function Single(s: Setup, w: World, title: string, conf: Conf, now: Timestamp): (res: (Attempt, World))
    ensures res.1.ticks == w.ticks
  {
    match s.log
    case None => Run(s, w, Call(title, conf, None))
    case Some(root) =>
      var (r, d) := Allocate(w.dirs, root, title, s.skip, now);
      var w1 := w.(dirs := d);
      match r
      case Err(e) => (LogFailed(e), w1)
      case Ok(None) => (Skipped, w1)
      case Ok(Some(path)) => Run(s, w1, Call(title, conf, Some(path)))
  }

  /** Without a log directory nothing touches the filesystem, and the runner
      is called exactly once, with `file=None`. */
  lemma NoLogNoFile(s: Setup, w: World, title: string, conf: Conf, now: Timestamp)
    requires s.log.None?
    ensures Single(s, w, title, conf, now).1 == w.(calls := w.calls + [Call(title, conf, None)])
    ensures !Single(s, w, title, conf, now).0.Skipped? && !Single(s, w, title, conf, now).0.LogFailed?
  {
  }

  /** With a log directory and `skip_exist`, the attempt is a skip exactly
      when the title's subdirectory already lists something; a skip, like a
      failed allocation, never reaches the runner. */
  lemma SingleSkips(s: Setup, w: World, title: string, conf: Conf, now: Timestamp)
    requires s.log.Some? && s.skip
    ensures Single(s, w, title, conf, now).0 == Skipped <==>
              Join(s.log.value, title) != "" && !IsPlainFile(w.dirs, s.log.value, title) &&
              SubdirKey(s.log.value, title) in w.dirs && |w.dirs[SubdirKey(s.log.value, title)]| > 0
    ensures Single(s, w, title, conf, now).0.Skipped? || Single(s, w, title, conf, now).0.LogFailed? <==>
              Single(s, w, title, conf, now).1.calls == w.calls
  {
    AllocateSkips(w.dirs, s.log.value, title, now);
  }

  /** A raising log allocation becomes a failed attempt, which the retry
      loop absorbs; the runner is not called. */
  lemma LogFailureIsFailedAttempt(s: Setup, w: World, title: string, conf: Conf, now: Timestamp)
    requires s.log.Some? && Allocate(w.dirs, s.log.value, title, s.skip, now).0.Err?
    ensures Single(s, w, title, conf, now).0 == LogFailed(Allocate(w.dirs, s.log.value, title, s.skip, now).0.error)
    ensures Failed(Single(s, w, title, conf, now).0)
    ensures Single(s, w, title, conf, now).1.calls == w.calls
  {
  }

  // ---------------------------------------------------------------------
  // The retry loop of one combination.
  // ---------------------------------------------------------------------

  function Max0(x: int): nat
  {
    if x > 0 then x else 0
  }

  function Last(s: seq<Attempt>): Attempt
    requires |s| > 0
  {
    s[|s| - 1]
  }

  /** Every attempt failed (vacuously so when there were none). */
  predicate Exhausted(attempts: seq<Attempt>)
  {
    forall i :: 0 <= i < |attempts| ==> Failed(attempts[i])
  }

  /** What `for trial in range(max_trial)` allows: at most `max_trial`
      attempts, every one but the last failed, and when the last failed too
      the trials ran out. */
  predicate RetryShaped(attempts: seq<Attempt>, maxTrial: int)
  {
    |attempts| <= Max0(maxTrial) &&
    (forall i :: 0 <= i < |attempts| - 1 ==> Failed(attempts[i])) &&
    (Exhausted(attempts) ==> |attempts| == Max0(maxTrial))
  }

  /** The run's parameters: setup, configuration, clock (the reading for the
      n-th attempt of this run), and `max_trial`. */
  datatype Env = Env(setup: Setup, config: seq<ParamSet>, clock: nat -> Timestamp, maxTrial: int)

  /** The trials of one combination from trial number `trial` on, after the
      failed attempts `acc`. */
  function RetryFrom(env: Env, w: World, title: string, conf: Conf, trial: nat, acc: seq<Attempt>): (res: (seq<Attempt>, World))
    decreases Max0(env.maxTrial - trial)
  {
    if trial >= env.maxTrial then (acc, w)
    else
      var (a, w1) := Single(env.setup, w, title, conf, env.clock(w.ticks));
      var w2 := w1.(ticks := w1.ticks + 1);
      if Succeeded(a) || a.Cancelled? then (acc + [a], w2)
      else RetryFrom(env, w2, title, conf, trial + 1, acc + [a])
  }

  lemma {:induction false} RetryFromShaped(env: Env, w: World, title: string, conf: Conf, trial: nat, acc: seq<Attempt>)
    requires trial == |acc| <= Max0(env.maxTrial) && Exhausted(acc)
    ensures var (res, w') := RetryFrom(env, w, title, conf, trial, acc);
            |acc| <= |res| && res[..|acc|] == acc && RetryShaped(res, env.maxTrial) &&
            w'.ticks == w.ticks + |res| - |acc|
    decreases Max0(env.maxTrial - trial)
  {
    if trial < env.maxTrial {
      var (a, w1) := Single(env.setup, w, title, conf, env.clock(w.ticks));
      var w2 := w1.(ticks := w1.ticks + 1);
      if Succeeded(a) || a.Cancelled? {
        assert (acc + [a])[..|acc|] == acc;
        assert !Exhausted(acc + [a]) by {
          assert !Failed((acc + [a])[|acc|]);
        }
      } else {
        RetryFromShaped(env, w2, title, conf, trial + 1, acc + [a]);
        var res := RetryFrom(env, w2, title, conf, trial + 1, acc + [a]).0;
        assert res[..|acc|] == res[..|acc| + 1][..|acc|];
      }
    }
  }

  /** The trials of one combination: shaped as the retry loop allows, one
      clock reading per attempt. */
  function Retry(env: Env, w: World, title: string, conf: Conf): (res: (seq<Attempt>, World))
    ensures RetryShaped(res.0, env.maxTrial)
    ensures res.1.ticks == w.ticks + |res.0|
  {
    RetryFromShaped(env, w, title, conf, 0, []);
    RetryFrom(env, w, title, conf, 0, [])
  }

  /** The attempt reached the runner: it returned, raised, or was
      interrupted. A skip or a failed log allocation did not. */
  predicate Called(a: Attempt)
  {
    a.Ran? || a.RunFailed? || a.Cancelled?
  }

  /** How many of the attempts reached the runner. */
  function CallCount(attempts: seq<Attempt>): nat
  {
    if |attempts| == 0 then 0
    else (if Called(attempts[0]) then 1 else 0) + CallCount(attempts[1..])
  }

  /** The title and configuration the runner was given, call by call. */
  function Headers(calls: seq<Call>): seq<(string, Conf)>
  {
    seq(|calls|, i requires 0 <= i < |calls| => (calls[i].title, calls[i].config))
  }

  function Repeat(n: nat, h: (string, Conf)): seq<(string, Conf)>
  {
    seq(n, _ => h)
  }

  lemma HeadersConcat(a: seq<Call>, b: seq<Call>)
    ensures Headers(a + b) == Headers(a) + Headers(b)
  {
  }

  lemma RepeatConcat(m: nat, n: nat, h: (string, Conf))
    ensures Repeat(m, h) + Repeat(n, h) == Repeat(m + n, h)
  {
  }

  /** One attempt calls the runner once, with its title and configuration,
      exactly when it reached the runner, and keeps the earlier calls. */
  lemma SingleCalls(s: Setup, w: World, title: string, conf: Conf, now: Timestamp)
    ensures var (a, w') := Single(s, w, title, conf, now);
            |w.calls| <= |w'.calls| && w'.calls[..|w.calls|] == w.calls &&
            Headers(w'.calls[|w.calls|..]) == Repeat(if Called(a) then 1 else 0, (title, conf))
  {
    match s.log
    case None =>
      CallAppended(w.calls, Call(title, conf, None));
    case Some(root) =>
      var (r, d) := Allocate(w.dirs, root, title, s.skip, now);
      match r
      case Err(_) =>
        assert w.calls[|w.calls|..] == [];
      case Ok(None) =>
        assert w.calls[|w.calls|..] == [];
      case Ok(Some(path)) =>
        CallAppended(w.calls, Call(title, conf, Some(path)));
  }

  /** Appending one call adds its title and configuration, once. */
  lemma CallAppended(calls: seq<Call>, c: Call)
    ensures (calls + [c])[..|calls|] == calls
    ensures Headers((calls + [c])[|calls|..]) == Repeat(1, (c.title, c.config))
  {
    assert (calls + [c])[|calls|..] == [c];
  }

  /** The trials from trial number `trial` on call the runner once per
      attempt that reached it, always with the combination's title and
      configuration, and keep the earlier calls. */
  lemma {:induction false} RetryFromCalls(env: Env, w: World, title: string, conf: Conf, trial: nat, acc: seq<Attempt>)
    ensures RetryCallsKept(w, RetryFrom(env, w, title, conf, trial, acc), title, conf, acc)
    decreases Max0(env.maxTrial - trial)
  {
    if trial < env.maxTrial {
      var (a, w1) := Single(env.setup, w, title, conf, env.clock(w.ticks));
      SingleCalls(env.setup, w, title, conf, env.clock(w.ticks));
      var w2 := w1.(ticks := w1.ticks + 1);
      if Succeeded(a) || a.Cancelled? {
        RetryCallsLast(w, w2, title, conf, acc, a);
      } else {
        RetryFromCalls(env, w2, title, conf, trial + 1, acc + [a]);
        RetryCallsNext(w, w2, RetryFrom(env, w2, title, conf, trial + 1, acc + [a]), title, conf, acc, a);
      }
    } else {
      assert acc[|acc|..] == [];
      assert w.calls[|w.calls|..] == [];
    }
  }

  /** After the attempts `acc`, the trials `res.0` ending in the world
      `res.1` extend `acc` and the runner's calls from `w` on, each new
      attempt that reached the runner adding one call with `title` and
      `conf`. */
  ghost predicate RetryCallsKept(w: World, res: (seq<Attempt>, World), title: string, conf: Conf, acc: seq<Attempt>)
  {
    var (attempts, w') := res;
    |acc| <= |attempts| && attempts[..|acc|] == acc &&
    |w.calls| <= |w'.calls| && w'.calls[..|w.calls|] == w.calls &&
    Headers(w'.calls[|w.calls|..]) == Repeat(CallCount(attempts[|acc|..]), (title, conf))
  }

  /** An attempt `a` that ends the trials. */
  lemma RetryCallsLast(w: World, w1: World, title: string, conf: Conf, acc: seq<Attempt>, a: Attempt)
    requires |w.calls| <= |w1.calls| && w1.calls[..|w.calls|] == w.calls
    requires Headers(w1.calls[|w.calls|..]) == Repeat(if Called(a) then 1 else 0, (title, conf))
    ensures RetryCallsKept(w, (acc + [a], w1), title, conf, acc)
  {
  }

  /** A failed attempt `a`, made between `w` and `w1`, followed by the
      trials `res` that start from `w1`. */
  lemma RetryCallsNext(w: World, w1: World, res: (seq<Attempt>, World), title: string, conf: Conf, acc: seq<Attempt>, a: Attempt)
    requires |w.calls| <= |w1.calls| && w1.calls[..|w.calls|] == w.calls
    requires Headers(w1.calls[|w.calls|..]) == Repeat(if Called(a) then 1 else 0, (title, conf))
    requires RetryCallsKept(w1, res, title, conf, acc + [a])
    ensures RetryCallsKept(w, res, title, conf, acc)
  {
    var (attempts, w') := res;
    var one := if Called(a) then 1 else 0;
    assert attempts[..|acc|] == attempts[..|acc| + 1][..|acc|];
    assert attempts[|acc|..][0] == a;
    assert attempts[|acc|..][1..] == attempts[|acc| + 1..];
    assert w'.calls[..|w.calls|] == w'.calls[..|w1.calls|][..|w.calls|];
    assert w'.calls[|w.calls|..] == w1.calls[|w.calls|..] + w'.calls[|w1.calls|..];
    HeadersConcat(w1.calls[|w.calls|..], w'.calls[|w1.calls|..]);
    RepeatConcat(one, CallCount(attempts[|acc| + 1..]), (title, conf));
  }

  /** The trials of one combination call the runner once per attempt that
      reached it, with that combination's title and configuration. */
  lemma RetryCalls(env: Env, w: World, title: string, conf: Conf)
    ensures var (attempts, w') := Retry(env, w, title, conf);
            |w.calls| <= |w'.calls| && w'.calls[..|w.calls|] == w.calls &&
            Headers(w'.calls[|w.calls|..]) == Repeat(CallCount(attempts), (title, conf))
  {
    RetryFromCalls(env, w, title, conf, 0, []);
    var attempts := RetryFrom(env, w, title, conf, 0, []).0;
    assert attempts[0..] == attempts;
  }

  // ---------------------------------------------------------------------
  // The batch: run_experiments.
  // ---------------------------------------------------------------------

  /** How `run_experiments` ends: normally, by raising a ValueError (a
      duplicate key or an empty set from the iterator, or a combination
      whose trials all failed), or by re-raising KeyboardInterrupt. */
  datatype BatchResult = Completed | Aborted(error: Exception) | KeyboardInterrupt

  /** The attempts made for one combination. */
  datatype Trial = Trial(title: string, attempts: seq<Attempt>)

  /** The outcome, how often the progress bar advanced, the trials of every
      combination reached, and the world afterwards. */
  datatype Report = Report(result: BatchResult, progress: nat, trials: seq<Trial>, world: World)

  /** The batch from the k-th combination on, after the finished trials
      `trials`. The iterator state after k pairs is `Unrank(k, sizes)`, and it
      is finished once all of a non-zero number of combinations were
      returned. */
  function BatchFrom(env: Env, w: World, k: nat, trials: seq<Trial>): Report
    requires k <= Product(Sizes(env.config))
    decreases Product(Sizes(env.config)) - k
  {
    var sizes := Sizes(env.config);
    if Product(sizes) > 0 && k == Product(sizes) then Report(Completed, k, trials, w)
    else
      match Select(env.config, Unrank(k, sizes))
      case DupKey(key) => Report(Aborted(DuplicatedKey(key)), k, trials, w)
      case NoEntry(_) => Report(Aborted(IndexError), k, trials, w)
      case Picked(title, conf) =>
        SelectPicked(env.config, Unrank(k, sizes));
        ProductPositive(sizes);
        var (attempts, w1) := Retry(env, w, title, conf);
        var trials' := trials + [Trial(title, attempts)];
        if |attempts| > 0 && Succeeded(Last(attempts)) then BatchFrom(env, w1, k + 1, trials')
        else if |attempts| > 0 && Last(attempts).Cancelled? then Report(KeyboardInterrupt, k, trials', w1)
        else Report(Aborted(FailedToRun), k, trials', w1)
  }

  function Batch(env: Env, w: World): Report
  {
    BatchFrom(env, w, 0, [])
  }

  /** The i-th combination was finished by the trial `t`: it is the i-th
      pair of the iterator, and its attempts are shaped by the retry loop and
      end with a success. */
  ghost predicate Finished(env: Env, i: nat, t: Trial)
  {
    var s := Select(env.config, Unrank(i, Sizes(env.config)));
    s.Picked? && t.title == s.title && RetryShaped(t.attempts, env.maxTrial) &&
    |t.attempts| > 0 && Succeeded(Last(t.attempts))
  }

  /** What a report says about a batch that started at combination k after
      the trials `trials`. */
  ghost predicate Protocol(env: Env, k: nat, trials: seq<Trial>, rep: Report)
  {
    var p := Product(Sizes(env.config));
    var n := rep.progress;
    k <= n <= p && (|rep.trials| == n || |rep.trials| == n + 1) && rep.trials[..k] == trials &&
    // Progress advances once per finished combination, in odometer order.
    (forall i :: k <= i < n ==> Finished(env, i, rep.trials[i])) &&
    // The batch completes exactly when every combination was finished.
    (rep.result == Completed <==> p > 0 && n == p) &&
    // Nothing after the combination that stopped the batch is attempted.
    (rep.result == KeyboardInterrupt || rep.result == Aborted(FailedToRun) <==> |rep.trials| == n + 1) &&
    (|rep.trials| == n + 1 ==>
       var t := rep.trials[n];
       var s := Select(env.config, Unrank(n, Sizes(env.config)));
       s.Picked? && t.title == s.title && RetryShaped(t.attempts, env.maxTrial) &&
       // Every trial failed, and there were `max_trial` of them...
       (rep.result == Aborted(FailedToRun) ==> Exhausted(t.attempts) && |t.attempts| == Max0(env.maxTrial)) &&
       // ...or the last one was interrupted, and no retry followed.
       (rep.result == KeyboardInterrupt ==> |t.attempts| > 0 && Last(t.attempts).Cancelled?)) &&
    // Errors of the iterator escape as they are.
    (rep.result.Aborted? && rep.result.error != FailedToRun ==>
       match Select(env.config, Unrank(n, Sizes(env.config)))
       case DupKey(key) => rep.result.error == DuplicatedKey(key)
       case NoEntry(_) => rep.result.error == IndexError
       case Picked(_, _) => false)
  }

  lemma {:induction false} BatchFromProtocol(env: Env, w: World, k: nat, trials: seq<Trial>)
    requires k <= Product(Sizes(env.config)) && |trials| == k
    ensures Protocol(env, k, trials, BatchFrom(env, w, k, trials))
    decreases Product(Sizes(env.config)) - k
  {
    var s := StepAt(env.config, k);
    if s.Yield? {
      BatchEnds(env, w, k, trials);
      var (attempts, w1) := Retry(env, w, s.title, s.conf);
      if |attempts| > 0 && Succeeded(Last(attempts)) {
        ProtocolNext(env, w, k, trials, s.title, s.conf);
        BatchFromProtocol(env, w1, k + 1, trials + [Trial(s.title, attempts)]);
        ProtocolSucceeded(env, w, k, trials, s.title, s.conf);
      } else {
        ProtocolStopped(env, w, k, trials, s.title, s.conf);
      }
    } else {
      ProtocolEnd(env, w, k, trials);
    }
  }

  /** A combination whose trials end with a success leaves the batch to the
      next combination. */
  lemma ProtocolNext(env: Env, w: World, k: nat, trials: seq<Trial>, title: string, conf: Conf)
    requires k < Product(Sizes(env.config))
    requires Select(env.config, Unrank(k, Sizes(env.config))) == Picked(title, conf)
    requires var attempts := Retry(env, w, title, conf).0; |attempts| > 0 && Succeeded(Last(attempts))
    ensures k + 1 <= Product(Sizes(env.config))
    ensures var (attempts, w1) := Retry(env, w, title, conf);
            BatchFrom(env, w, k, trials) == BatchFrom(env, w1, k + 1, trials + [Trial(title, attempts)])
  {
    BatchStep(env, w, k, trials, title, conf);
  }

  /** The protocol of the rest of the batch, extended by a finished
      combination, is the protocol from that combination on. */
  lemma ProtocolSucceeded(env: Env, w: World, k: nat, trials: seq<Trial>, title: string, conf: Conf)
    requires |trials| == k && k + 1 <= Product(Sizes(env.config))
    requires Select(env.config, Unrank(k, Sizes(env.config))) == Picked(title, conf)
    requires var attempts := Retry(env, w, title, conf).0; |attempts| > 0 && Succeeded(Last(attempts))
    requires var (attempts, w1) := Retry(env, w, title, conf);
             BatchFrom(env, w, k, trials) == BatchFrom(env, w1, k + 1, trials + [Trial(title, attempts)]) &&
             Protocol(env, k + 1, trials + [Trial(title, attempts)], BatchFrom(env, w1, k + 1, trials + [Trial(title, attempts)]))
    ensures Protocol(env, k, trials, BatchFrom(env, w, k, trials))
  {
    var (attempts, w1) := Retry(env, w, title, conf);
    var t := Trial(title, attempts);
    ProtocolStep(env, k, trials, t, BatchFrom(env, w1, k + 1, trials + [t]));
  }

  /** A combination whose trials do not end with a success is the last one
      the batch attempts. */
  lemma ProtocolStopped(env: Env, w: World, k: nat, trials: seq<Trial>, title: string, conf: Conf)
    requires |trials| == k < Product(Sizes(env.config))
    requires Select(env.config, Unrank(k, Sizes(env.config))) == Picked(title, conf)
    requires var attempts := Retry(env, w, title, conf).0; !(|attempts| > 0 && Succeeded(Last(attempts)))
    ensures Protocol(env, k, trials, BatchFrom(env, w, k, trials))
  {
    BatchStep(env, w, k, trials, title, conf);
    var (attempts, w1) := Retry(env, w, title, conf);
    ProtocolLast(env, k, trials, Trial(title, attempts), w1);
  }

  /** The report of a batch that the iterator ends at the k-th combination. */
  lemma ProtocolEnd(env: Env, w: World, k: nat, trials: seq<Trial>)
    requires k <= Product(Sizes(env.config)) && |trials| == k
    requires !StepAt(env.config, k).Yield?
    ensures Protocol(env, k, trials, BatchFrom(env, w, k, trials))
  {
    BatchEnds(env, w, k, trials);
    assert trials[..k] == trials;
  }

  /** A finished k-th combination extends the protocol one step back. */
  lemma ProtocolStep(env: Env, k: nat, trials: seq<Trial>, t: Trial, rep: Report)
    requires |trials| == k && Finished(env, k, t)
    requires Protocol(env, k + 1, trials + [t], rep)
    ensures Protocol(env, k, trials, rep)
  {
    assert rep.trials[..k] == rep.trials[..k + 1][..k] == trials;
    assert rep.trials[k] == rep.trials[..k + 1][k] == t;
  }

  /** The report of a combination that stopped the batch by its trials. */
  lemma ProtocolLast(env: Env, k: nat, trials: seq<Trial>, t: Trial, w: World)
    requires |trials| == k < Product(Sizes(env.config))
    requires Select(env.config, Unrank(k, Sizes(env.config))).Picked?
    requires t.title == Select(env.config, Unrank(k, Sizes(env.config))).title
    requires RetryShaped(t.attempts, env.maxTrial)
    requires !(|t.attempts| > 0 && Succeeded(Last(t.attempts)))
    ensures var result := if |t.attempts| > 0 && Last(t.attempts).Cancelled? then KeyboardInterrupt else Aborted(FailedToRun);
            Protocol(env, k, trials, Report(result, k, trials + [t], w))
  {
    assert (trials + [t])[..k] == trials;
    assert (trials + [t])[k] == t;
    if !(|t.attempts| > 0 && Last(t.attempts).Cancelled?) {
      assert Exhausted(t.attempts) by {
        if |t.attempts| > 0 {
          assert Failed(Last(t.attempts));
        }
      }
    }
  }

  /** The batch ends at the k-th combination when the iterator is finished
      or cannot build it. */
  lemma BatchEnds(env: Env, w: World, k: nat, trials: seq<Trial>)
    requires k <= Product(Sizes(env.config))
    ensures var s := StepAt(env.config, k);
            (s.Stop? ==> BatchFrom(env, w, k, trials) == Report(Completed, k, trials, w)) &&
            (s.Raise? ==> BatchFrom(env, w, k, trials) == Report(Aborted(s.error), k, trials, w)) &&
            (s.Yield? ==> k < Product(Sizes(env.config)) && Select(env.config, Unrank(k, Sizes(env.config))) == Picked(s.title, s.conf))
  {
    var p := Product(Sizes(env.config));
    if !(p > 0 && k == p) {
      match Select(env.config, Unrank(k, Sizes(env.config)))
      case Picked(_, _) =>
        SelectPicked(env.config, Unrank(k, Sizes(env.config)));
        ProductPositive(Sizes(env.config));
      case DupKey(key) =>
        assert BatchFrom(env, w, k, trials) == Report(Aborted(DuplicatedKey(key)), k, trials, w);
      case NoEntry(_) =>
        assert BatchFrom(env, w, k, trials) == Report(Aborted(IndexError), k, trials, w);
    }
  }

  /** One combination of the batch: its trials, then the rest of the batch
      or the report that ends it. */
  lemma BatchStep(env: Env, w: World, k: nat, trials: seq<Trial>, title: string, conf: Conf)
    requires k <= Product(Sizes(env.config)) && !(Product(Sizes(env.config)) > 0 && k == Product(Sizes(env.config)))
    requires Select(env.config, Unrank(k, Sizes(env.config))) == Picked(title, conf)
    ensures var (attempts, w1) := RetryFrom(env, w, title, conf, 0, []);
            var trials' := trials + [Trial(title, attempts)];
            if |attempts| > 0 && Succeeded(Last(attempts)) then
              k + 1 <= Product(Sizes(env.config)) && BatchFrom(env, w, k, trials) == BatchFrom(env, w1, k + 1, trials')
            else if |attempts| > 0 && Last(attempts).Cancelled? then
              BatchFrom(env, w, k, trials) == Report(KeyboardInterrupt, k, trials', w1)
            else
              BatchFrom(env, w, k, trials) == Report(Aborted(FailedToRun), k, trials', w1)
  {
    SelectPicked(env.config, Unrank(k, Sizes(env.config)));
    ProductPositive(Sizes(env.config));
  }

  /** The whole batch keeps the protocol: each combination is tried at most
      `max_trial` times and only until its first success, progress counts the
      finished combinations in odometer order, and an exhausted or
      interrupted combination is the last one attempted. */
  lemma BatchProtocol(env: Env, w: World)
    ensures Protocol(env, 0, [], Batch(env, w))
  {
    BatchFromProtocol(env, w, 0, []);
  }

  /** How many attempts the trials made. */
  function AttemptCount(ts: seq<Trial>): nat
  {
    if |ts| == 0 then 0 else |ts[0].attempts| + AttemptCount(ts[1..])
  }

  /** The configuration of the k-th combination (empty when the iterator
      cannot build it). */
  ghost function ConfAt(config: seq<ParamSet>, k: nat): Conf
  {
    match Select(config, Unrank(k, Sizes(config)))
    case Picked(_, conf) => conf
    case _ => []
  }

  /** The runner calls the trials `ts` of the k-th combination on make: for
      each trial in turn, one per attempt that reached the runner, with the
      trial's title and its combination's configuration. */
  ghost function Expected(env: Env, k: nat, ts: seq<Trial>): seq<(string, Conf)>
    decreases |ts|
  {
    if |ts| == 0 then []
    else Repeat(CallCount(ts[0].attempts), (ts[0].title, ConfAt(env.config, k))) + Expected(env, k + 1, ts[1..])
  }

  /** What a report says about the world of a batch that started at
      combination k, after the trials `trials`, in the world `w`: one clock
      reading per attempt, the earlier runner calls kept, and after them
      exactly the calls the new trials made, in order. */
  ghost predicate Accounted(env: Env, w: World, k: nat, trials: seq<Trial>, rep: Report)
  {
    |trials| == k <= |rep.trials| && rep.trials[..k] == trials &&
    rep.world.ticks == w.ticks + AttemptCount(rep.trials[k..]) &&
    |w.calls| <= |rep.world.calls| && rep.world.calls[..|w.calls|] == w.calls &&
    Headers(rep.world.calls[|w.calls|..]) == Expected(env, k, rep.trials[k..])
  }

  lemma {:induction false} BatchFromAccounted(env: Env, w: World, k: nat, trials: seq<Trial>)
    requires k <= Product(Sizes(env.config)) && |trials| == k
    ensures Accounted(env, w, k, trials, BatchFrom(env, w, k, trials))
    decreases Product(Sizes(env.config)) - k
  {
    var s := StepAt(env.config, k);
    BatchEnds(env, w, k, trials);
    if s.Yield? {
      var (attempts, w1) := Retry(env, w, s.title, s.conf);
      RetryCalls(env, w, s.title, s.conf);
      var t := Trial(s.title, attempts);
      if |attempts| > 0 && Succeeded(Last(attempts)) {
        ProtocolNext(env, w, k, trials, s.title, s.conf);
        BatchFromAccounted(env, w1, k + 1, trials + [t]);
        AccountedStep(env, w, k, trials, t, w1, BatchFrom(env, w1, k + 1, trials + [t]));
      } else {
        BatchStep(env, w, k, trials, s.title, s.conf);
        AccountedLast(env, w, k, trials, t, w1, BatchFrom(env, w, k, trials));
      }
    } else {
      assert trials[..k] == trials;
      assert w.calls[|w.calls|..] == [];
    }
  }

  /** The trial `t` of the k-th combination, made between `w` and `w1`,
      extends the accounting one combination back. */
  lemma AccountedStep(env: Env, w: World, k: nat, trials: seq<Trial>, t: Trial, w1: World, rep: Report)
    requires w1.ticks == w.ticks + |t.attempts|
    requires |w.calls| <= |w1.calls| && w1.calls[..|w.calls|] == w.calls
    requires Headers(w1.calls[|w.calls|..]) == Repeat(CallCount(t.attempts), (t.title, ConfAt(env.config, k)))
    requires Accounted(env, w1, k + 1, trials + [t], rep)
    ensures Accounted(env, w, k, trials, rep)
  {
    assert rep.trials[..k] == rep.trials[..k + 1][..k] == trials;
    assert rep.trials[k..][0] == rep.trials[..k + 1][k] == t;
    assert rep.trials[k..][1..] == rep.trials[k + 1..];
    var c := rep.world.calls;
    assert c[..|w.calls|] == c[..|w1.calls|][..|w.calls|];
    assert c[|w.calls|..] == w1.calls[|w.calls|..] + c[|w1.calls|..];
    HeadersConcat(w1.calls[|w.calls|..], c[|w1.calls|..]);
  }

  /** The trial `t` of the k-th combination, made between `w` and `w1`, as
      the last one of the report. */
  lemma AccountedLast(env: Env, w: World, k: nat, trials: seq<Trial>, t: Trial, w1: World, rep: Report)
    requires |trials| == k && rep.trials == trials + [t] && rep.world == w1
    requires w1.ticks == w.ticks + |t.attempts|
    requires |w.calls| <= |w1.calls| && w1.calls[..|w.calls|] == w.calls
    requires Headers(w1.calls[|w.calls|..]) == Repeat(CallCount(t.attempts), (t.title, ConfAt(env.config, k)))
    ensures Accounted(env, w, k, trials, rep)
  {
  }

  /** A whole run reads the clock once per attempt, and the runner's call
      log grows by exactly the calls the trials made: in odometer order, one
      per attempt that reached the runner, each with its combination's title
      and configuration. */
  lemma BatchAccounted(env: Env, w: World)
    ensures Accounted(env, w, 0, [], Batch(env, w))
  {
    BatchFromAccounted(env, w, 0, []);
  }

  /** An attempt leaves the lock of its own log directory in place (and,
      without a log directory, touches no directory at all). */
  lemma SingleKeepsLock(s: Setup, w: World, title: string, conf: Conf, now: Timestamp, root: string)
    requires LockHeld(w.dirs, root) && (s.log.None? || s.log == Some(root))
    ensures LockHeld(Single(s, w, title, conf, now).1.dirs, root)
  {
    if s.log.Some? {
      AllocateKeepsRoot(w.dirs, root, title, s.skip, now);
    }
  }

  lemma {:induction false} RetryFromKeepsLock(env: Env, w: World, title: string, conf: Conf, trial: nat, acc: seq<Attempt>, root: string)
    requires LockHeld(w.dirs, root) && (env.setup.log.None? || env.setup.log == Some(root))
    ensures LockHeld(RetryFrom(env, w, title, conf, trial, acc).1.dirs, root)
    decreases Max0(env.maxTrial - trial)
  {
    if trial < env.maxTrial {
      var (a, w1) := Single(env.setup, w, title, conf, env.clock(w.ticks));
      SingleKeepsLock(env.setup, w, title, conf, env.clock(w.ticks), root);
      if !(Succeeded(a) || a.Cancelled?) {
        RetryFromKeepsLock(env, w1.(ticks := w1.ticks + 1), title, conf, trial + 1, acc + [a], root);
      }
    }
  }

  lemma {:induction false} BatchFromKeepsLock(env: Env, w: World, k: nat, trials: seq<Trial>, root: string)
    requires k <= Product(Sizes(env.config)) && |trials| == k
    requires LockHeld(w.dirs, root) && (env.setup.log.None? || env.setup.log == Some(root))
    ensures LockHeld(BatchFrom(env, w, k, trials).world.dirs, root)
    decreases Product(Sizes(env.config)) - k
  {
    var s := StepAt(env.config, k);
    BatchEnds(env, w, k, trials);
    if s.Yield? {
      var (attempts, w1) := Retry(env, w, s.title, s.conf);
      RetryFromKeepsLock(env, w, s.title, s.conf, 0, [], root);
      if |attempts| > 0 && Succeeded(Last(attempts)) {
        ProtocolNext(env, w, k, trials, s.title, s.conf);
        BatchFromKeepsLock(env, w1, k + 1, trials + [Trial(s.title, attempts)], root);
      } else {
        BatchStep(env, w, k, trials, s.title, s.conf);
      }
    }
  }

  /** The lock a TrackLog took on the log directory survives the whole
      batch, so the removal in `__del__` that ends the run succeeds: for as
      long as the batch runs, no other process can take the directory. */
  lemma BatchKeepsLock(env: Env, w: World, root: string)
    requires LockHeld(w.dirs, root) && (env.setup.log.None? || env.setup.log == Some(root))
    ensures LockHeld(Batch(env, w).world.dirs, root)
    ensures Unlock(Batch(env, w).world.dirs, root, false).0 == Pass
    ensures root != "" ==> Lock(Batch(env, w).world.dirs, root, false).0 == Fail(DirectoryBusy)
  {
    BatchFromKeepsLock(env, w, 0, [], root);
  }

  /** A completed batch advanced the progress bar once per combination:
      `count(config)` times for a non-empty list, but once, against a total
      of 0, for the empty list. */
  lemma CompletedProgress(env: Env, w: World)
    requires Batch(env, w).result == Completed
    ensures Batch(env, w).progress == Product(Sizes(env.config)) > 0
    ensures |env.config| == 0 ==> Batch(env, w).progress == 1
  {
    BatchProtocol(env, w);
  }

  /** With the base runner and no log directory, no batch completes: the
      first combination fails all its trials, or the iterator fails first. */
  lemma BaseRunnerNeverCompletes(env: Env, w: World)
    requires env.setup.log.None? && env.setup.respond == BaseRespond
    ensures Batch(env, w).result.Aborted? && Batch(env, w).progress == 0
  {
    var sizes := Sizes(env.config);
    UnrankZero(sizes);
    SelectPicked(env.config, Unrank(0, sizes));
    ProductPositive(sizes);
    match Select(env.config, Unrank(0, sizes))
    case DupKey(_) =>
    case NoEntry(_) =>
    case Picked(title, conf) =>
      RetryFailsWithBase(env, w, title, conf, 0, []);
      var attempts := Retry(env, w, title, conf).0;
      if |attempts| > 0 {
        assert Failed(Last(attempts));
      }
  }

  lemma {:induction false} RetryFailsWithBase(env: Env, w: World, title: string, conf: Conf, trial: nat, acc: seq<Attempt>)
    requires env.setup.log.None? && env.setup.respond == BaseRespond
    requires Exhausted(acc)
    ensures Exhausted(RetryFrom(env, w, title, conf, trial, acc).0)
    decreases Max0(env.maxTrial - trial)
  {
    if trial < env.maxTrial {
      var (a, w1) := Single(env.setup, w, title, conf, env.clock(w.ticks));
      assert a == RunFailed(NotImplemented);
      var w2 := w1.(ticks := w1.ticks + 1);
      RetryFailsWithBase(env, w2, title, conf, trial + 1, acc + [a]);
    }
  }

  // ---------------------------------------------------------------------
  // The Experimentor object.
  // ---------------------------------------------------------------------

  class Experimentor {
    const config: seq<ParamSet>
    const runner: Runner
    /** `self.track_log`: null when `log_dir` was None. */
    const trackLog: TrackLog?
    /** The file system the track log works on. */
    const fs: FileSystem

    /** The track log, when there is one, works on `fs`. */
    predicate Linked()
    {
      trackLog != null ==> trackLog.fs == fs
    }

    constructor (config: seq<ParamSet>, runner: Runner, trackLog: TrackLog?, fs: FileSystem)
      requires trackLog != null ==> trackLog.fs == fs
      ensures this.config == config && this.runner == runner && this.trackLog == trackLog && this.fs == fs
      ensures Linked()
    {
      this.config := config;
      this.runner := runner;
      this.trackLog := trackLog;
      this.fs := fs;
    }

    /** `Experimentor(config, runner, log_dir)`: a TrackLog with the lock
        enabled is built for a log directory, and its failure means no
        object. */
    static method Create(config: seq<ParamSet>, runner: Runner, logDir: Option<string>, fs: FileSystem)
      returns (r: Result<Experimentor, Exception>)
      modifies fs
      ensures logDir.None? ==> r.Ok? && r.value.trackLog == null && fs.dirs == old(fs.dirs)
      ensures logDir.Some? ==>
                fs.dirs == Lock(old(fs.dirs), logDir.value, false).1 &&
                (r.Ok? <==> Lock(old(fs.dirs), logDir.value, false).0 == Pass) &&
                (r.Err? ==> r.error == Lock(old(fs.dirs), logDir.value, false).0.error) &&
                (r.Ok? ==> r.value.trackLog != null && r.value.trackLog.root == logDir.value &&
                           !r.value.trackLog.disableLock && r.value.trackLog.fs == fs)
      ensures r.Ok? ==> fresh(r.value) && r.value.config == config && r.value.runner == runner &&
                        r.value.fs == fs && r.value.Linked()
    {
      var trackLog: TrackLog? := null;
      if logDir.Some? {
        var t := TrackLog.Open(logDir.value, false, fs);
        if t.Err? {
          return Err(t.error);
        }
        trackLog := t.value;
      }
      var e := new Experimentor(config, runner, trackLog, fs);
      return Ok(e);
    }

    function SetupOf(skip: bool): Setup
    {
      Setup(if trackLog == null then None else Some(trackLog.root), runner.respond, skip)
    }

    /** The world as the objects hold it, after `ticks` attempts. */
    ghost function State(ticks: nat): World
      reads runner, fs
    {
      World(fs.dirs, runner.calls, ticks)
    }

    /** `run_single_experiment(title, config, skip_exist)` with the clock
        reading `now`. */
    method RunSingleExperiment(title: string, conf: Conf, skip: bool, now: Timestamp, ghost ticks: nat) returns (a: Attempt)
      requires Linked()
      modifies runner, fs
      ensures (a, State(ticks)) == Single(SetupOf(skip), old(State(ticks)), title, conf, now)
    {
      var file: Option<string> := None;
      if trackLog != null {
        var r := trackLog.AddLogFile(title, skip, now);
        match r {
          case Err(e) =>
            return LogFailed(e);
          case Ok(None) =>
            return Skipped;
          case Ok(Some(path)) =>
            file := Some(path);
        }
      }
      var o := runner.RunExperiment(title, conf, file);
      return AttemptOf(o);
    }

    /** The inner loop of `run_experiments`: up to `max_trial` attempts at
        one combination, stopping at the first success; KeyboardInterrupt
        ends it at once. Returns whether it succeeded, whether it was
        interrupted, and the attempt count afterwards. */
    method RunTrials(title: string, conf: Conf, maxTrial: int, skip: bool, clock: nat -> Timestamp, ticks: nat)
      returns (successful: bool, interrupted: bool, ticks': nat)
      requires Linked()
      modifies runner, fs
      ensures var (attempts, w) := RetryFrom(Env(SetupOf(skip), config, clock, maxTrial), old(State(ticks)), title, conf, 0, []);
              State(ticks') == w &&
              successful == (|attempts| > 0 && Succeeded(Last(attempts))) &&
              interrupted == (|attempts| > 0 && Last(attempts).Cancelled?)
    {
      ghost var env := Env(SetupOf(skip), config, clock, maxTrial);
      ghost var wStart := State(ticks);
      successful, interrupted, ticks' := false, false, ticks;
      var trial: nat := 0;
      ghost var attempts: seq<Attempt> := [];
      while trial < maxTrial
        invariant trial == |attempts| && Exhausted(attempts)
        invariant RetryFrom(env, State(ticks'), title, conf, trial, attempts) == RetryFrom(env, wStart, title, conf, 0, [])
        decreases maxTrial - trial
      {
        var a := RunSingleExperiment(title, conf, skip, clock(ticks'), ticks');
        ticks' := ticks' + 1;
        attempts := attempts + [a];
        if Succeeded(a) {
          successful := true;
          return;
        }
        if a.Cancelled? {
          interrupted := true;
          return;
        }
        trial := trial + 1;
      }
      assert |attempts| == 0 || Failed(Last(attempts));
    }

    /** One pass of the `for` loop of `run_experiments`: take the next pair
        from the iterator and handle it. */
    method Advance(it: ConfigureIterable, maxTrial: int, skip: bool, clock: nat -> Timestamp, ticks: nat,
                   ghost trials: seq<Trial>)
      returns (done: bool, result: BatchResult, ticks': nat, ghost trials': seq<Trial>)
      requires it.Valid() && it.config == config && Linked()
      modifies it, it.index, runner, fs
      ensures it.Valid() && it.config == config
      ensures var env := Env(SetupOf(skip), config, clock, maxTrial);
              var before := BatchFrom(env, old(State(ticks)), old(it.yielded), trials);
              if done then before == Report(result, old(it.yielded), trials', State(ticks'))
              else it.yielded == old(it.yielded) + 1 && before == BatchFrom(env, State(ticks'), it.yielded, trials')
    {
      ghost var env := Env(SetupOf(skip), config, clock, maxTrial);
      ghost var k := it.yielded;
      ghost var w := State(ticks);
      ghost var before := BatchFrom(env, w, k, trials);
      var step := it.Next();
      assert State(ticks) == w;
      ghost var y := it.yielded;
      done, result, ticks', trials' := Handle(step, maxTrial, skip, clock, ticks, k, trials);
      assert it.Valid() && it.yielded == y;
      if done {
        assert before == Report(result, k, trials', State(ticks'));
      } else {
        assert y == k + 1;
        assert before == BatchFrom(env, State(ticks'), y, trials');
      }
    }

    /** The body of the `for` loop of `run_experiments` once the iterator
        handed out `step` after k pairs: the batch ends here (`done`, with
        `result`), or the pair was finished and the batch goes on. */
    method Handle(step: Step, maxTrial: int, skip: bool, clock: nat -> Timestamp, ticks: nat,
                  ghost k: nat, ghost trials: seq<Trial>)
      returns (done: bool, result: BatchResult, ticks': nat, ghost trials': seq<Trial>)
      requires k <= Product(Sizes(config)) && step == StepAt(config, k)
      requires Linked()
      modifies runner, fs
      ensures !done ==> step.Yield?
      ensures var env := Env(SetupOf(skip), config, clock, maxTrial);
              var before := BatchFrom(env, old(State(ticks)), k, trials);
              if done then before == Report(result, k, trials', State(ticks'))
              else k + 1 <= Product(Sizes(config)) && before == BatchFrom(env, State(ticks'), k + 1, trials')
    {
      BatchEnds(Env(SetupOf(skip), config, clock, maxTrial), State(ticks), k, trials);
      match step
      case Stop =>
        return true, Completed, ticks, trials;
      case Raise(e) =>
        return true, Aborted(e), ticks, trials;
      case Yield(title, conf) =>
        done, result, ticks', trials' := TryCombination(title, conf, maxTrial, skip, clock, ticks, k, trials);
    }

    /** The body of the `for` loop for the k-th pair `(title, conf)`: its
        trials, then either the batch goes on (`done` unset) or it ends with
        `result`. */
    method TryCombination(title: string, conf: Conf, maxTrial: int, skip: bool, clock: nat -> Timestamp, ticks: nat,
                          ghost k: nat, ghost trials: seq<Trial>)
      returns (done: bool, result: BatchResult, ticks': nat, ghost trials': seq<Trial>)
      requires k < Product(Sizes(config))
      requires Select(config, Unrank(k, Sizes(config))) == Picked(title, conf)
      requires Linked()
      modifies runner, fs
      ensures var env := Env(SetupOf(skip), config, clock, maxTrial);
              var before := BatchFrom(env, old(State(ticks)), k, trials);
              if done then before == Report(result, k, trials', State(ticks'))
              else k + 1 <= Product(Sizes(config)) && before == BatchFrom(env, State(ticks'), k + 1, trials')
    {
      ghost var env := Env(SetupOf(skip), config, clock, maxTrial);
      ghost var w := State(ticks);
      BatchStep(env, w, k, trials, title, conf);
      var successful, interrupted;
      successful, interrupted, ticks' := RunTrials(title, conf, maxTrial, skip, clock, ticks);
      trials' := trials + [Trial(title, RetryFrom(env, w, title, conf, 0, []).0)];
      done := !successful;
      result := if interrupted then KeyboardInterrupt else Aborted(FailedToRun);
    }

    /** `run_experiments(max_trial, skip_exist)`, with `clock(n)` the UTC
        reading at the n-th attempt. Returns how the batch ends, the progress
        bar's total and how often it advanced. */
    method RunExperiments(maxTrial: int, skip: bool, clock: nat -> Timestamp)
      returns (result: BatchResult, total: nat, progress: nat)
      requires Linked()
      modifies runner, fs
      ensures total == (if |config| == 0 then 0 else Product(Sizes(config)))
      ensures var rep := Batch(Env(SetupOf(skip), config, clock, maxTrial), old(State(0)));
              result == rep.result && progress == rep.progress && State(rep.world.ticks) == rep.world
    {
      total := Count(config);
      ghost var env := Env(SetupOf(skip), config, clock, maxTrial);
      ghost var w0 := State(0);
      var it := new ConfigureIterable(config);
      progress := 0;
      var ticks: nat := 0;
      ghost var trials: seq<Trial> := [];
      var done := false;
      result := Completed;
      while !done
        invariant fresh(it) && fresh(it.index) && it.Valid() && it.config == config
        invariant !done ==> progress == it.yielded
        invariant !done ==> BatchFrom(env, State(ticks), progress, trials) == Batch(env, w0)
        invariant done ==> Batch(env, w0) == Report(result, progress, trials, State(ticks))
        decreases !done, Product(it.numIndex) - it.yielded
      {
        done, result, ticks, trials := Advance(it, maxTrial, skip, clock, ticks, trials);
        if !done {
          progress := progress + 1;
        }
      }
    }
  }

  /** The module-level `run_experiments(config, func, log_dir, max_trial,
      skip_exist)`: build the Experimentor (taking the lock of `log_dir`),
      run the batch, and drop the object, whose TrackLog then removes its
      lock; an error from that removal is ignored, as Python ignores errors
      raised in `__del__`. `Ok(result)` says how the batch ended; an `Err` is
      the exception raised while building the Experimentor. */
  method RunAll(config: seq<ParamSet>, runner: Runner, logDir: Option<string>, fs: FileSystem,
                maxTrial: int, skip: bool, clock: nat -> Timestamp) returns (r: Result<BatchResult, Exception>)
    modifies runner, fs
    ensures var start := if logDir.None? then (Pass, old(fs.dirs)) else Lock(old(fs.dirs), logDir.value, false);
            var rep := Batch(Env(Setup(logDir, runner.respond, skip), config, clock, maxTrial),
                             World(start.1, old(runner.calls), 0));
            if start.0.Fail? then r == Err(start.0.error) && fs.dirs == start.1 && runner.calls == old(runner.calls)
            else r == Ok(rep.result) && runner.calls == rep.world.calls &&
                 fs.dirs == (if logDir.None? then rep.world.dirs else Unlock(rep.world.dirs, logDir.value, false).1)
    ensures var start := if logDir.None? then (Pass, old(fs.dirs)) else Lock(old(fs.dirs), logDir.value, false);
            var rep := Batch(Env(Setup(logDir, runner.respond, skip), config, clock, maxTrial),
                             World(start.1, old(runner.calls), 0));
            logDir.Some? && start.0 == Pass && Join(logDir.value, "lock") !in old(fs.dirs) ==>
              Unlock(rep.world.dirs, logDir.value, false).0 == Pass
  {
    var created := Experimentor.Create(config, runner, logDir, fs);
    if created.Err? {
      return Err(created.error);
    }
    var e := created.value;
    assert e.SetupOf(skip) == Setup(logDir, runner.respond, skip);
    if logDir.Some? && Join(logDir.value, "lock") !in fs.dirs {
      LockCreates(old(fs.dirs), logDir.value);
      BatchKeepsLock(Env(Setup(logDir, runner.respond, skip), config, clock, maxTrial),
                     World(fs.dirs, runner.calls, 0), logDir.value);
    }
    var result, total, progress := e.RunExperiments(maxTrial, skip, clock);
    if e.trackLog != null {
      var _ := e.trackLog.Close();
    }
    return Ok(result);
  }
}

# Experimentor, modelled in Dafny

Experimentor runs a batch of experiments over the cartesian product of
parameter sets. The configuration is a list of dicts. `ConfigureIterable`
walks the product like an odometer, with the last set varying fastest. Each
combination gets a title (the chosen keys joined by `_`) and a merged
config. `Experimentor.run_experiments` tries every combination up to
`max_trial` times and stops trying it at the first success. A combination
whose trials all fail aborts the whole batch with "Failed to run the
function". An optional `TrackLog` guards the log directory with a `lock`
file. It creates one timestamp-named log file per attempt under
`root/<title>/`. With `skip_exist` it skips a title whose subdirectory
already holds a file. `SimpleCommandRunner` turns a config into a shell
command and turns a non-zero exit code into an error.

The project has these modules:

- `Common` (common.dfy): `Option`, `Result`, `Outcome` and the exceptions the
  core raises.
- `Strings` (strings.dfy): Python's string order (`Less`), which `list.sort`
  uses, and the greatest name of a listing.
- `Timestamps` (timestamps.dfy): the `%Y_%m_%d_%H_%M_%S.log` file names and
  the proof that they sort as the times do.
- `ConfigureProduction` (configure_production.dfy): the odometer as a mixed
  radix count (`Unrank`/`Rank`/`Incremented`), the selection of one
  combination (`Select`), the per-step specification `StepAt`, and the
  class `ConfigureIterable` with its `index` array, its `finished` flag and
  the carry loop.
- `TrackLogs` (track_log.dfy): the filesystem as a map from directory path
  to listing. It holds the lock (`Lock`/`Unlock`), the allocation of a log
  file (`Allocate`) and the latest-log queries as functions. The class
  `TrackLog` updates a shared `FileSystem` object through those functions.
- `ExperimentRunners` (experiment_runner.dfy): the runner is an oracle class
  whose n-th call ends as `respond(n, call)` and is recorded. It also holds
  the base runner and `SimpleCommandRunner`'s command building.
- `Experimentors` (experimentor.dfy): `count`, and the controller as pure
  functions (`Single`, `RetryFrom`, `BatchFrom`, `Batch`) returning a
  `Report`. The report holds how the batch ended, how often the progress bar
  advanced, the attempts of every combination and the final world.
  `Protocol` states the batch's promises. The class `Experimentor` runs the
  nested loops, and its methods are proved equal to those functions.
- `Scenarios` (scenarios.dfy): the demonstration scripts
  (`examples/experiment_runner_examples.py`, `examples/skip_if_log_exists.py`)
  as end-to-end lemmas, plus the iterator's edge cases seen from the batch.

The clock, the subprocess and the runner's behaviour are parameters:

- `clock: nat -> Timestamp` gives, for the n-th attempt of a run, the UTC reading that `add_log_file` takes if it gets as far as naming a file. It never does so for a skip, and never without a log directory.
- A command's return code is an argument.
- The runner's outcome for its n-th call is `respond(n, call)`.

## Model

| member | source | states |
|---|---|---|
| Strings.LessIrreflexive | experimentor/track_log.py:161 | No name sorts before itself. |
| Strings.LessAsymmetric | experimentor/track_log.py:161 | If a sorts before b, then b does not sort before a. |
| Strings.LessTransitive | experimentor/track_log.py:161 | The sort order is transitive. |
| Strings.LessTotal | experimentor/track_log.py:161 | Any two distinct names are ordered one way or the other, so sorting a listing is well defined. |
| Strings.LessAppend | experimentor/track_log.py:161 | Names with equal-length prefixes compare by prefix first, then by the rest. |
| Strings.Greatest | experimentor/track_log.py:161-162 | The last element after sorting is in the listing and no name of the listing sorts after it. |
| Strings.GreatestUnique | experimentor/track_log.py:161-162 | Any member of the listing that no name sorts after is that last element. |
| Timestamps.Pad | experimentor/track_log.py:117 | A zero-padded field has exactly its width. |
| Timestamps.PadOrder | experimentor/track_log.py:117 | Padded numbers of one width sort, and are equal, exactly as the numbers are. |
| Timestamps.LogNameOrder | experimentor/track_log.py:117 | For valid times, log names sort exactly as the times are ordered, and equal names mean equal times (to the second). |
| ConfigureProduction.Unrank | experimentor/configure_production.py:59-69 | The index after k increments has one digit per set. |
| ConfigureProduction.Incremented | experimentor/configure_production.py:59-71 | `increment` keeps the index length. |
| ConfigureProduction.ProductPositive | experimentor/configure_production.py:30-31 | There are combinations at all exactly when no set is empty. |
| ConfigureProduction.UnrankZero | experimentor/configure_production.py:31 | The zero-th index vector is all zeros, which is the initial `index`. |
| ConfigureProduction.UnrankInRange | experimentor/configure_production.py:59-69 | Before the end, every `index[i] < num_index[i]`. |
| ConfigureProduction.RankUnrank | experimentor/configure_production.py:59-69 | Distinct steps give distinct index vectors, so no combination is repeated. |
| ConfigureProduction.UnrankRank | experimentor/configure_production.py:59-69 | Every in-range index vector is reached at exactly one step, so none is missed. |
| ConfigureProduction.IncrementUnrank | experimentor/configure_production.py:59-71 | `increment` moves the k-th index to the (k+1)-th, last set fastest, and reports a carry out of position 0 exactly at the last combination. |
| ConfigureProduction.JoinTitleSnoc | experimentor/configure_production.py:47-50 | Appending a key adds `_key`, except for the first key. |
| ConfigureProduction.SelectUpToPicked | experimentor/configure_production.py:47-54 | The first n sets yield a pair exactly when their indices are in range and their chosen keys are distinct. The pair is then the joined keys and the chosen entries. |
| ConfigureProduction.SelectSticks | experimentor/configure_production.py:50-53 | Once a set raises, later sets do not change the error. |
| ConfigureProduction.SelectPicked | experimentor/configure_production.py:45-54 | A whole selection is a pair exactly when every index is in range and the chosen keys are distinct. The title is the keys joined by `_` and `conf` is the chosen entries in set order. |
| ConfigureProduction.SelectDupKey | experimentor/configure_production.py:52-53 | "Duplicated key" names a key chosen in two different sets. |
| ConfigureProduction.ConfigureIterable.constructor | experimentor/configure_production.py:22-35 | A fresh iterator has an all-zero index, is not finished and has yielded nothing. |
| ConfigureProduction.ConfigureIterable.Next | experimentor/configure_production.py:40-57 | The n-th `__next__` returns the n-th step of the odometer: pair, StopIteration or error. It advances only when it returns a pair. |
| ConfigureProduction.ConfigureIterable.MoveOn | experimentor/configure_production.py:56 | After a pair, the iterator moves to the next combination and keeps its invariant. |
| ConfigureProduction.ConfigureIterable.Current | experimentor/configure_production.py:45-54 | The title/conf loop computes the selection of the current index, raising on a duplicate key or an empty set. |
| ConfigureProduction.ConfigureIterable.Increment | experimentor/configure_production.py:59-71 | The carry loop leaves the index of `Incremented`. It sets `finished` exactly when the carry leaves position 0, which is always the case for an empty list. |
| ExperimentRunners.Runner.RunExperiment | experimentor/experimentor.py:91 | A runner call is recorded and ends as the oracle says for that call. |
| ExperimentRunners.SegmentsConcat | experimentor/experiment_runner.py:69-77 | The values' segments follow the config's insertion order. |
| ExperimentRunners.CommandStarts | experimentor/experiment_runner.py:68-77 | The command starts with the base command and is exactly it for an empty config. |
| ExperimentRunners.CommandFirst | experimentor/experiment_runner.py:69-77 | The first value's segment comes right after the base command. |
| ExperimentRunners.CommandIgnoresKeys | experimentor/experiment_runner.py:69 | Configs with the same values give the same command, whatever their keys. |
| ExperimentRunners.SimpleCommandRunner.constructor | experimentor/experiment_runner.py:46-48 | The runner keeps its base command. |
| ExperimentRunners.SimpleCommandRunner.RunExperiment | experimentor/experiment_runner.py:50-84 | The nested `+=` loops build the specified command: ` -k v` for one-character keys, ` --k v` otherwise, ` value` for scalars. The outcome is success exactly for return code 0. |
| Experimentors.Count | experimentor/experimentor.py:95-101 | `count` is 0 for an empty list and the product of the set sizes otherwise. |
| Experimentors.Single | experimentor/experimentor.py:78-92 | One attempt does not advance the attempt counter (the retry loop does). |
| Experimentors.NoLogNoFile | experimentor/experimentor.py:80-91 | Without a log directory, the filesystem is untouched, the runner is called once with `file=None`, and the attempt is neither a skip nor a log failure. |
| Experimentors.SingleSkips | experimentor/experimentor.py:83-85 | With `skip_exist`, an attempt is a skip exactly when the allocator returns None. A skip calls no runner. |
| Experimentors.LogFailureIsFailedAttempt | experimentor/experimentor.py:82-88 | A raising allocator makes the attempt fail (absorbed by the retry loop) without calling the runner. |
| Experimentors.SingleCalls | experimentor/experimentor.py:80-91 | An attempt calls the runner exactly when it returned, raised or was interrupted. That one call has the combination's title and config. Earlier calls are kept. |
| Experimentors.RetryFromShaped | experimentor/experimentor.py:57-69 | The retry loop makes at most `max_trial` attempts, stops at the first success or interrupt, and otherwise makes all `max_trial` of them. |
| Experimentors.Retry | experimentor/experimentor.py:57-69 | A combination's attempts have the retry loop's shape, and the attempt counter that indexes the clock advances once per attempt. |
| Experimentors.RetryFromCalls | experimentor/experimentor.py:57-62 | From any trial number on, the retry loop keeps the earlier attempts and calls. It adds one call, with the combination's title and config, per new attempt that reached the runner. |
| Experimentors.RetryCalls | experimentor/experimentor.py:57-62 | A combination's attempts call the runner once per attempt that reached it, with that combination's title and config. |
| Experimentors.BatchFromProtocol | experimentor/experimentor.py:55-76 | From any combination on, the report keeps the protocol: ordered finished combinations, completion iff all finished, nothing after a stopping combination. |
| Experimentors.ProtocolLast | experimentor/experimentor.py:63-69 | A combination without success ends the batch: KeyboardInterrupt if its last attempt was interrupted, otherwise "Failed to run the function". |
| Experimentors.BatchEnds | experimentor/experimentor.py:54-76 | When the iterator stops or raises, the batch ends there: completed, or aborted with the iterator's error unwrapped. |
| Experimentors.BatchStep | experimentor/experimentor.py:55-70 | A combination's trials either stop the batch or advance the progress bar once and continue with the next combination. |
| Experimentors.BatchProtocol | experimentor/experimentor.py:49-76 | A whole run obeys the protocol. Combinations are finished in odometer order with at most `max_trial` attempts. It completes exactly when all were finished. Nothing after an exhausted or interrupted combination is attempted. An iterator error escapes as itself. |
| Experimentors.BatchFromAccounted | experimentor/experimentor.py:55-70 | From any combination on, the report accounts for the world. The attempt counter that indexes the clock advanced once per attempt. The earlier runner calls are kept. The new calls are exactly those of the trials, in order: one per attempt that reached the runner, with the title and the selected config of that trial's combination. |
| Experimentors.BatchAccounted | experimentor/experimentor.py:49-76 | A whole run advances the attempt counter that indexes the clock once per attempt. It appends to the runner's call log exactly the calls its trials made, combination by combination in odometer order, each with that combination's title and config. |
| Experimentors.SingleKeepsLock | experimentor/experimentor.py:78-92 | An attempt leaves the lock of its own log directory held. Without a log directory it touches no directory at all. |
| Experimentors.RetryFromKeepsLock | experimentor/experimentor.py:57-62 | The retry loop, from any trial on, leaves the lock held. |
| Experimentors.BatchFromKeepsLock | experimentor/experimentor.py:55-70 | The batch, from any combination on, leaves the lock held. |
| Experimentors.BatchKeepsLock | experimentor/track_log.py:48-56 | The lock the TrackLog took survives the whole batch. So its release at the end succeeds, and meanwhile a second TrackLog on the directory fails with "Another process is using the directory". |
| Experimentors.CompletedProgress | experimentor/experimentor.py:50-70 | A completed batch advanced the bar once per combination. For an empty list that is 1, although `count` says 0. |
| Experimentors.BaseRunnerNeverCompletes | experimentor/experimentor.py:57-69 | With the base runner and no log directory, every batch aborts before the bar moves. |
| Experimentors.Experimentor.constructor | experimentor/experimentor.py:42-47 | The object holds its config, runner and (possibly absent) track log. |
| Experimentors.Experimentor.Create | experimentor/experimentor.py:35-47 | Without a log directory nothing is touched. With one, the lock is taken as `TrackLog(log_dir)` does, and construction fails with its error. |
| Experimentors.Experimentor.RunSingleExperiment | experimentor/experimentor.py:78-92 | The method's attempt and new state are those of `Single`. |
| Experimentors.Experimentor.RunTrials | experimentor/experimentor.py:56-69 | The inner `for trial` loop with its `successful` flag and `break` makes the attempts of `RetryFrom`. |
| Experimentors.Experimentor.Advance | experimentor/experimentor.py:55-70 | One pass of the outer loop either ends the batch with the specified report or hands the rest of the batch to the next combination. |
| Experimentors.Experimentor.Handle | experimentor/experimentor.py:55-73 | The outer loop's handling of one iterator step agrees with `BatchFrom`. |
| Experimentors.Experimentor.TryCombination | experimentor/experimentor.py:56-70 | One combination's trials, the final check and `pbar.update()` agree with `BatchFrom`. |
| Experimentors.Experimentor.RunExperiments | experimentor/experimentor.py:49-76 | The bar total is `count(config)`. Result, progress, trials, runner calls and filesystem are those of `Batch`, so `BatchProtocol` and `BatchAccounted` apply. |
| Experimentors.RunAll | experimentor/experimentor.py:11-21 | The module-level function fails with the lock error, or runs the batch and then releases the lock. When it took a fresh lock, that release succeeds. |
| TrackLogs.MakeDirs | experimentor/track_log.py:114 | After `makedirs`, the root and the subdirectory exist. The root's listing gains exactly the title and nothing else. An existing subdirectory keeps its listing. No other directory appears, and every other directory keeps its listing. |
| TrackLogs.MakeDirsExisting | experimentor/track_log.py:114 | `makedirs` on an existing subdirectory changes nothing. |
| TrackLogs.LockCreates | experimentor/track_log.py:87-96 | `init_dir` creates the root. It fails with "Another process is using the directory" exactly when `root/lock` exists, and otherwise creates it. Unless a directory `root/lock` was already there, the lock is then held as a file. |
| TrackLogs.LockExcludes | experimentor/track_log.py:93-96 | A second TrackLog on a locked root fails and changes nothing. |
| TrackLogs.Unlock | experimentor/track_log.py:75-78 | With the lock enabled, `__del__`'s removal succeeds exactly when `root/lock` is there as a file. A failed removal changes nothing. |
| TrackLogs.LockUnlock | experimentor/track_log.py:75-96 | Releasing a freshly taken lock restores the filesystem exactly. |
| TrackLogs.DisabledLock | experimentor/track_log.py:75-89 | With `disable_lock`, no lock file is created or removed. |
| TrackLogs.AllocateSkips | experimentor/track_log.py:113-116 | With skipping on, `add_log_file` returns None exactly when the subdirectory is already non-empty. It then creates no file. |
| TrackLogs.AllocateCreates | experimentor/track_log.py:113-121 | Otherwise it returns `root/name/<timestamp>.log`, which is then listed in `root/name`. |
| TrackLogs.AllocateKeepsRoot | experimentor/track_log.py:113-121 | `add_log_file` removes nothing from the root's listing, and a held lock stays held. A title `lock` meets the lock file where its subdirectory would be, and raises. |
| TrackLogs.SkipAfterAllocate | experimentor/track_log.py:115-121 | After a created log file, a later skipping call for the same name returns None. |
| TrackLogs.SameSecondSamePath | experimentor/track_log.py:117-120 | A second non-skipping call in the same second returns the same path and changes nothing, so one file remains. |
| TrackLogs.GetLatest | experimentor/track_log.py:147-162 | None when the subdirectory is missing or empty. When it lists something, the result is the path of its greatest name in sort order. It raises exactly when `root/name` is a plain file. |
| TrackLogs.OpenLatest | experimentor/track_log.py:165-182 | Opening the latest log fails with "No log file" exactly when there is none. When a latest log exists it is that path, and an error from listing is passed on unchanged. |
| TrackLogs.HasTrackLog | experimentor/track_log.py:133-144 | As written: False when the root is missing, True exactly when the subdirectory exists and is non-empty, an error when only the root exists. |
| TrackLogs.HasTrackLogRaises | experimentor/track_log.py:140-144 | Example of the finding below: an existing root without the title's subdirectory makes `has_track_log` raise. |
| TrackLogs.HasLogAgrees | experimentor/track_log.py:133-144 | The corrected check never raises where `get_latest_track_log_file` does not, and is True exactly when there is a latest file. |
| TrackLogs.LatestAfterAllocate | experimentor/track_log.py:155-162 | Right after allocating, the latest log is the new file, when no existing name sorts after it. |
| TrackLogs.LatestAfterLaterAllocate | experimentor/track_log.py:161-162 | If every existing log is no later than now, the new log becomes the latest. |
| TrackLogs.TrackLog.constructor | experimentor/track_log.py:63-72 | The object holds its root, lock setting and filesystem. |
| TrackLogs.TrackLog.Open | experimentor/track_log.py:63-73 | `TrackLog(root)` succeeds exactly when `init_dir` does and leaves the filesystem as `init_dir` does. |
| TrackLogs.TrackLog.InitDir | experimentor/track_log.py:80-96 | `init_dir` changes the filesystem as `Lock` specifies. |
| TrackLogs.TrackLog.Close | experimentor/track_log.py:75-78 | The explicit release changes the filesystem as `Unlock` specifies. |
| TrackLogs.TrackLog.AddLogFile | experimentor/track_log.py:98-121 | `add_log_file` returns and creates what `Allocate` specifies. |
| TrackLogs.TrackLog.OpenLatestLogFile | experimentor/track_log.py:123-130 | Fails with "No log file" exactly when the title has no log. When a latest log exists, it opens exactly that path. An error from listing is passed on. |
| Scenarios.DistinctKeysYield | experimentor/configure_production.py:45-54 | With distinct keys and no empty set, every step before the end yields a pair. |
| Scenarios.ThirdCallRetry | examples/experiment_runner_examples.py:36-44 | The first MaxTrialDemo fails twice and succeeds at the third trial of every combination. |
| Scenarios.ThirdCallStep | examples/experiment_runner_examples.py:36-44 | Such a combination takes three calls and leaves the call count a multiple of three. |
| Scenarios.ThirdCallCompletes | examples/experiment_runner_examples.py:31-44 | With at least three trials, this runner finishes every remaining combination, three calls each. |
| Scenarios.DemoShape | examples/experiment_runner_examples.py:50-53 | The first demo list has distinct keys and four combinations. |
| Scenarios.Demo3Shape | examples/experiment_runner_examples.py:69-73 | The second demo list has distinct keys and eight combinations. |
| Scenarios.MaxTrialDemoCompletes | examples/experiment_runner_examples.py:50-54 | Example 1 completes all four combinations in twelve runner calls. |
| Scenarios.ThirdCallAttemptFails | examples/experiment_runner_examples.py:36-41 | Before a third call, an attempt with this runner fails. |
| Scenarios.RetryAfterFailure | experimentor/experimentor.py:65-67 | A failed attempt sends the retry loop to the next trial. |
| Scenarios.TwoTrialsFail | examples/experiment_runner_examples.py:61-78 | With `max_trial=2`, a fresh runner's first combination fails both trials. |
| Scenarios.Demo3First | experimentor/configure_production.py:40-57 | The first pair of the three-set list is `a_c_e` with `{a:1, c:3, e:5}`. |
| Scenarios.Demo3Second | experimentor/configure_production.py:59-69 | The second pair is `a_c_f`: the last set moves first. |
| Scenarios.MaxTrialTwoAborts | examples/experiment_runner_examples.py:69-78 | Example 2 aborts with "Failed to run the function" before the bar moves. |
| Scenarios.OneTrial | experimentor/experimentor.py:57 | With `max_trial=1`, a combination gets exactly one attempt. |
| Scenarios.SkipDemoFirstRun | examples/skip_if_log_exists.py:14-43 | The first run finishes `a_c_e` and aborts at `a_c_f`. It leaves a log file for each of them, after two calls. |
| Scenarios.FirstRunDirsListing | examples/skip_if_log_exists.py:41 | After the first run, `log` lists the lock and both titles, and each title's directory holds a file. |
| Scenarios.SkippedCombination | experimentor/experimentor.py:83-85 | A combination whose log exists is skipped without a call and counts as finished. |
| Scenarios.SkipOnce | experimentor/experimentor.py:83-85 | The retry loop of such a combination is a single skip that changes nothing but the clock. |
| Scenarios.ResumeSkipsTwo | experimentor/experimentor.py:55-70 | A resumed run whose first two titles have logs skips both without calling the runner. |
| Scenarios.SkipDemoResume | examples/skip_if_log_exists.py:45-50 | The resumed run can take the lock again. It skips `a_c_e`, and also `a_c_f`, whose failed attempt left a log file. |
| Scenarios.DuplicateKeyAborts | experimentor/configure_production.py:52-53 | A key repeated across sets aborts the batch with "Duplicated key" before any attempt. |
| Scenarios.EmptySetAborts | experimentor/configure_production.py:50 | An empty set in a non-empty list gives no combination and aborts with an index error before any attempt. |
| Scenarios.EmptyConfigRunsOnce | experimentor/configure_production.py:40-71 | An empty list yields one pair `('', {})`. The batch runs it once and completes with progress 1. |

## Left out

- Keys are strings and values are their rendered text. The model does not cover non-string keys, `str()` of arbitrary objects, or the type assertions at experimentor/configure_production.py:23-26.
- Dict semantics are modelled as insertion-ordered lists of pairs with distinct keys. `ConfigurePair` and `__iter__` need no model of their own.
- Filesystem details are not modelled:
  - a root path that is a plain file (`makedirs` of the root raising). A subdirectory path that is a plain file is modelled (`IsPlainFile`);
  - titles containing `/`;
  - missing parent directories and path normalisation;
  - permissions.
- `os.path.join` is `/` concatenation of relative names.
- Lock release is the explicit `TrackLog.Close`, called at the end of `RunAll`. Garbage-collection timing of `__del__` is not modelled. In particular, a `__del__` running after a failed `init_dir`, which would delete another process's lock, is not modelled.
- The file descriptor that `os.open` leaves open for the lock is not modelled.
- File contents are not modelled: the runner's output written into the log file, and the subprocess's standard output.
- `subprocess.run`, the real clock and `time.sleep` are not modelled. The return code and the per-attempt clock reading are parameters. The clock is indexed by attempt number: `datetime.now` is consulted only where `add_log_file` names a file (experimentor/track_log.py:117), but how much time passes between attempts is not modelled.
- The progress bar (tqdm), `redirect_stream_for_tqdm`, every `print`, experimentor/cli.py, experimentor/__main__.py and experimentor/__init__.py are not modelled. The bar is the report's `progress` counter.
- The default `max_trial` comes from the `const` module. experimentor/const.py is not part of this model, so `max_trial` is always passed explicitly.
- `BaseTrackLog` and custom track logs (examples/customize_track_log.py) are not modelled: the controller always uses `TrackLog`.
- The `except ExperimentorError` branch (experimentor/experimentor.py:71-73) is not modelled because nothing in the core raises `ExperimentorError`.
- A `KeyboardInterrupt` can only come from the runner. Signals that arrive inside `add_log_file` or the iterator are not modelled.
- Exceptions that are neither `Exception` nor `KeyboardInterrupt` (`SystemExit`, say) are not modelled.
- The example scripts pass `skip_if_exists=True` to `run_experiments`, whose parameter is `skip_exist` (experimentor/experimentor.py:11-12). The scenarios model the evidently intended `skip_exist=True`.
- The `World` of a run without a log directory still carries the filesystem, unchanged. This is a modelling convenience with no counterpart in the code.
- Experimentors.Single: its own contract only fixes the attempt counter. What an attempt does is stated by NoLogNoFile, SingleSkips, LogFailureIsFailedAttempt and SingleCalls.
- TrackLogs.LatestAfterAllocate: stated only when no existing name in the subdirectory sorts after the new file's name. With a clock that runs backwards, an older-looking name stays the latest.

## Findings

| source | as written | input that shows it | evidently intended | confidence | as-written member | corrected member |
|---|---|---|---|---|---|---|
| experimentor/track_log.py:140-144 | `has_track_log` tests that the root exists, then lists the title's subdirectory, which raises when that subdirectory is missing | directories `{log: []}`, title `a_c_e`: raises FileNotFoundError, whereas `get_latest_track_log_file` returns None | False whenever the subdirectory is missing or empty, as the docstring and `get_latest_track_log_file` say | not executed | TrackLogs.HasTrackLogRaises | TrackLogs.HasLogAgrees |

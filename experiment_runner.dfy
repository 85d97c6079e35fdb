/** The experiment runners of experimentor/experiment_runner.py: the
    interface the controller calls, the base runner that only raises, and the
    command-line runner, whose subprocess is replaced by its return code. */
module ExperimentRunners {
  import opened Common
  import opened ConfigureProduction

  /** One `run_experiment(title, config, file)` call. */
  datatype Call = Call(title: string, config: Conf, file: Option<string>)

  /** How a `run_experiment` call ends: it returns, raises an `Exception`,
      or raises `KeyboardInterrupt`. */
  datatype RunOutcome = Returned | Threw(error: Exception) | Interrupt

  /** A runner as the controller sees it: the n-th call (counting from 0)
      with arguments `c` ends as `respond(n, c)`, and every call is recorded. */
  class Runner {
    const respond: (nat, Call) -> RunOutcome
    var calls: seq<Call>

    constructor (respond: (nat, Call) -> RunOutcome)
      ensures this.respond == respond && calls == []
    {
      this.respond := respond;
      calls := [];
    }

    method RunExperiment(title: string, config: Conf, file: Option<string>) returns (o: RunOutcome)
      modifies this
      ensures calls == old(calls) + [Call(title, config, file)]
      ensures o == respond(|old(calls)|, Call(title, config, file))
    {
      o := respond(|calls|, Call(title, config, file));
      calls := calls + [Call(title, config, file)];
    }
  }

  /** `BaseExperimentRunner.run_experiment`: raises NotImplementedError
      whatever it is given. */
  function BaseRespond(n: nat, c: Call): (o: RunOutcome)
    ensures o == Threw(NotImplemented)
  {
    Threw(NotImplemented)
  }

  // ---------------------------------------------------------------------
  // The command line of SimpleCommandRunner.
  // ---------------------------------------------------------------------

  /** One option of a dict value: ` -k v` for a one-character key, ` --k v`
      otherwise. */
  function Flag(k: string, v: string): string
  {
    if |k| == 1 then " -" + k + " " + v else " --" + k + " " + v
  }

  /** The options of a dict value, in its order. */
  function Flags(fl: seq<(string, string)>): string
  {
    if |fl| == 0 then "" else Flags(fl[..|fl| - 1]) + Flag(fl[|fl| - 1].0, fl[|fl| - 1].1)
  }

  /** What one value of the config adds to the command. */
  function Segment(v: Value): string
  {
    match v
    case Scalar(text) => " " + text
    case Options(fl) => Flags(fl)
  }

  /** What the values of the config add, in the config's order. */
  function Segments(conf: Conf): string
  {
    if |conf| == 0 then "" else Segments(conf[..|conf| - 1]) + Segment(conf[|conf| - 1].1)
  }

  /** The command `run_experiment` hands to the shell. */
  function Command(base: string, conf: Conf): string
  {
    base + Segments(conf)
  }

  /** The values of a config, without their keys. */
  function Values(conf: Conf): (vs: seq<Value>)
    ensures |vs| == |conf| && forall i :: 0 <= i < |conf| ==> vs[i] == conf[i].1
  {
    seq(|conf|, i requires 0 <= i < |conf| => conf[i].1)
  }

  /** The segments of two configs in a row are the segments of the first
      followed by those of the second: values appear in insertion order. */
  lemma {:induction false} SegmentsConcat(c1: Conf, c2: Conf)
    ensures Segments(c1 + c2) == Segments(c1) + Segments(c2)
    decreases |c2|
  {
    if |c2| == 0 {
      assert c1 + c2 == c1;
    } else {
      var n := |c2| - 1;
      assert (c1 + c2)[..|c1 + c2| - 1] == c1 + c2[..n];
      assert (c1 + c2)[|c1 + c2| - 1] == c2[n];
      SegmentsConcat(c1, c2[..n]);
      assert Segments(c1 + c2) == Segments(c1 + c2[..n]) + Segment(c2[n].1);
      assert Segments(c2) == Segments(c2[..n]) + Segment(c2[n].1);
      Regroup(Segments(c1), Segments(c2[..n]), Segment(c2[n].1));
    }
  }

  /** The command starts with the base command, and with an empty config it
      is exactly the base command. */
  lemma CommandStarts(base: string, conf: Conf)
    ensures |Command(base, conf)| >= |base| && Command(base, conf)[..|base|] == base
    ensures |conf| == 0 ==> Command(base, conf) == base
  {
  }

  /** Read from the front: the first value's segment comes first. */
  lemma CommandFirst(base: string, conf: Conf)
    requires |conf| > 0
    ensures Command(base, conf) == Command(base + Segment(conf[0].1), conf[1..])
  {
    var x, rest := conf[0], conf[1..];
    assert conf == [x] + rest;
    SegmentsConcat([x], rest);
    assert [x][..0] == [];
    assert Segments([x]) == Segment(x.1);
    assert base + (Segment(x.1) + Segments(rest)) == (base + Segment(x.1)) + Segments(rest);
  }

  /** Only the values matter: two configs with the same values in the same
      order, whatever their keys, give the same command. */
  lemma CommandIgnoresKeys(base: string, c1: Conf, c2: Conf)
    requires Values(c1) == Values(c2)
    ensures Command(base, c1) == Command(base, c2)
  {
    assert forall i :: 0 <= i < |c1| ==> c1[i].1 == Values(c1)[i] == Values(c2)[i] == c2[i].1;
    SegmentsSameValues(c1, c2);
  }

  lemma {:induction false} SegmentsSameValues(c1: Conf, c2: Conf)
    requires |c1| == |c2| && forall i :: 0 <= i < |c1| ==> c1[i].1 == c2[i].1
    ensures Segments(c1) == Segments(c2)
    decreases |c1|
  {
    if |c1| > 0 {
      var n := |c1| - 1;
      var p1, p2 := c1[..n], c2[..n];
      forall i | 0 <= i < n
        ensures p1[i].1 == p2[i].1
      {
        assert p1[i] == c1[i] && p2[i] == c2[i];
      }
      SegmentsSameValues(p1, p2);
      assert c1[n].1 == c2[n].1;
    }
  }

  /** The command for the first i + 1 values extends the one for the first
      i values by the segment of value i. */
  lemma CommandSnoc(base: string, conf: Conf, i: nat)
    requires i < |conf|
    ensures Command(base, conf[..i + 1]) == Command(base, conf[..i]) + Segment(conf[i].1)
  {
    assert conf[..i + 1][..i] == conf[..i];
    Regroup(base, Segments(conf[..i]), Segment(conf[i].1));
  }

  lemma FlagsSnoc(fl: seq<(string, string)>, j: nat)
    requires j < |fl|
    ensures Flags(fl[..j + 1]) == Flags(fl[..j]) + Flag(fl[j].0, fl[j].1)
  {
    assert fl[..j + 1][..j] == fl[..j];
  }

  lemma Regroup(a: string, b: string, c: string)
    ensures a + (b + c) == (a + b) + c
  {
  }

  class SimpleCommandRunner {
    const baseCommand: string

    constructor (baseCommand: string)
      ensures this.baseCommand == baseCommand
    {
      this.baseCommand := baseCommand;
    }

    /** `run_experiment`: build the command from the values of `config`,
        then turn the subprocess's return code into the outcome. Where the
        output goes (`file`) does not change either. */
    method RunExperiment(title: string, config: Conf, file: Option<string>, returnCode: int)
      returns (command: string, o: RunOutcome)
      ensures command == Command(baseCommand, config)
      ensures o == Returned <==> returnCode == 0
      ensures o != Returned ==> o == Threw(NonZeroExit(command, returnCode))
    {
      command := baseCommand;
      for i := 0 to |config|
        invariant command == Command(baseCommand, config[..i])
      {
        CommandSnoc(baseCommand, config, i);
        match config[i].1 {
          case Options(fl) =>
            ghost var before := command;
            for j := 0 to |fl|
              invariant command == before + Flags(fl[..j])
            {
              FlagsSnoc(fl, j);
              var (k, v) := fl[j];
              if |k| == 1 {
                command := command + (" -" + k + " " + v);
              } else {
                command := command + (" --" + k + " " + v);
              }
              Regroup(before, Flags(fl[..j]), Flag(k, v));
            }
            assert fl[..|fl|] == fl;
          case Scalar(text) =>
            command := command + (" " + text);
        }
      }
      assert config[..|config|] == config;
      if returnCode != 0 {
        return command, Threw(NonZeroExit(command, returnCode));
      }
      return command, Returned;
    }
  }
}

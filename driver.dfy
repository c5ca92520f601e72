/**
  `run_experiment` (dev/parameter_exploration.py, lines 133-184): for every
  experiment and both inhibition modes, build the base configuration, write the
  parameters into it, let the generator expand it, and submit one job per
  generated configuration. Files, the dataset and the job script itself are not
  modelled; a submitted job is the record of what `create_runner` is given.
 */
module ExperimentDriver {
  import opened Wrappers
  import opened PosixPath
  import opened Configuration
  import opened Parameters
  import opened RunNaming

  /** `[experiment_name, time_limit, memory_limit, params]`. */
  datatype Experiment = Experiment(name: string, timeLimit: seq<string>, memoryLimit: int,
                                   params: seq<Param>)

  /** The arguments of `run_experiment` that the bookkeeping uses. */
  datatype Context = Context(baseDir: string, ntrials: int, seed: int, partition: string)

  /** What one call of `create_runner` is given, with the configuration written
      to `config.json` in the run directory and the command's arguments
      (run directory, `ntrials`, `seed`). */
  datatype Job = Job(dir: string, runnerPath: string, stdioPath: string, stderrPath: string,
                     jobName: string, partition: string, timeLimit: string, memoryLimit: int,
                     config: Config, ntrials: int, seed: int)

  /** The exceptions of the bookkeeping's own lookups: `config['log_dir']` is
      missing (KeyError) or not a string (the path functions fail),
      `time_limit[i]` is out of range (IndexError), or, in the code as written
      only, `config_gen` was never assigned (UnboundLocalError). Failures of the
      file system, of `json.dumps` and of the runner functions are not modelled. */
  datatype DriverError = MissingLogDir | LogDirNotString | MissingTimeLimit(index: nat)
                       | UnboundGenerator

  /** The jobs submitted, in order, and the exception that stopped the run, if any. */
  datatype Outcome = Outcome(jobs: seq<Job>, error: Option<DriverError>)

  const Done: Outcome := Outcome([], None)

  /** Running `a` and then, if it did not raise, `b`. */
  function Then(a: Outcome, b: Outcome): Outcome
  {
    if a.error.Some? then a else Outcome(a.jobs + b.jobs, b.error)
  }

  lemma ThenAssociative(a: Outcome, b: Outcome, c: Outcome)
    ensures Then(Then(a, b), c) == Then(a, Then(b, c))
  {
    if a.error.None? && b.error.None? {
      assert (a.jobs + b.jobs) + c.jobs == a.jobs + (b.jobs + c.jobs);
    }
  }

  /** Lines 148-181 for one generated configuration, in pass `i` of
      `enumerate((True, False))` whose mode is `globalInhibition`: the run
      directory, the paths in it, the job name and the time limit, or the
      exception that the lookups raise. */
  function ConfigJob(ctx: Context, e: Experiment, i: nat, globalInhibition: bool,
                     config: Config): Result<Job, DriverError>
  {
    if "log_dir" !in config then Failure(MissingLogDir)
    else if !config["log_dir"].Str? then Failure(LogDirNotString)
    else
      var logDir := config["log_dir"].s;
      var baseName := RunBaseName(Basename(logDir));
      var dir := Join(Dirname(logDir), baseName);
      if |e.timeLimit| <= i then Failure(MissingTimeLimit(i))
      else
        Success(Job(dir, Join(dir, "runner.sh"), Join(dir, "stdio.txt"), Join(dir, "stderr.txt"),
                    JobName(e.name, globalInhibition, baseName), ctx.partition, e.timeLimit[i],
                    e.memoryLimit, config, ctx.ntrials, ctx.seed))
  }

  /** The three exceptions, each exactly in its case: no `log_dir`, a `log_dir`
      that is not a string, and a pass index past the end of the time limits;
      when none of them occurs, the configuration becomes a job. */
  lemma ConfigJobErrors(ctx: Context, e: Experiment, i: nat, globalInhibition: bool, config: Config)
    ensures var r := ConfigJob(ctx, e, i, globalInhibition, config);
      && ("log_dir" !in config <==> r == Failure(MissingLogDir))
      && (("log_dir" in config && !config["log_dir"].Str?) <==> r == Failure(LogDirNotString))
      && (("log_dir" in config && config["log_dir"].Str? && |e.timeLimit| <= i)
          <==> r == Failure(MissingTimeLimit(i)))
      && (r.Success? <==> "log_dir" in config && config["log_dir"].Str? && i < |e.timeLimit|)
  {
  }

  /** The three file names joined into the run directory are single path
      components, so `os.path.join` puts them directly inside it. */
  lemma RunFileNamesSlashFree()
    ensures '/' !in "runner.sh" && '/' !in "stdio.txt" && '/' !in "stderr.txt"
  {
  }

  /** What a submitted job is given: a job name that reads back as the
      experiment name, `_`, the pass's mode letter and the last component of
      the job directory; the time limit `time_limit[i]`; and the memory limit,
      the partition, the configuration and the command arguments unchanged. */
  lemma ConfigJobFields(ctx: Context, e: Experiment, i: nat, globalInhibition: bool, config: Config)
    requires ConfigJob(ctx, e, i, globalInhibition, config).Success?
    ensures var j := ConfigJob(ctx, e, i, globalInhibition, config).value;
      var n := |e.name|;
      && |j.jobName| == n + 2 + |Basename(j.dir)|
      && j.jobName[..n] == e.name
      && j.jobName[n] == '_'
      && (j.jobName[n + 1] == 'G' <==> globalInhibition)
      && (j.jobName[n + 1] == 'L' <==> !globalInhibition)
      && j.jobName[n + 2..] == Basename(j.dir)
      && i < |e.timeLimit| && j.timeLimit == e.timeLimit[i]
      && j.memoryLimit == e.memoryLimit
      && j.partition == ctx.partition
      && j.config == config
      && j.ntrials == ctx.ntrials && j.seed == ctx.seed
  {
    var logDir := config["log_dir"].s;
    assert ConfigJob(ctx, e, i, globalInhibition, config).value.dir == RunDir(logDir);
    RunDirBesideLogDir(logDir);
    JobNameParts(e.name, globalInhibition, RunBaseName(Basename(logDir)));
  }

  /** Where a submitted job lives: its directory sits beside the configuration's
      `log_dir`, under the same parent, and is named by the run base name; the
      runner script and the two output files are in that directory. */
  lemma ConfigJobPaths(ctx: Context, e: Experiment, i: nat, globalInhibition: bool, config: Config)
    requires ConfigJob(ctx, e, i, globalInhibition, config).Success?
    ensures var j := ConfigJob(ctx, e, i, globalInhibition, config).value;
      && "log_dir" in config && config["log_dir"].Str?
      && Dirname(j.dir) == Dirname(config["log_dir"].s)
      && Basename(j.dir) == RunBaseName(Basename(config["log_dir"].s))
      && j.runnerPath == Join(j.dir, "runner.sh") && Basename(j.runnerPath) == "runner.sh"
      && j.stdioPath == Join(j.dir, "stdio.txt") && Basename(j.stdioPath) == "stdio.txt"
      && j.stderrPath == Join(j.dir, "stderr.txt") && Basename(j.stderrPath) == "stderr.txt"
  {
    var j := ConfigJob(ctx, e, i, globalInhibition, config).value;
    var logDir := config["log_dir"].s;
    assert j.dir == RunDir(logDir);
    RunDirBesideLogDir(logDir);
    RunFileNamesSlashFree();
    BasenameOfJoin(j.dir, "runner.sh");
    BasenameOfJoin(j.dir, "stdio.txt");
    BasenameOfJoin(j.dir, "stderr.txt");
  }

  /** The per-configuration step of pass `i`. */
  function Step(ctx: Context, e: Experiment, i: nat): Config -> Result<Job, DriverError>
    requires i < |Modes|
  {
    config => ConfigJob(ctx, e, i, Modes[i], config)
  }

  /** Lines 146-184: the jobs `step` makes of the generated configurations, in
      order, stopping at the first that raises. */
  function Submit(step: Config -> Result<Job, DriverError>, configs: seq<Config>): Outcome
    decreases |configs|
  {
    if |configs| == 0 then Done
    else match step(configs[0])
      case Failure(err) => Outcome([], Some(err))
      case Success(job) => Then(Outcome([job], None), Submit(step, configs[1..]))
  }

  /** Submitting makes one job per configuration, in their order, and stops
      exactly at the first configuration that raises. */
  lemma {:induction false} SubmitSpec(step: Config -> Result<Job, DriverError>, configs: seq<Config>)
    ensures var out := Submit(step, configs);
      && |out.jobs| <= |configs|
      && (forall t :: 0 <= t < |out.jobs| ==> step(configs[t]) == Success(out.jobs[t]))
      && (out.error.None? ==> |out.jobs| == |configs|)
      && (out.error.Some? ==> |out.jobs| < |configs|
                              && step(configs[|out.jobs|]) == Failure(out.error.value))
    decreases |configs|
  {
    if |configs| > 0 && step(configs[0]).Success? {
      var tail := configs[1..];
      var rest := Submit(step, tail);
      SubmitSpec(step, tail);
      var out := Submit(step, configs);
      assert out == Outcome([step(configs[0]).value] + rest.jobs, rest.error);
      forall t | 0 <= t < |out.jobs| ensures step(configs[t]) == Success(out.jobs[t]) {
        if t > 0 {
          assert configs[t] == tail[t - 1];
          assert out.jobs[t] == rest.jobs[t - 1];
        }
      }
      if rest.error.Some? {
        assert configs[|out.jobs|] == tail[|rest.jobs|];
      }
    }
  }

  /** The generator of pass `i` of experiment `e` (lines 137-143, with the
      generator built after the parameter loop, see ApplyParameters). */
  function PassGenerator(ctx: Context, e: Experiment, i: nat): Generator
    requires i < |Modes|
  {
    Generator(Overlay(BaseConfig(ctx.baseDir, e.name, Modes[i], Null), e.params), ctx.ntrials)
  }

  function Pass(ctx: Context, e: Experiment, i: nat, expand: Generator -> seq<Config>): Outcome
    requires i < |Modes|
  {
    Submit(Step(ctx, e, i), expand(PassGenerator(ctx, e, i)))
  }

  /** Line 135: the passes `i, i+1, ...` of `enumerate((True, False))`. */
  function PassesFrom(ctx: Context, e: Experiment, i: nat, expand: Generator -> seq<Config>): Outcome
    requires i <= |Modes|
    decreases |Modes| - i
  {
    if i == |Modes| then Done
    else Then(Pass(ctx, e, i, expand), PassesFrom(ctx, e, i + 1, expand))
  }

  /** Line 133: every experiment, in order. */
  function Plan(ctx: Context, experiments: seq<Experiment>, expand: Generator -> seq<Config>): Outcome
    decreases |experiments|
  {
    if |experiments| == 0 then Done
    else Then(PassesFrom(ctx, experiments[0], 0, expand), Plan(ctx, experiments[1..], expand))
  }

  /** The loop of lines 146-184 over the generated configurations of one pass. */
  method SubmitPass(ctx: Context, e: Experiment, i: nat, configs: seq<Config>) returns (out: Outcome)
    requires i < |Modes|
    ensures out == Submit(Step(ctx, e, i), configs)
  {
    var step := Step(ctx, e, i);
    var jobs: seq<Job> := [];
    for k := 0 to |configs|
      invariant Submit(step, configs) == Then(Outcome(jobs, None), Submit(step, configs[k..]))
    {
      var r := ConfigJob(ctx, e, i, Modes[i], configs[k]);
      assert Submit(step, configs[k..]) == match r
        case Failure(err) => Outcome([], Some(err))
        case Success(job) => Then(Outcome([job], None), Submit(step, configs[k + 1..]))
      by {
        assert configs[k..][1..] == configs[k + 1..];
        assert step(configs[k]) == r;
      }
      if r.Failure? {
        return Outcome(jobs, Some(r.error));
      }
      ThenAssociative(Outcome(jobs, None), Outcome([r.value], None), Submit(step, configs[k + 1..]));
      jobs := jobs + [r.value];
    }
    assert configs[|configs|..] == [];
    out := Outcome(jobs, None);
  }

  /** Lines 137-184: pass `i` of one experiment: the base configuration of the
      pass's mode, the parameters written into it, and the submission of what
      the generator yields. */
  method RunPass(ctx: Context, e: Experiment, i: nat, expand: Generator -> seq<Config>)
    returns (out: Outcome)
    requires i < |Modes|
    ensures out == Pass(ctx, e, i, expand)
  {
    var base := BaseConfig(ctx.baseDir, e.name, Modes[i], Null);
    var config, gen := ApplyParameters(base, e.params, ctx.ntrials);
    out := SubmitPass(ctx, e, i, expand(gen));
  }

  /** Lines 135-184: both passes of one experiment, global first. */
  method RunPasses(ctx: Context, e: Experiment, expand: Generator -> seq<Config>) returns (out: Outcome)
    ensures out == PassesFrom(ctx, e, 0, expand)
  {
    var jobs: seq<Job> := [];
    for i := 0 to |Modes|
      invariant PassesFrom(ctx, e, 0, expand) == Then(Outcome(jobs, None), PassesFrom(ctx, e, i, expand))
    {
      var o := RunPass(ctx, e, i, expand);
      if o.error.Some? {
        return Outcome(jobs + o.jobs, o.error);
      }
      ThenAssociative(Outcome(jobs, None), o, PassesFrom(ctx, e, i + 1, expand));
      jobs := jobs + o.jobs;
    }
    out := Outcome(jobs, None);
  }

  /** Lines 133-184: every experiment, both passes, every generated configuration.
      The generator is the external `ConfigGenerator`, given as `expand`. */
  method RunExperiment(ctx: Context, experiments: seq<Experiment>, expand: Generator -> seq<Config>)
    returns (out: Outcome)
    ensures out == Plan(ctx, experiments, expand)
  {
    var jobs: seq<Job> := [];
    for k := 0 to |experiments|
      invariant Plan(ctx, experiments, expand) == Then(Outcome(jobs, None), Plan(ctx, experiments[k..], expand))
    {
      var rest := Plan(ctx, experiments[k + 1..], expand);
      var o := RunPasses(ctx, experiments[k], expand);
      assert Plan(ctx, experiments[k..], expand) == Then(o, rest) by {
        assert experiments[k..][1..] == experiments[k + 1..];
      }
      if o.error.Some? {
        return Outcome(jobs + o.jobs, o.error);
      }
      ThenAssociative(Outcome(jobs, None), o, rest);
      jobs := jobs + o.jobs;
    }
    assert experiments[|experiments|..] == [];
    out := Outcome(jobs, None);
  }

  /** What every job of pass `i` of experiment `e` looks like: a job name made
      of the experiment name, `_`, the pass's mode letter and the job
      directory's last component, the time limit `time_limit[i]` and the
      experiment's memory limit. */
  predicate IsPassJob(e: Experiment, i: nat, j: Job)
    requires i < |Modes|
  {
    && |j.jobName| >= |e.name| + 2
    && j.jobName[..|e.name|] == e.name
    && j.jobName[|e.name|] == '_'
    && j.jobName[|e.name| + 1] == ModeLetter(Modes[i])
    && j.jobName[|e.name| + 2..] == Basename(j.dir)
    && i < |e.timeLimit| && j.timeLimit == e.timeLimit[i]
    && j.memoryLimit == e.memoryLimit
  }

  lemma PassJobsArePassJobs(ctx: Context, e: Experiment, i: nat, expand: Generator -> seq<Config>)
    requires i < |Modes|
    ensures forall j :: j in Pass(ctx, e, i, expand).jobs ==>
      && IsPassJob(e, i, j)
      && j.config in expand(PassGenerator(ctx, e, i))
      && ConfigJob(ctx, e, i, Modes[i], j.config) == Success(j)
  {
    var configs := expand(PassGenerator(ctx, e, i));
    var step := Step(ctx, e, i);
    var out := Submit(step, configs);
    SubmitSpec(step, configs);
    forall j | j in out.jobs
      ensures IsPassJob(e, i, j) && j.config in configs
           && ConfigJob(ctx, e, i, Modes[i], j.config) == Success(j)
    {
      var t :| 0 <= t < |out.jobs| && out.jobs[t] == j;
      assert ConfigJob(ctx, e, i, Modes[i], configs[t]) == Success(j) by {
        assert step(configs[t]) == Success(j);
      }
      ConfigJobFields(ctx, e, i, Modes[i], configs[t]);
    }
  }

  /** Each experiment is processed twice: the global pass's jobs come first, each
      with time limit `time_limit[0]` and mode letter `G`, then, unless the global
      pass raised, the local pass's jobs, each with `time_limit[1]` and `L`. */
  lemma ExperimentPasses(ctx: Context, e: Experiment, expand: Generator -> seq<Config>)
    ensures var global := Pass(ctx, e, 0, expand);
      var local := Pass(ctx, e, 1, expand);
      var out := PassesFrom(ctx, e, 0, expand);
      && out.jobs == global.jobs + (if global.error.None? then local.jobs else [])
      && out.error == (if global.error.Some? then global.error else local.error)
      && (forall j :: j in global.jobs ==> IsPassJob(e, 0, j) && j.jobName[|e.name| + 1] == 'G'
                                            && j.timeLimit == e.timeLimit[0])
      && (forall j :: j in local.jobs ==> IsPassJob(e, 1, j) && j.jobName[|e.name| + 1] == 'L'
                                           && j.timeLimit == e.timeLimit[1])
  {
    PassJobsArePassJobs(ctx, e, 0, expand);
    PassJobsArePassJobs(ctx, e, 1, expand);
    var local := Pass(ctx, e, 1, expand);
    assert PassesFrom(ctx, e, 1, expand) == Then(local, Done);
    assert local.jobs + [] == local.jobs;
  }

  /** Every configuration of experiment `e`'s two passes becomes a job. */
  predicate Submittable(ctx: Context, e: Experiment, expand: Generator -> seq<Config>)
  {
    forall i, c :: 0 <= i < |Modes| && c in expand(PassGenerator(ctx, e, i)) ==>
      ConfigJob(ctx, e, i, Modes[i], c).Success?
  }

  /** The number of configurations the generator yields over all passes. */
  function ConfigCount(ctx: Context, experiments: seq<Experiment>, expand: Generator -> seq<Config>): nat
    decreases |experiments|
  {
    if |experiments| == 0 then 0
    else (|expand(PassGenerator(ctx, experiments[0], 0))|
          + |expand(PassGenerator(ctx, experiments[0], 1))|
          + ConfigCount(ctx, experiments[1..], expand))
  }

  /** Of the lookup errors modelled, a pass raises exactly when some generated
      configuration cannot become a job; otherwise it submits one job per
      configuration. */
  lemma PassSucceedsIff(ctx: Context, e: Experiment, i: nat, expand: Generator -> seq<Config>)
    requires i < |Modes|
    ensures Pass(ctx, e, i, expand).error.None? <==>
      forall c :: c in expand(PassGenerator(ctx, e, i)) ==> ConfigJob(ctx, e, i, Modes[i], c).Success?
    ensures Pass(ctx, e, i, expand).error.None? ==>
      |Pass(ctx, e, i, expand).jobs| == |expand(PassGenerator(ctx, e, i))|
  {
    var configs := expand(PassGenerator(ctx, e, i));
    var step := Step(ctx, e, i);
    SubmitSpec(step, configs);
    var out := Submit(step, configs);
    if out.error.None? {
      forall c | c in configs ensures ConfigJob(ctx, e, i, Modes[i], c).Success? {
        var t :| 0 <= t < |configs| && configs[t] == c;
        assert step(configs[t]) == Success(out.jobs[t]);
      }
    } else {
      assert step(configs[|out.jobs|]).Failure?;
    }
  }

  /** Of the lookup errors modelled, both passes of an experiment succeed
      exactly when it is submittable. */
  lemma PassesSucceedIff(ctx: Context, e: Experiment, expand: Generator -> seq<Config>)
    ensures PassesFrom(ctx, e, 0, expand).error.None? <==> Submittable(ctx, e, expand)
    ensures PassesFrom(ctx, e, 0, expand).error.None? ==>
      |PassesFrom(ctx, e, 0, expand).jobs|
        == |expand(PassGenerator(ctx, e, 0))| + |expand(PassGenerator(ctx, e, 1))|
  {
    ExperimentPasses(ctx, e, expand);
    PassSucceedsIff(ctx, e, 0, expand);
    PassSucceedsIff(ctx, e, 1, expand);
  }

  /** Of the lookup errors modelled, the whole batch (with the corrected
      parameter loop) raises exactly when some experiment is not submittable;
      otherwise it submits one job per generated configuration of every pass. */
  lemma {:induction false} PlanSubmitsEveryConfiguration(ctx: Context, experiments: seq<Experiment>,
                                                         expand: Generator -> seq<Config>)
    ensures Plan(ctx, experiments, expand).error.None? <==>
      forall k :: 0 <= k < |experiments| ==> Submittable(ctx, experiments[k], expand)
    ensures Plan(ctx, experiments, expand).error.None? ==>
      |Plan(ctx, experiments, expand).jobs| == ConfigCount(ctx, experiments, expand)
    decreases |experiments|
  {
    if |experiments| > 0 {
      var tail := experiments[1..];
      PlanSubmitsEveryConfiguration(ctx, tail, expand);
      PassesSucceedIff(ctx, experiments[0], expand);
      assert forall k :: 0 < k < |experiments| ==> experiments[k] == tail[k - 1];
    }
  }

  // The batch as written, with the generator of lines 141-143 assigned only
  // inside the parameter loop (see Parameters.ApplyParametersAsWritten).

  /** The passes `i, i+1, ...` of one experiment as written, given what
      `config_gen` holds before pass `i`; also what it holds afterwards. */
  function PassesAsWritten(ctx: Context, e: Experiment, i: nat, expand: Generator -> seq<Config>,
                           previous: Option<Generator>): (Outcome, Option<Generator>)
    requires i <= |Modes|
    decreases |Modes| - i
  {
    if i == |Modes| then (Done, previous)
    else
      var base := BaseConfig(ctx.baseDir, e.name, Modes[i], Null);
      match GeneratorAsWritten(base, e.params, ctx.ntrials, previous)
      case None => (Outcome([], Some(UnboundGenerator)), None)
      case Some(gen) =>
        var rest := PassesAsWritten(ctx, e, i + 1, expand, Some(gen));
        (Then(Submit(Step(ctx, e, i), expand(gen)), rest.0), rest.1)
  }

  /** The batch as written; `config_gen` carries over from one experiment to
      the next. */
  function PlanAsWritten(ctx: Context, experiments: seq<Experiment>, expand: Generator -> seq<Config>,
                         previous: Option<Generator>): Outcome
    decreases |experiments|
  {
    if |experiments| == 0 then Done
    else
      var first := PassesAsWritten(ctx, experiments[0], 0, expand, previous);
      Then(first.0, PlanAsWritten(ctx, experiments[1..], expand, first.1))
  }

  /** With a non-empty parameter list, an experiment's passes as written are the
      corrected ones, and they leave the local pass's generator behind. */
  lemma {:induction false} PassesAsWrittenAgree(ctx: Context, e: Experiment, i: nat,
                                                expand: Generator -> seq<Config>,
                                                previous: Option<Generator>)
    requires i <= |Modes| && |e.params| > 0
    ensures PassesAsWritten(ctx, e, i, expand, previous).0 == PassesFrom(ctx, e, i, expand)
    ensures i < |Modes| ==>
      PassesAsWritten(ctx, e, i, expand, previous).1 == Some(PassGenerator(ctx, e, |Modes| - 1))
    decreases |Modes| - i
  {
    if i < |Modes| {
      var gen := PassGenerator(ctx, e, i);
      assert GeneratorAsWritten(BaseConfig(ctx.baseDir, e.name, Modes[i], Null), e.params,
                                ctx.ntrials, previous) == Some(gen);
      PassesAsWrittenAgree(ctx, e, i + 1, expand, Some(gen));
    }
  }

  /** When no parameter list is empty, the batch as written is the corrected
      batch, whatever `config_gen` held before it. */
  lemma {:induction false} PlanAsWrittenAgrees(ctx: Context, experiments: seq<Experiment>,
                                               expand: Generator -> seq<Config>,
                                               previous: Option<Generator>)
    requires forall k :: 0 <= k < |experiments| ==> |experiments[k].params| > 0
    ensures PlanAsWritten(ctx, experiments, expand, previous) == Plan(ctx, experiments, expand)
    decreases |experiments|
  {
    if |experiments| > 0 {
      var first := PassesAsWritten(ctx, experiments[0], 0, expand, previous);
      PassesAsWrittenAgree(ctx, experiments[0], 0, expand, previous);
      assert forall k :: 0 <= k < |experiments| - 1 ==> experiments[1..][k] == experiments[k + 1];
      PlanAsWrittenAgrees(ctx, experiments[1..], expand, first.1);
    }
  }

  /** A first experiment with an empty parameter list makes the batch as written
      raise UnboundLocalError before any job is submitted. */
  lemma FirstEmptyParameterListRaises(ctx: Context, experiments: seq<Experiment>,
                                      expand: Generator -> seq<Config>)
    requires |experiments| > 0 && |experiments[0].params| == 0
    ensures PlanAsWritten(ctx, experiments, expand, None) == Outcome([], Some(UnboundGenerator))
  {
  }

  /** An experiment with an empty parameter list, as written, runs both passes
      on whatever generator `config_gen` already holds. */
  lemma {:induction false} EmptyParameterListPasses(ctx: Context, e: Experiment, i: nat,
                                                    expand: Generator -> seq<Config>, gen: Generator)
    requires i <= |Modes| && |e.params| == 0
    ensures PassesAsWritten(ctx, e, i, expand, Some(gen)).1 == Some(gen)
    ensures PassesAsWritten(ctx, e, i, expand, Some(gen)).0
         == if i == |Modes| then Done
            else Then(Submit(Step(ctx, e, i), expand(gen)), PassesAsWritten(ctx, e, i + 1, expand, Some(gen)).0)
    decreases |Modes| - i
  {
    if i < |Modes| {
      EmptyParameterListPasses(ctx, e, i + 1, expand, gen);
    }
  }

  /** A later experiment with an empty parameter list: both of its passes, as
      written, submit the configurations of the previous experiment's local
      generator. */
  lemma LaterEmptyParameterListReusesLocalGenerator(ctx: Context, first: Experiment, second: Experiment,
                                                    expand: Generator -> seq<Config>)
    requires |first.params| > 0 && |second.params| == 0
    ensures var stale := expand(PassGenerator(ctx, first, 1));
      PlanAsWritten(ctx, [first, second], expand, None)
        == Then(PassesFrom(ctx, first, 0, expand),
                Then(Then(Submit(Step(ctx, second, 0), stale),
                          Then(Submit(Step(ctx, second, 1), stale), Done)),
                     Done))
  {
    var gen := PassGenerator(ctx, first, 1);
    var stale := expand(gen);
    PassesAsWrittenAgree(ctx, first, 0, expand, None);
    assert PassesAsWritten(ctx, first, 0, expand, None).1 == Some(gen);
    var later := PassesAsWritten(ctx, second, 0, expand, Some(gen)).0;
    assert later == Then(Submit(Step(ctx, second, 0), stale),
                         Then(Submit(Step(ctx, second, 1), stale), Done)) by {
      EmptyParameterListPasses(ctx, second, 0, expand, gen);
      EmptyParameterListPasses(ctx, second, 1, expand, gen);
      EmptyParameterListPasses(ctx, second, 2, expand, gen);
    }
    assert PlanAsWritten(ctx, [second], expand, Some(gen)) == Then(later, Done) by {
      assert [second][1..] == [];
      EmptyParameterListPasses(ctx, second, 0, expand, gen);
    }
    assert [first, second][1..] == [second];
  }
}

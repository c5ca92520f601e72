# Experiment-sweep bookkeeping of mHTM's `parameter_exploration.py`

This project models the bookkeeping part of `dev/parameter_exploration.py` in
the mHTM repository. That script sweeps Spatial Pooler parameters over a SLURM
cluster, and the model covers four pieces of it:

- `create_base_config` builds the fixed seventeen-field configuration. Only
  `global_inhibition`, `seed` and `log_dir` depend on its arguments.
- `run_experiment` handles each experiment twice, first with global and then
  with local inhibition. In each pass it:
  - writes the experiment's parameters into the base configuration, last
    write winning;
  - hands the result to the external `ConfigGenerator`;
  - turns every generated configuration into a job. A job records its run
    directory (the `log_dir` basename without its last `-`-segment, placed
    beside `log_dir`), the runner and output paths in that directory, the job
    name `<experiment>_<G|L><base name>`, and the time limit `time_limit[i]`
    of pass `i`.
- `run_single_experiment` overwrites only the `seed` of the loaded
  configuration before each trial, taking the seeds in order.

The path and string functions the bookkeeping relies on are modelled as
Python 2.7 defines them, in modules `PyStr` and `PosixPath`:

- `os.path.join` of two components, and of three as a left fold (`Join3`, the `log_dir` join of line 85), `basename` and `dirname` (POSIX flavour);
- `str.rfind` of one character, and `str.split` and `str.join` with a
  one-character separator, the only forms the script uses.

So `os.path.join` lets an absolute component replace what came before, and
`dirname` strips trailing slashes unless nothing but slashes is left.

Modules, in dependency order:

- `Wrappers`: `Option` and `Result`.
- `PyStr`: `str.rfind`, `str.split` and `str.join`.
- `PosixPath`: `os.path.join`, `basename` and `dirname`.
- `Configuration`: configuration values, `create_base_config` and the log
  directory.
- `Parameters`: the parameter loop, both as written and corrected, and the
  generator's arguments.
- `RunNaming`: the run directory, the job name and the order of the modes.
- `SingleRun`: the trial loop of `run_single_experiment`.
- `ExperimentDriver`: the loops of `run_experiment`. It records the jobs
  submitted and the exception that stops the run.

The model functions and the lines they compute, each described by the lemmas
in the table below:

- `Configuration.BaseConfig`: lines 68-87; `Configuration.LogDir`: lines 85-86.
- `Parameters.Overlay`: the writes of lines 141-142;
  `Parameters.GeneratorAsWritten`: what `config_gen` holds after line 143.
- `RunNaming.RunBaseName`: lines 149-150; `RunNaming.RunDir`: line 151;
  `RunNaming.JobName`: lines 174-175.
- `ExperimentDriver.ConfigJob`: lines 148-181 for one generated configuration;
  `ExperimentDriver.Submit`: the loop of lines 146-184;
  `ExperimentDriver.Pass`, `PassesFrom` and `Plan`: lines 135-184 and
  133-184 with the corrected parameter loop;
  `ExperimentDriver.PassesAsWritten` and `PlanAsWritten`: the same lines with
  the parameter loop as written.
- `SingleRun.TrialConfigs`: lines 289-294.

A configuration is a `map<string, Value>`. A `Value` is null, a boolean, an
integer, a string, a float constant (kept opaque as its literal) or a list.

`ConfigGenerator` is not part of this model. `ConfigGenerator(base, ntrials)`
is a `Generator(base, ntrials)` record. What it yields is a function `expand`
that the driver takes as a parameter, so the driver properties hold for every
generator whose output is a function of its configuration and `ntrials`, the
same sequence on every call of `get_config()`. A generator whose output
depends on hidden state (numpy's global random state, an iterator kept inside
the generator) is not covered.

The driver's error path is modelled for the bookkeeping's own lookups. For a
generated configuration, each of these raises and stops the whole run, with
the jobs already submitted kept:

- `log_dir` is missing;
- `log_dir` is not a string;
- the experiment's `time_limit` has no entry for the pass.

Failures of the file system, of `json.dumps` and of the runner functions are
not modelled (see "Left out").

Two consequences of the code worth knowing:

- **Run directories.** The run directory drops the last `-`-segment of the
  `log_dir` basename. So generated configurations whose `log_dir` differ only
  in the last `-`-segment share one run directory, and each overwrites the
  previous one's `config.json`, `dataset.pkl` and `runner.sh`
  (`RunDirIgnoresTrialSuffix`).
- **Empty parameter lists.** The code as written cannot handle an empty
  parameter list (see Findings). The batch as written, `PlanAsWritten`, raises
  UnboundLocalError when the first experiment's list is empty, and reuses the
  previous experiment's local generator for a later one. It agrees with the
  corrected batch `Plan` whenever no list is empty (`PlanAsWrittenAgrees`).
  The methods `RunPass`, `RunPasses` and `RunExperiment` and the properties
  proved about `Plan` follow the corrected loop.

## Model

| member | source | states |
|---|---|---|
| PyStr.RFindSpec | dev/parameter_exploration.py:149 | the index `rfind` returns, when not -1, holds the character, and no occurrence follows it |
| PyStr.RFindUnique | dev/parameter_exploration.py:149 | those two facts determine `rfind`'s result |
| PyStr.RFindAppendFree | dev/parameter_exploration.py:151 | appending text without the character does not move its last occurrence |
| PyStr.RFindAtSeparator | dev/parameter_exploration.py:149 | in `x + c + y` with `c` absent from `y`, the last `c` is at index `|x|` |
| PyStr.SplitPartsFree | dev/parameter_exploration.py:149 | no part of `s.split(sep)` contains `sep` |
| PyStr.JoinSplit | dev/parameter_exploration.py:149-150 | `sep.join(s.split(sep)) == s` |
| PyStr.JoinWithSnoc | dev/parameter_exploration.py:150 | joining one more part appends the separator and that part |
| PyStr.SplitWithoutSeparator | dev/parameter_exploration.py:149 | a string without the separator splits into itself alone |
| PyStr.SplitWithSeparator | dev/parameter_exploration.py:149 | a string with the separator splits into at least two parts |
| PosixPath.BasenameSpec | dev/parameter_exploration.py:149 | `basename(p)` is slash-free, a suffix of `p`, and preceded by `/` when shorter than `p` |
| PosixPath.RStripSpec | dev/parameter_exploration.py:151 | `rstrip(c)` removes only a trailing run of `c` and leaves a prefix that does not end with `c` |
| PosixPath.DirnameSpec | dev/parameter_exploration.py:151 | `dirname(p)` is a prefix of `p` that is empty, all slashes, or does not end with `/` |
| PosixPath.BasenameOfJoin | dev/parameter_exploration.py:151 | `basename(join(a, b)) == b` for any `a` and a slash-free `b` |
| PosixPath.DirnameOfJoin | dev/parameter_exploration.py:151 | `dirname(join(d, b)) == d` for a slash-free `b` and any `d` that a dirname can be |
| PosixPath.SameParent | dev/parameter_exploration.py:151 | `join(dirname(p), b)` has parent `dirname(p)` and last component `b` |
| PosixPath.AppendWithinBasename | dev/parameter_exploration.py:151 | appending slash-free text keeps the dirname and extends the basename by that text |
| Configuration.BaseConfigFields | dev/parameter_exploration.py:68-87 | exactly the seventeen keys; the fourteen fixed ones hold their constants whatever the arguments; `global_inhibition`, `seed` and `log_dir` hold the arguments and the joined path |
| Configuration.LogDirSpelledOut | dev/parameter_exploration.py:85-86 | for a base directory without a trailing slash and a relative name, `log_dir` is `base_dir/global/name` or `base_dir/local/name` |
| Configuration.LogDirComponents | dev/parameter_exploration.py:85-86 | for any base directory and a slash-free name, `log_dir`'s last component is the name and its parent is `base_dir/<mode>`, whose last component is the mode |
| Configuration.LogDirsOfModesDiffer | dev/parameter_exploration.py:85-86 | for any relative experiment name, the two modes never share a `log_dir` (an absolute name replaces both, and then they coincide) |
| Parameters.OverlayKeys | dev/parameter_exploration.py:141-142 | after the writes, the keys are the base keys plus the names written |
| Parameters.OverlayLastWriteWins | dev/parameter_exploration.py:141-142 | a key holds the value of the last entry naming it |
| Parameters.OverlayUnnamed | dev/parameter_exploration.py:141-142 | a key no entry names keeps its base value, or stays absent |
| Parameters.ApplyParametersAsWritten | dev/parameter_exploration.py:141-143 | the loop as written: writes in order, and leaves the last generator built, or the previous value of `config_gen` when the list is empty |
| Parameters.ApplyParameters | dev/parameter_exploration.py:141-143 | the corrected loop: writes in order, then builds the generator from the final configuration |
| Parameters.PassGeneratorKeepsMode | dev/parameter_exploration.py:137-143 | unless the parameters name them, the pass generator's configuration keeps the pass's mode and `log_dir` |
| Parameters.EmptyParameterListReusesStaleGenerator | dev/parameter_exploration.py:133-143 | with an empty list the first experiment has no generator, and a later one's global pass reuses the previous experiment's local generator, with the wrong mode and `log_dir` |
| RunNaming.RunBaseNameReconstructs | dev/parameter_exploration.py:149-150 | the dropped segment has no `-`; with a `-`, `base_name + "-" + last == basename`; without one, `base_name` is empty |
| RunNaming.RunBaseNameIsPrefixBeforeLastHyphen | dev/parameter_exploration.py:149-150 | `base_name` is the basename up to its last `-`, and empty when there is none |
| RunNaming.RunBaseNameSlashFree | dev/parameter_exploration.py:149-150 | the base name of a slash-free name is slash-free |
| RunNaming.RunDirBesideLogDir | dev/parameter_exploration.py:151 | the run directory has `log_dir`'s parent and `base_name` as its last component |
| RunNaming.HyphenSuffixDropped | dev/parameter_exploration.py:149-150 | the base name of `b-t`, for a `-`-free `t`, is `b` |
| RunNaming.SuffixedPathParts | dev/parameter_exploration.py:151 | appending `-t` to a path keeps its dirname and extends its basename by `-t` |
| RunNaming.RunDirOfSuffixed | dev/parameter_exploration.py:148-151 | for `log_dir == p-t`, the run directory is `p`'s own parent joined with `p`'s basename |
| RunNaming.RunDirIgnoresTrialSuffix | dev/parameter_exploration.py:148-151 | log directories differing only after the last `-` share one run directory |
| RunNaming.JobNameParts | dev/parameter_exploration.py:174-175 | the job name reads back as experiment name, `_`, `G` exactly for global (`L` otherwise), base name |
| SingleRun.TrialConfigAt | dev/parameter_exploration.py:289-291 | trial `t` is built with the loaded configuration, its seed set to the `t`-th seed |
| SingleRun.OnlySeedChanges | dev/parameter_exploration.py:289-291 | only the `seed` key differs from the loaded configuration, and it holds the current seed |
| SingleRun.RunTrials | dev/parameter_exploration.py:289-291 | the in-place loop builds the trial configurations in seed order and leaves the last seed behind |
| ExperimentDriver.ThenAssociative | dev/parameter_exploration.py:133-184 | running three stages in sequence does not depend on how they are grouped |
| ExperimentDriver.ConfigJobErrors | dev/parameter_exploration.py:148-181 | of its own lookups, a configuration raises exactly when `log_dir` is missing, is not a string, or `time_limit[i]` is out of range, each with its own error, and it becomes a job exactly when none of them fails |
| ExperimentDriver.ConfigJobFields | dev/parameter_exploration.py:174-181 | the job name reads back as experiment name, `_`, `G` exactly for global (`L` otherwise), and the job directory's last component; the job has `time_limit[i]`, the memory limit, the partition and the configuration unchanged |
| ExperimentDriver.ConfigJobPaths | dev/parameter_exploration.py:148-177 | the job directory sits beside `log_dir` and is named by the base name; `runner.sh`, `stdio.txt` and `stderr.txt` are in it |
| ExperimentDriver.SubmitSpec | dev/parameter_exploration.py:146-184 | one job per generated configuration, in order, stopping exactly at the first configuration that raises |
| ExperimentDriver.SubmitPass | dev/parameter_exploration.py:146-184 | the loop over generated configurations submits what the pass specification says |
| ExperimentDriver.RunPass | dev/parameter_exploration.py:137-184 | one pass builds the mode's base configuration, applies the parameters and submits what the generator yields, as `Pass` (corrected loop) says |
| ExperimentDriver.RunPasses | dev/parameter_exploration.py:135-184 | the loop over `(True, False)` runs each pass in order, stopping at the first that raises |
| ExperimentDriver.RunExperiment | dev/parameter_exploration.py:133-184 | the loop over experiments submits what the whole-batch specification says |
| ExperimentDriver.PassJobsArePassJobs | dev/parameter_exploration.py:146-181 | every job of pass `i` is the job of a configuration the pass generator yielded, with the experiment's name, `_`, the pass's mode letter and its directory's last component as job name, and `time_limit[i]` |
| ExperimentDriver.ExperimentPasses | dev/parameter_exploration.py:135-181 | the global pass's jobs (letter `G`, `time_limit[0]`) come first, then, unless it raised, the local pass's (letter `L`, `time_limit[1]`) |
| ExperimentDriver.PassSucceedsIff | dev/parameter_exploration.py:146-184 | of its own lookups, a pass raises exactly when one of its configurations cannot become a job; otherwise it submits one job per configuration |
| ExperimentDriver.PassesSucceedIff | dev/parameter_exploration.py:135-184 | of its own lookups, both passes of an experiment succeed exactly when all its configurations can become jobs, with one job for each |
| ExperimentDriver.PlanSubmitsEveryConfiguration | dev/parameter_exploration.py:133-184 | of its own lookups, the batch raises exactly when some experiment has a configuration that cannot become a job; otherwise it submits one job per configuration over all passes |
| ExperimentDriver.PassesAsWrittenAgree | dev/parameter_exploration.py:135-146 | with a non-empty parameter list, an experiment's passes as written are the corrected ones and leave the local pass's generator in `config_gen` |
| ExperimentDriver.PlanAsWrittenAgrees | dev/parameter_exploration.py:133-146 | when no parameter list is empty, the batch as written is the corrected batch, whatever `config_gen` held before |
| ExperimentDriver.FirstEmptyParameterListRaises | dev/parameter_exploration.py:133-146 | a first experiment with an empty parameter list raises UnboundLocalError before any job is submitted |
| ExperimentDriver.EmptyParameterListPasses | dev/parameter_exploration.py:135-146 | with an empty parameter list, each pass as written submits from the generator `config_gen` already holds and leaves it there |
| ExperimentDriver.LaterEmptyParameterListReusesLocalGenerator | dev/parameter_exploration.py:133-146 | a later experiment with an empty parameter list submits, in both passes, the configurations of the previous experiment's local generator |

## Left out

- `generate_seeds` (lines 36-49): it depends on numpy's global random state and on float scaling. The trial loop takes the seeds as a parameter.
- `SPDataset`, `SPMetrics` and `SPRegion` (lines 122-130, 294-309): the numerical model and its float metrics are not shown, so they are not modelled. The trial loop stops at the configuration each region would be built with.
- `ConfigGenerator` (line 143): not shown. The driver takes what it yields as the parameter `expand`.
- `create_runner` and `execute_runner` (lines 178-184): not shown. A submitted `Job` records the arguments `create_runner` is given, and the order of jobs is the order of execution.
- File I/O (lines 152-167, 277-283) is not modelled: the `try`/`except OSError` around `os.makedirs` (lines 152-155), which swallows every OSError, the `config.json` and `dataset.pkl` writes, and the reads in `run_single_experiment`. `RunTrials` starts from the loaded configuration. JSON and pickle round trips are claims about library serialisers.
- The shell command string (lines 170-172) is not modelled. A job keeps the run directory, `ntrials` and `seed` it is built from; the script path `this_path`, joined from `this_dir` at line 170, is not modelled, and `this_dir` is not part of `Context`.
- ExperimentDriver.LaterEmptyParameterListReusesLocalGenerator: the source calls `get_config()` of one `ConfigGenerator` object three times (the earlier experiment's local pass and both passes of the later one, line 146); the lemma assumes each call yields the same configurations, as `expand` is a function of the generator's arguments. A generator with hidden state (numpy's global random state, an internal iterator) is not covered.
- Float constants (`trim`, `syn_th`, `pinc`, `pdec`, `pwindow`) are opaque values that carry their literal. No arithmetic is done on them.
- The `__main__` dispatch (lines 311-331) and `first_order_effects` (lines 186 onwards) only choose arguments, so they are not modelled.
- `dev/car_evaluation/encoder/errors.py` is not part of this model: its exception classes only format messages, and `wrap_error` delegates to `textwrap`.
- ExperimentDriver.ConfigJobErrors: only the bookkeeping's own lookups raise in the model. The source can also raise IOError at `open` (lines 160, 164) after `os.makedirs` failed with an error line 154 swallowed, TypeError in `json.dumps` (line 158) for a value JSON cannot hold, and whatever `create_runner` and `execute_runner` raise; in the model these configurations become jobs. The exact exception a non-string `log_dir` raises (AttributeError, from `p.rfind` inside `posixpath.basename` at line 149, for every non-string value) is one error here, `LogDirNotString`.
- ExperimentDriver.PassSucceedsIff, ExperimentDriver.PassesSucceedIff, ExperimentDriver.PlanSubmitsEveryConfiguration: "raises exactly when" covers the lookup errors above only, and these are stated of the corrected parameter loop; on an empty parameter list the code as written differs (UnboundLocalError or a stale generator), as `FirstEmptyParameterListRaises` and `LaterEmptyParameterListReusesLocalGenerator` state of `PlanAsWritten`.
- ExperimentDriver.RunPass, ExperimentDriver.RunPasses, ExperimentDriver.RunExperiment: the methods run the corrected parameter loop (`ApplyParameters`); the code as written is modelled by the functions `PassesAsWritten` and `PlanAsWritten`, which agree with them whenever no parameter list is empty (`PlanAsWrittenAgrees`), not by a method.
- ExperimentDriver.ExperimentPasses, ExperimentDriver.PassJobsArePassJobs: stated of the corrected parameter loop; by `PlanAsWrittenAgrees` they hold of the code as written when no parameter list is empty.
- Strings are sequences of characters. Python 2's `str`/`unicode` distinction and JSON key typing are not modelled.

## Findings

| source | as written | input that shows it | evidently intended | confidence | as-written member | corrected member |
|---|---|---|---|---|---|---|
| dev/parameter_exploration.py:141-143 | `config_gen = ConfigGenerator(base_config, ntrials)` is inside the loop over `params`, so it is only assigned when the list is non-empty | an experiment with `params == []`: first in the list, `config_gen` is unbound (UnboundLocalError at line 146); later, its global pass reuses the previous experiment's local generator, with `global_inhibition` false and the other experiment's `log_dir` | build the generator once after the loop, from the fully updated configuration | not executed | Parameters.ApplyParametersAsWritten, Parameters.EmptyParameterListReusesStaleGenerator, ExperimentDriver.FirstEmptyParameterListRaises, ExperimentDriver.LaterEmptyParameterListReusesLocalGenerator | Parameters.ApplyParameters, Parameters.PassGeneratorKeepsMode, ExperimentDriver.RunExperiment, ExperimentDriver.PlanSubmitsEveryConfiguration |

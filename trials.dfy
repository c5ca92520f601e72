/**
  The trial loop of `run_single_experiment` (dev/parameter_exploration.py,
  lines 289-294): before each trial the loaded configuration's `seed` is
  overwritten with the next seed, and the region is built from the whole
  configuration. Seed generation, loading and the region itself are not
  modelled; the seeds are a parameter.
 */
module SingleRun {
  import opened Configuration

  /** The configurations the regions are built with, one per seed, in order;
      each trial starts from the configuration the previous one left. */
  function TrialConfigs(config: Config, seeds: seq<int>): (trials: seq<Config>)
    ensures |trials| == |seeds|
    decreases |seeds|
  {
    if |seeds| == 0 then []
    else
      var next := config["seed" := Int(seeds[0])];
      [next] + TrialConfigs(next, seeds[1..])
  }

  /** Trial `t` is built with the loaded configuration, its `seed` replaced by
      the `t`-th seed: earlier trials leave nothing else behind. */
  lemma {:induction false} TrialConfigAt(config: Config, seeds: seq<int>, t: nat)
    requires t < |seeds|
    ensures TrialConfigs(config, seeds)[t] == config["seed" := Int(seeds[t])]
    decreases |seeds|
  {
    var next := config["seed" := Int(seeds[0])];
    if t > 0 {
      TrialConfigAt(next, seeds[1..], t - 1);
      assert next["seed" := Int(seeds[t])] == config["seed" := Int(seeds[t])];
    }
  }

  /** Between two trials only the `seed` key differs, and in each it holds that
      trial's seed; the other keys are exactly the loaded configuration's. */
  lemma OnlySeedChanges(config: Config, seeds: seq<int>, t: nat)
    requires t < |seeds|
    ensures var c := TrialConfigs(config, seeds)[t];
      && c.Keys == config.Keys + {"seed"}
      && c["seed"] == Int(seeds[t])
      && forall k :: k in config && k != "seed" ==> c[k] == config[k]
  {
    TrialConfigAt(config, seeds, t);
  }

  /** Lines 289-291: the loop, with `config` updated in place. Returns the
      configuration each region is built with and the configuration left at
      the end. */
  method RunTrials(config: Config, seeds: seq<int>) returns (built: seq<Config>, final: Config)
    ensures built == TrialConfigs(config, seeds)
    ensures final == if |seeds| == 0 then config else config["seed" := Int(seeds[|seeds| - 1])]
  {
    built := [];
    final := config;
    for t := 0 to |seeds|
      invariant |built| == t
      invariant forall u :: 0 <= u < t ==> built[u] == config["seed" := Int(seeds[u])]
      invariant final == if t == 0 then config else config["seed" := Int(seeds[t - 1])]
    {
      final := final["seed" := Int(seeds[t])];
      built := built + [final];
    }
    forall u | 0 <= u < |seeds| ensures built[u] == TrialConfigs(config, seeds)[u] {
      TrialConfigAt(config, seeds, u);
    }
    if |seeds| > 0 {
      TrialConfigAt(config, seeds, 0);
    }
  }
}

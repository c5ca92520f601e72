/**
  Writing an experiment's parameters into its base configuration, and the
  `ConfigGenerator` built from the result (dev/parameter_exploration.py,
  lines 141-143).
 */
module Parameters {
  import opened Wrappers
  import opened Configuration

  /** One `(param_name, param_value)` entry of an experiment's parameter list. */
  datatype Param = Param(name: string, value: Value)

  /** The arguments `ConfigGenerator(base_config, ntrials)` is built with. What
      the generator makes of them is not part of this model. */
  datatype Generator = Generator(config: Config, ntrials: int)

  /** The configuration after `base[name] = value` for each entry, in order. */
  function Overlay(base: Config, params: seq<Param>): Config
    decreases |params|
  {
    if |params| == 0 then base
    else
      var last := params[|params| - 1];
      Overlay(base, params[..|params| - 1])[last.name := last.value]
  }

  /** The parameter names of a list. */
  function Names(params: seq<Param>): set<string>
  {
    set j | 0 <= j < |params| :: params[j].name
  }

  /** The keys after the writes are the base keys and the names written. */
  lemma {:induction false} OverlayKeys(base: Config, params: seq<Param>)
    ensures Overlay(base, params).Keys == base.Keys + Names(params)
    decreases |params|
  {
    if |params| > 0 {
      var init := params[..|params| - 1];
      OverlayKeys(base, init);
      assert Names(params) == Names(init) + {params[|params| - 1].name} by {
        forall n | n in Names(params) ensures n in Names(init) + {params[|params| - 1].name} {
          var j :| 0 <= j < |params| && params[j].name == n;
          if j < |params| - 1 {
            assert init[j] == params[j];
          }
        }
        forall n | n in Names(init) ensures n in Names(params) {
          var j :| 0 <= j < |init| && init[j].name == n;
          assert params[j] == init[j];
        }
      }
    }
  }

  /** Last write wins: a key takes the value of the last entry that names it. */
  lemma {:induction false} OverlayLastWriteWins(base: Config, params: seq<Param>, j: nat)
    requires j < |params|
    requires forall j' :: j < j' < |params| ==> params[j'].name != params[j].name
    ensures params[j].name in Overlay(base, params)
    ensures Overlay(base, params)[params[j].name] == params[j].value
    decreases |params|
  {
    if j < |params| - 1 {
      var init := params[..|params| - 1];
      assert init[j] == params[j];
      OverlayLastWriteWins(base, init, j);
    }
  }

  /** A key no entry names keeps its base value, and stays absent if it was absent. */
  lemma {:induction false} OverlayUnnamed(base: Config, params: seq<Param>, k: string)
    requires forall j :: 0 <= j < |params| ==> params[j].name != k
    ensures k in Overlay(base, params) <==> k in base
    ensures k in base ==> Overlay(base, params)[k] == base[k]
    decreases |params|
  {
    if |params| > 0 {
      var init := params[..|params| - 1];
      forall j | 0 <= j < |init| ensures init[j].name != k {
        assert init[j] == params[j];
      }
      OverlayUnnamed(base, init, k);
    }
  }

  /** The loop of lines 141-143 as written. `base_config` is updated in place and
      the generator is rebuilt after every write, so the one left over has seen
      every write; with an empty list no generator is built and the variable
      keeps what it held before the loop: nothing (the name is unbound) or the
      generator of the previous pass. */
  method ApplyParametersAsWritten(base: Config, params: seq<Param>, ntrials: int,
                                  previous: Option<Generator>)
    returns (config: Config, gen: Option<Generator>)
    ensures config == Overlay(base, params)
    ensures |params| > 0 ==> gen == Some(Generator(config, ntrials))
    ensures |params| == 0 ==> gen == previous
    ensures gen == GeneratorAsWritten(base, params, ntrials, previous)
  {
    config := base;
    gen := previous;
    var i := 0;
    while i < |params|
      invariant 0 <= i <= |params|
      invariant config == Overlay(base, params[..i])
      invariant i > 0 ==> gen == Some(Generator(config, ntrials))
      invariant i == 0 ==> gen == previous
    {
      assert params[..i + 1][..i] == params[..i];
      config := config[params[i].name := params[i].value];
      gen := Some(Generator(config, ntrials));
      i := i + 1;
    }
    assert params[..i] == params;
  }

  /** The generator the code as written leaves behind, the specification of
      ApplyParametersAsWritten that the as-written driver is stated with. */
  function GeneratorAsWritten(base: Config, params: seq<Param>, ntrials: int,
                              previous: Option<Generator>): Option<Generator>
  {
    if |params| > 0 then Some(Generator(Overlay(base, params), ntrials)) else previous
  }

  /** The loop with the generator built once after it, so that it always holds
      this pass's configuration, also when the parameter list is empty. */
  method ApplyParameters(base: Config, params: seq<Param>, ntrials: int)
    returns (config: Config, gen: Generator)
    ensures config == Overlay(base, params)
    ensures gen == Generator(config, ntrials)
  {
    config := base;
    for i := 0 to |params|
      invariant config == Overlay(base, params[..i])
    {
      assert params[..i + 1][..i] == params[..i];
      config := config[params[i].name := params[i].value];
    }
    assert params[..|params|] == params;
    gen := Generator(config, ntrials);
  }

  /** The generator of a pass (corrected), for an experiment name and a mode:
      unless the parameter list itself names them, its configuration keeps this
      pass's inhibition mode and log directory. */
  lemma {:induction false} PassGeneratorKeepsMode(baseDir: string, experimentName: string,
                                                  globalInhibition: bool,
                                                  params: seq<Param>, ntrials: int)
    requires "global_inhibition" !in Names(params) && "log_dir" !in Names(params)
    ensures var c := Overlay(BaseConfig(baseDir, experimentName, globalInhibition, Null), params);
      && "global_inhibition" in c && c["global_inhibition"] == Bool(globalInhibition)
      && "log_dir" in c && c["log_dir"] == Str(LogDir(baseDir, experimentName, globalInhibition))
  {
    var base := BaseConfig(baseDir, experimentName, globalInhibition, Null);
    BaseConfigFields(baseDir, experimentName, globalInhibition, Null);
    forall j | 0 <= j < |params| ensures params[j].name != "global_inhibition" {
      assert params[j].name in Names(params);
    }
    forall j | 0 <= j < |params| ensures params[j].name != "log_dir" {
      assert params[j].name in Names(params);
    }
    OverlayUnnamed(base, params, "global_inhibition");
    OverlayUnnamed(base, params, "log_dir");
  }

  /** The code as written goes wrong on an empty parameter list. For the first
      experiment no generator exists (UnboundLocalError). For a later experiment, say
      `second`, the global pass reuses the generator that the local pass of the
      previous experiment `first` left behind, so its configurations carry the
      other mode and the other experiment's log directory. */
  lemma {:induction false} EmptyParameterListReusesStaleGenerator(
      baseDir: string, first: string, firstParams: seq<Param>, second: string, ntrials: int)
    requires '/' !in first && '/' !in second
    requires |firstParams| > 0
    requires "global_inhibition" !in Names(firstParams) && "log_dir" !in Names(firstParams)
    ensures GeneratorAsWritten(BaseConfig(baseDir, second, true, Null), [], ntrials, None) == None
    ensures var stale := GeneratorAsWritten(BaseConfig(baseDir, first, false, Null),
                                            firstParams, ntrials, None);
      var reused := GeneratorAsWritten(BaseConfig(baseDir, second, true, Null), [], ntrials, stale);
      && reused.Some?
      && "global_inhibition" in reused.value.config
      && reused.value.config["global_inhibition"] == Bool(false)
      && "log_dir" in reused.value.config
      && reused.value.config["log_dir"] != BaseConfig(baseDir, second, true, Null)["log_dir"]
  {
    PassGeneratorKeepsMode(baseDir, first, false, firstParams, ntrials);
    BaseConfigFields(baseDir, second, true, Null);
    LogDirComponents(baseDir, first, false);
    LogDirComponents(baseDir, second, true);
  }
}

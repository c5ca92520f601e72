/**
  The Spatial Pooler configuration record and `create_base_config`
  (dev/parameter_exploration.py, lines 51-87).
 */
module Configuration {
  import opened PosixPath

  /** A configuration value. Floating-point constants are opaque and carry their
      literal; `List` holds a swept array such as `np.arange(1, 4)`. */
  datatype Value =
    | Null
    | Bool(b: bool)
    | Int(i: int)
    | Str(s: string)
    | Float(literal: string)
    | List(items: seq<Value>)

  /** A configuration is a dictionary from parameter names to values. */
  type Config = map<string, Value>

  /** The fields of a base configuration that do not depend on its arguments,
      with the values of lines 69-84. */
  const FixedFields: Config := map[
    "ninputs" := Int(100), "ncolumns" := Int(300), "pct_active" := Null,
    "nactive" := Int(6), "trim" := Float("1e-4"), "disable_boost" := Bool(true),
    "nsynapses" := Int(20), "seg_th" := Int(2), "syn_th" := Float("0.5"),
    "pinc" := Float("0.01"), "pdec" := Float("0.01"), "pwindow" := Float("0.5"),
    "random_permanence" := Bool(true), "nepochs" := Int(10)
  ]

  /** The fields whose value depends on the arguments. */
  const VaryingKeys: set<string> := {"global_inhibition", "seed", "log_dir"}

  /** The directory level that separates the two inhibition modes. */
  function ModeDirectory(globalInhibition: bool): string
  {
    if globalInhibition then "global" else "local"
  }

  /** The mode directory is one non-empty, slash-free path component, and it
      names the mode. */
  lemma ModeDirectorySpec(globalInhibition: bool)
    ensures var d := ModeDirectory(globalInhibition);
      && |d| > 0 && '/' !in d && d[|d| - 1] != '/'
      && (d == "global" <==> globalInhibition)
  {
  }

  /** `os.path.join(base_dir, 'global' or 'local', experiment_name)`. */
  function LogDir(baseDir: string, experimentName: string, globalInhibition: bool): string
  {
    Join3(baseDir, ModeDirectory(globalInhibition), experimentName)
  }

  /** `create_base_config(base_dir, experiment_name, global_inhibition, seed)`;
      the source's default seed `None` is `Null` here. The dictionary literal of
      lines 68-87 is written as its fixed fields plus the three that vary. */
  function BaseConfig(baseDir: string, experimentName: string, globalInhibition: bool,
                      seed: Value): Config
  {
    FixedFields + map[
      "global_inhibition" := Bool(globalInhibition),
      "seed" := seed,
      "log_dir" := Str(LogDir(baseDir, experimentName, globalInhibition))
    ]
  }

  /** The fixed and the varying fields are different keys. */
  lemma FixedAndVaryingDisjoint()
    ensures FixedFields.Keys !! VaryingKeys
  {
  }

  /** A base configuration has exactly the seventeen keys: the fixed ones with
      their constant values, the mode, the seed and the log directory. */
  lemma BaseConfigFields(baseDir: string, experimentName: string, globalInhibition: bool,
                         seed: Value)
    ensures var c := BaseConfig(baseDir, experimentName, globalInhibition, seed);
      && c.Keys == FixedFields.Keys + VaryingKeys
      && (forall k :: k in FixedFields ==> c[k] == FixedFields[k])
      && c["global_inhibition"] == Bool(globalInhibition)
      && c["seed"] == seed
      && c["log_dir"] == Str(LogDir(baseDir, experimentName, globalInhibition))
  {
    FixedAndVaryingDisjoint();
  }

  /** In the usual case, a base directory without a trailing slash and a relative
      experiment name, `log_dir` is `base_dir/global/name` or `base_dir/local/name`. */
  lemma LogDirSpelledOut(baseDir: string, experimentName: string, globalInhibition: bool)
    requires |baseDir| > 0 && baseDir[|baseDir| - 1] != '/'
    requires |experimentName| == 0 || experimentName[0] != '/'
    ensures LogDir(baseDir, experimentName, true) == baseDir + "/global/" + experimentName
    ensures LogDir(baseDir, experimentName, false) == baseDir + "/local/" + experimentName
  {
  }

  /** For a slash-free experiment name, whatever the base directory: the last
      component of `log_dir` is the experiment name, its parent is
      `base_dir/<mode>`, and the parent's last component names the mode. */
  lemma LogDirComponents(baseDir: string, experimentName: string, globalInhibition: bool)
    requires '/' !in experimentName
    ensures var p := LogDir(baseDir, experimentName, globalInhibition);
      && Basename(p) == experimentName
      && Dirname(p) == Join(baseDir, ModeDirectory(globalInhibition))
      && Basename(Dirname(p)) == ModeDirectory(globalInhibition)
  {
    var m := ModeDirectory(globalInhibition);
    var parent := Join(baseDir, m);
    ModeDirectorySpec(globalInhibition);
    assert parent[|parent| - 1] == m[|m| - 1];
    BasenameOfJoin(parent, experimentName);
    DirnameOfJoin(parent, experimentName);
    BasenameOfJoin(baseDir, m);
  }

  /** For a relative experiment name, the two inhibition modes never share a
      log directory: `global` is one character longer than `local`, and both
      are joined onto the same base directory. (An absolute name replaces
      both, and then they coincide.) */
  lemma LogDirsOfModesDiffer(baseDir: string, experimentName: string)
    requires |experimentName| == 0 || experimentName[0] != '/'
    ensures LogDir(baseDir, experimentName, true) != LogDir(baseDir, experimentName, false)
  {
    var g := Join(baseDir, "global");
    var l := Join(baseDir, "local");
    assert |g| == |l| + 1;
    assert |LogDir(baseDir, experimentName, true)| == |g| + 1 + |experimentName|;
    assert |LogDir(baseDir, experimentName, false)| == |l| + 1 + |experimentName|;
  }
}

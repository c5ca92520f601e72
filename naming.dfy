/**
  How a generated configuration's `log_dir` becomes its run directory and job
  name (dev/parameter_exploration.py, lines 148-151 and 174-175).
 */
module RunNaming {
  import opened PyStr
  import opened PosixPath

  /** `'-'.join(name.split('-')[:-1])`: the name without its last `-`-segment. */
  function RunBaseName(name: string): string
  {
    var splits := Split(name, '-');
    JoinWith('-', splits[..|splits| - 1])
  }

  /** The last `-`-segment, the one RunBaseName drops. */
  function LastSegment(name: string): string
  {
    var splits := Split(name, '-');
    splits[|splits| - 1]
  }

  /** With a `-` present, the base name, a `-` and the dropped segment rebuild the
      name; without one, the base name is empty. */
  lemma {:induction false} RunBaseNameReconstructs(name: string)
    ensures '-' !in LastSegment(name)
    ensures '-' in name ==> RunBaseName(name) + "-" + LastSegment(name) == name
    ensures '-' !in name ==> RunBaseName(name) == ""
  {
    var splits := Split(name, '-');
    SplitPartsFree(name, '-');
    if '-' in name {
      SplitWithSeparator(name, '-');
      var init := splits[..|splits| - 1];
      assert init + [splits[|splits| - 1]] == splits;
      JoinWithSnoc('-', init, splits[|splits| - 1]);
      JoinSplit(name, '-');
    } else {
      SplitWithoutSeparator(name, '-');
    }
  }

  /** An independent description: the base name is everything before the last
      `-`, and empty when there is none. */
  lemma RunBaseNameIsPrefixBeforeLastHyphen(name: string)
    ensures '-' in name ==> RFind(name, '-') >= 0 && RunBaseName(name) == name[..RFind(name, '-')]
    ensures '-' !in name ==> RunBaseName(name) == ""
  {
    RunBaseNameReconstructs(name);
    if '-' in name {
      RFindAtSeparator(RunBaseName(name), '-', LastSegment(name));
      assert RunBaseName(name) + "-" + LastSegment(name)
          == RunBaseName(name) + ['-'] + LastSegment(name);
    }
  }

  /** A base name of a slash-free name is slash-free. */
  lemma RunBaseNameSlashFree(name: string)
    requires '/' !in name
    ensures '/' !in RunBaseName(name)
  {
    RunBaseNameIsPrefixBeforeLastHyphen(name);
    if '-' in name {
      var b := RunBaseName(name);
      forall k | 0 <= k < |b| ensures b[k] != '/' {
        assert b[k] == name[k];
      }
    }
  }

  /** Lines 148-151: the directory a generated configuration is written to. */
  function RunDir(logDir: string): (dir: string)
  {
    Join(Dirname(logDir), RunBaseName(Basename(logDir)))
  }

  /** The run directory sits beside `log_dir`, under the same parent, and its
      last component is the base name. */
  lemma RunDirBesideLogDir(logDir: string)
    ensures Dirname(RunDir(logDir)) == Dirname(logDir)
    ensures Basename(RunDir(logDir)) == RunBaseName(Basename(logDir))
  {
    BasenameSpec(logDir);
    RunBaseNameSlashFree(Basename(logDir));
    SameParent(logDir, RunBaseName(Basename(logDir)));
  }

  /** Dropping a trial suffix `-t` from the last component of a path leaves the
      path's own dirname and basename. */
  lemma RunDirOfSuffixed(prefix: string, t: string)
    requires '/' !in t && '-' !in t
    ensures RunDir(prefix + "-" + t) == Join(Dirname(prefix), Basename(prefix))
  {
    SuffixedPathParts(prefix, t);
    HyphenSuffixDropped(Basename(prefix), t);
  }

  /** Appending `-t` to a path, for a slash-free `t`, keeps its dirname and
      extends its basename by `-t`. */
  lemma SuffixedPathParts(prefix: string, t: string)
    requires '/' !in t
    ensures Dirname(prefix + "-" + t) == Dirname(prefix)
    ensures Basename(prefix + "-" + t) == Basename(prefix) + "-" + t
  {
    assert prefix + "-" + t == prefix + ("-" + t);
    assert Basename(prefix) + "-" + t == Basename(prefix) + ("-" + t);
    AppendWithinBasename(prefix, "-" + t);
  }

  /** The base name of `b-t`, for a `-`-free `t`, is `b`. */
  lemma HyphenSuffixDropped(b: string, t: string)
    requires '-' !in t
    ensures RunBaseName(b + "-" + t) == b
  {
    var x := b + "-" + t;
    assert x == b + ['-'] + t;
    assert x[|b|] == '-';
    RunBaseNameIsPrefixBeforeLastHyphen(x);
    RFindAtSeparator(b, '-', t);
    assert x[..|b|] == b;
  }

  /** Configurations whose log directories differ only in the segment after the
      last `-` (the trial discriminator) share one run directory. */
  lemma RunDirIgnoresTrialSuffix(prefix: string, trial1: string, trial2: string)
    requires '/' !in trial1 && '-' !in trial1
    requires '/' !in trial2 && '-' !in trial2
    ensures RunDir(prefix + "-" + trial1) == RunDir(prefix + "-" + trial2)
  {
    RunDirOfSuffixed(prefix, trial1);
    RunDirOfSuffixed(prefix, trial2);
  }

  /** The letter of the job name that gives the inhibition mode. */
  function ModeLetter(globalInhibition: bool): char
  {
    if globalInhibition then 'G' else 'L'
  }

  /** Lines 174-175: `'{0}_{1}{2}'.format(experiment_name, 'G' or 'L', base_name)`. */
  function JobName(experimentName: string, globalInhibition: bool, baseName: string): string
  {
    experimentName + "_" + [ModeLetter(globalInhibition)] + baseName
  }

  /** The job name reads back as the experiment name, `_`, the mode letter and
      the base name. */
  lemma JobNameParts(experimentName: string, globalInhibition: bool, baseName: string)
    ensures var r := JobName(experimentName, globalInhibition, baseName);
      var n := |experimentName|;
      && |r| == n + 2 + |baseName|
      && r[..n] == experimentName
      && r[n] == '_'
      && (r[n + 1] == 'G' <==> globalInhibition)
      && (r[n + 1] == 'L' <==> !globalInhibition)
      && r[n + 2..] == baseName
  {
  }

  /** Lines 135 and 181: the pass over `enumerate((True, False))` with index `i`
      uses `time_limit[i]`, so global inhibition takes entry 0, local entry 1. */
  const Modes: seq<bool> := [true, false]
}

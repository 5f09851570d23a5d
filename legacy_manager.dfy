/** The older `HelmManager` and `YamlMerger` of `src/helmmanager.py`: the
    same reconciliation with no rollback branch, an existence check against
    the raw `helm list` output, merge errors that are logged and swallowed,
    a saved merge without pinning, and the deployment directory deleted at
    the end. */
module LegacyManager {
  import opened Common
  import opened Document
  import opened Text
  import opened HelmCommands
  import opened ValuesMerge
  import opened Environment
  import opened HelmRun

  // ---------------------------------------------------------------------
  // Parsers

  /** `_extract_version_and_format`: pieces 0 and 1 of `repo.split(":")`.
      Without a colon the handler's message reads `self.repo`, which is not
      set yet, so an `AttributeError` escapes; a missing `--repo` fails on
      `None.split`. */
  function LegacyExtractVersionAndFormat(repo: Option<string>): (r: Result<(string, string), PyError>)
    ensures repo.None? ==> r == Err(AttributeError("split"))
    ensures repo.Some? && ':' !in repo.value ==> r == Err(AttributeError("repo"))
    ensures repo.Some? && ':' in repo.value ==> r == ExtractVersionAndFormat(repo.value)
  {
    match repo
    case None => Err(AttributeError("split"))
    case Some(text) =>
      var parts := Split(text, ':');
      SplitHasSecond(text, ':');
      if |parts| < 2 then Err(AttributeError("repo")) else Ok((parts[0], parts[1]))
  }

  /** `_check_if_exists`: `release_name in stdout`, header line included. */
  function LegacyCheckIfExists(release: string, stdout: string): (r: bool)
    ensures r <==> exists i :: 0 <= i <= |stdout| && release <= stdout[i..]
  {
    Occurs(release, stdout)
  }

  /** A release whose name appears in the header of an empty listing counts
      as installed for the older check and as absent for the newer one. */
  lemma HeaderMatches(release: string, header: string)
    requires release != [] && release <= header && NoLineBreak(header)
    ensures LegacyCheckIfExists(release, header)
    ensures !CheckIfExists(release, header)
  {
    assert header[0..] == header;
    StripHeaderSingleLine(header);
  }

  // ---------------------------------------------------------------------
  // __init__

  /** `HelmManager.__init__`: a named override file must exist; the
      repository argument is split before anything else happens; the
      namespace defaults to `HELM_NAMESPACE`; the deployment directory is
      created; a missing release name fails when the scratch paths are
      built. */
  function LegacyInitSpec(w: World, s: Sys, args: CliArgs): (r: (Sys, Result<Config, Outcome>))
    ensures r.0.files == s.files
    ensures r.0.trace == s.trace || r.0.trace == s.trace + [MakeDir(DeploymentDir)]
    ensures r.1.Ok? <==> (!Truthy(args.override) || args.override.value in s.files) &&
                         args.repo.Some? && ':' in args.repo.value && args.release.Some?
    ensures r.1.Ok? ==> r.1.value.release == args.release.value && r.0.trace == s.trace + [MakeDir(DeploymentDir)] &&
                        (r.1.value.repo, r.1.value.version) == ExtractVersionAndFormat(args.repo.value).value
    ensures Truthy(args.override) && args.override.value !in s.files ==> r == (s, Err(Exit(1)))
  {
    if Truthy(args.override) && args.override.value !in s.files then (s, Err(Exit(1)))
    else
      var overridePath := if Truthy(args.override) then Some(args.override.value) else None;
      match LegacyExtractVersionAndFormat(args.repo)
      case Err(e) => (s, Err(Raised(e)))
      case Ok((repo, version)) =>
        var namespace := if Truthy(args.namespace) then args.namespace.value else NamespaceOf(w.env);
        var s1 := Created(s, DeploymentDir);
        if args.release.None? then (s1, Err(Raised(TypeError)))
        else (s1, Ok(WithScratchPaths(args.release.value, namespace, overridePath, repo, version, args.action)))
  }

  // ---------------------------------------------------------------------
  // run

  /** `_update_with_merged_values` or `_template_with_merged_values`, whose
      output is printed; any other action does nothing. */
  function LegacyActSpec(w: World, cfg: Config, s: Sys): (Sys, Outcome) {
    if cfg.action == "update" then Finish(CallHelm(w, s, Upgrade(cfg.repo, cfg.version, cfg.mergedPath, cfg.namespace)))
    else if cfg.action == "template" then
      var r := CallHelm(w, s, Template(cfg.repo, cfg.version, cfg.mergedPath, cfg.namespace));
      if r.1.Failed? then (r.0, Exit(1)) else (Sys(r.0.trace + [PrintText(r.1.stdout)], r.0.files), Done)
    else (s, Done)
  }

  /** The action, then `delete_folder` of the deployment directory; a helm
      failure exits before the deletion. */
  function LegacyActAndClean(w: World, cfg: Config, s: Sys): (Sys, Outcome) {
    var acted := LegacyActSpec(w, cfg, s);
    if acted.1 == Done then (Deleted(acted.0, DeploymentDir), Done) else acted
  }

  /** `YamlMerger` and `save_merged_yaml`; every exception they raise is
      logged and swallowed. */
  function LegacyMergeAndAct(w: World, cfg: Config, s: Sys): (Sys, Outcome) {
    match MergerInputs(w, s.files, cfg)
    case Err(e) => (s, Logged(e))
    case Ok(inputs) =>
      match SaveMergedLegacy(inputs.0, inputs.1, inputs.2)
      case Err(e) => (s, Logged(e))
      case Ok(doc) => LegacyActAndClean(w, cfg, Written(s, cfg.mergedPath, Dumped(doc)))
  }

  /** Pull and unpack the chart, write the live values, then the merge. */
  function LegacyFetchChart(w: World, cfg: Config, s: Sys, values: string): (Sys, Outcome) {
    var pulled := CallHelm(w, s, Pull(cfg.repo, cfg.version, DeploymentDir));
    if pulled.1.Failed? then (pulled.0, Exit(1)) else
    var extracted := ChartExtracted(w, pulled.0, cfg);
    if !extracted.1 then (extracted.0, Exit(1))
    else LegacyMergeAndAct(w, cfg, Written(extracted.0, cfg.currentPath, Verbatim(values)))
  }

  /** The `try` block for an installed release: the values, then the
      rest. */
  function LegacyReconcileSpec(w: World, cfg: Config, s: Sys): (Sys, Outcome) {
    var values := CallHelm(w, s, GetValues(cfg.release, cfg.namespace));
    if values.1.Failed? then (values.0, Exit(1)) else LegacyFetchChart(w, cfg, values.0, values.1.stdout)
  }

  /** `run`: a release that is not listed is only reported. */
  function LegacyRunSpec(w: World, cfg: Config, s: Sys): (Sys, Outcome) {
    var listed := CallHelm(w, s, ListReleases(cfg.release, cfg.namespace));
    if listed.1.Failed? then (listed.0, Exit(1))
    else if !LegacyCheckIfExists(cfg.release, listed.1.stdout) then (listed.0, Done)
    else LegacyReconcileSpec(w, cfg, listed.0)
  }

  // ---------------------------------------------------------------------
  // Properties of run

  /** From `s`, a step ending in `s'` with `outcome` keeps the earlier
      actions, rolls nothing back and upgrades no more than the action
      asks; ending normally, it has performed the action's upgrades, then
      deleted the deployment directory as its last act, and only the
      upgrade of `update` comes between. */
  predicate CleansUp(cfg: Config, s: Sys, s': Sys, outcome: Outcome) {
    s.trace <= s'.trace &&
    Calls(s'.trace, RollingBack) == Calls(s.trace, RollingBack) &&
    Calls(s'.trace, Upgrading) <= Calls(s.trace, Upgrading) + Upgrades(cfg) &&
    (outcome == Done ==>
       Calls(s'.trace, Upgrading) == Calls(s.trace, Upgrading) + Upgrades(cfg) &&
       |s'.trace| > |s.trace| && s'.trace[|s'.trace| - 1] == DeleteDir(DeploymentDir) &&
       (forall p :: p in s'.files ==> !Under(DeploymentDir, p)) &&
       (cfg.action == "update" ==>
          |s'.trace| >= |s.trace| + 2 &&
          s'.trace[|s'.trace| - 2] == HelmCall(Upgrade(cfg.repo, cfg.version, cfg.mergedPath, cfg.namespace))))
  }

  lemma LegacyActOnce(w: World, cfg: Config, s: Sys)
    ensures var r := LegacyActSpec(w, cfg, s); ActsOnce(cfg, s, r.0, r.1)
  {
    var template := Template(cfg.repo, cfg.version, cfg.mergedPath, cfg.namespace);
    CallsHelm(w, s, Upgrade(cfg.repo, cfg.version, cfg.mergedPath, cfg.namespace));
    CallsHelm(w, s, template);
    var r := CallHelm(w, s, template);
    if r.1.Succeeded? {
      CallsSnoc(r.0.trace, PrintText(r.1.stdout), Upgrading);
      CallsSnoc(r.0.trace, PrintText(r.1.stdout), RollingBack);
    }
  }

  lemma LegacyActAndCleanOnce(w: World, cfg: Config, s: Sys)
    ensures var r := LegacyActAndClean(w, cfg, s); CleansUp(cfg, s, r.0, r.1)
  {
    var acted := LegacyActSpec(w, cfg, s);
    LegacyActOnce(w, cfg, s);
    CallsSnoc(acted.0.trace, DeleteDir(DeploymentDir), Upgrading);
    CallsSnoc(acted.0.trace, DeleteDir(DeploymentDir), RollingBack);
  }

  /** A swallowed merge error changes nothing after the write of the live
      values. */
  lemma LegacyMergeAndActOnce(w: World, cfg: Config, s: Sys)
    ensures var r := LegacyMergeAndAct(w, cfg, s);
            CleansUp(cfg, s, r.0, r.1) && (r.1.Logged? ==> r.0 == s)
  {
    var inputs := MergerInputs(w, s.files, cfg);
    if inputs.Ok? {
      var saved := SaveMergedLegacy(inputs.value.0, inputs.value.1, inputs.value.2);
      if saved.Ok? {
        SaveAndCleanOnce(w, cfg, s, saved.value);
      }
    }
  }

  /** The write of the merged values, the action and the clean-up. */
  lemma SaveAndCleanOnce(w: World, cfg: Config, s: Sys, doc: Doc)
    ensures var r := LegacyActAndClean(w, cfg, Written(s, cfg.mergedPath, Dumped(doc))); CleansUp(cfg, s, r.0, r.1)
  {
    var s1 := Written(s, cfg.mergedPath, Dumped(doc));
    WrittenQuiet(s, cfg.mergedPath, Dumped(doc));
    LegacyActAndCleanOnce(w, cfg, s1);
    var r := LegacyActAndClean(w, cfg, s1);
    CleansUpAfter(cfg, s, s1, r.0, r.1);
  }

  lemma CleansUpAfter(cfg: Config, s: Sys, s1: Sys, s': Sys, outcome: Outcome)
    requires Quiet(s, s1) && CleansUp(cfg, s1, s', outcome)
    ensures CleansUp(cfg, s, s', outcome)
  {
  }

  /** A swallowed error leaves the live values' scratch file on disk, the
      write of it being the last act, and upgrades nothing. */
  predicate KeepsScratch(cfg: Config, s: Sys, s': Sys) {
    Calls(s'.trace, Upgrading) == Calls(s.trace, Upgrading) &&
    cfg.currentPath in s'.files && |s'.trace| > 0 &&
    s'.trace[|s'.trace| - 1].WriteFile? && s'.trace[|s'.trace| - 1].path == cfg.currentPath
  }

  lemma LegacyFetchChartOnce(w: World, cfg: Config, s: Sys, values: string)
    ensures var r := LegacyFetchChart(w, cfg, s, values);
            CleansUp(cfg, s, r.0, r.1) && (r.1.Logged? ==> KeepsScratch(cfg, s, r.0))
  {
    var pulled := CallHelm(w, s, Pull(cfg.repo, cfg.version, DeploymentDir));
    CallsHelm(w, s, Pull(cfg.repo, cfg.version, DeploymentDir));
    if pulled.1.Succeeded? {
      var extracted := ChartExtracted(w, pulled.0, cfg);
      ChartExtractedQuiet(w, pulled.0, cfg);
      if extracted.1 {
        WriteAndMergeOnce(w, cfg, extracted.0, values);
        var r := LegacyMergeAndAct(w, cfg, Written(extracted.0, cfg.currentPath, Verbatim(values)));
        CleansUpAfter(cfg, pulled.0, extracted.0, r.0, r.1);
      }
    }
  }

  /** The write of the live values, then the merge. */
  lemma WriteAndMergeOnce(w: World, cfg: Config, s: Sys, values: string)
    ensures var r := LegacyMergeAndAct(w, cfg, Written(s, cfg.currentPath, Verbatim(values)));
            CleansUp(cfg, s, r.0, r.1) && (r.1.Logged? ==> KeepsScratch(cfg, s, r.0))
  {
    var s1 := Written(s, cfg.currentPath, Verbatim(values));
    WrittenQuiet(s, cfg.currentPath, Verbatim(values));
    LegacyMergeAndActOnce(w, cfg, s1);
    var r := LegacyMergeAndAct(w, cfg, s1);
    CleansUpAfter(cfg, s, s1, r.0, r.1);
  }

  /** The install branch rolls nothing back and upgrades at most once; a
      swallowed error keeps the scratch values and upgrades nothing. */
  lemma LegacyReconcileOnce(w: World, cfg: Config, s: Sys)
    ensures var r := LegacyReconcileSpec(w, cfg, s);
            CleansUp(cfg, s, r.0, r.1) && (r.1.Logged? ==> KeepsScratch(cfg, s, r.0))
  {
    var values := CallHelm(w, s, GetValues(cfg.release, cfg.namespace));
    CallsHelm(w, s, GetValues(cfg.release, cfg.namespace));
    if values.1.Succeeded? {
      LegacyFetchChartOnce(w, cfg, values.0, values.1.stdout);
    }
  }

  /** What the requested action leaves in the trace after `t`: one
      upgrade; one template call and, when it succeeds, the print of its
      output; or nothing. */
  function LegacyActionEvents(w: World, cfg: Config, t: seq<Event>): seq<Event> {
    var template := Template(cfg.repo, cfg.version, cfg.mergedPath, cfg.namespace);
    if cfg.action == "update" then [HelmCall(Upgrade(cfg.repo, cfg.version, cfg.mergedPath, cfg.namespace))]
    else if cfg.action == "template" then
      match w.helm(t, Args(template))
      case Succeeded(out) => [HelmCall(template), PrintText(out)]
      case Failed(_) => [HelmCall(template)]
    else []
  }

  /** The install branch, ending normally, has taken exactly these steps in
      this order: the values, the pull, the unpacking (and the copy of the
      chart's defaults), the write of the live values, the write of the
      merge minus the marker, the action, and last the deletion of the
      deployment directory. */
  lemma LegacyReconcileSteps(w: World, cfg: Config, s: Sys)
    requires LegacyReconcileSpec(w, cfg, s).1 == Done
    ensures var values := w.helm(s.trace, Args(GetValues(cfg.release, cfg.namespace)));
            var added := w.extract(ArchivePath(DeploymentDir, ChartName(cfg.repo), cfg.version));
            values.Succeeded? && added.Some? &&
            var inputs := MergerInputs(w, FetchedFiles(cfg, s.files, added.value, values.stdout), cfg);
            inputs.Ok? &&
            var saved := SaveMergedLegacy(inputs.value.0, inputs.value.1, inputs.value.2);
            saved.Ok? &&
            var t := s.trace + [HelmCall(GetValues(cfg.release, cfg.namespace))] + PullTrace(cfg, s.files, added.value, values.stdout, saved.value);
            LegacyReconcileSpec(w, cfg, s).0.trace == t + LegacyActionEvents(w, cfg, t) + [DeleteDir(DeploymentDir)]
  {
    var get := GetValues(cfg.release, cfg.namespace);
    var values := w.helm(s.trace, Args(get));
    var s1 := Sys(s.trace + [HelmCall(get)], s.files);
    assert LegacyReconcileSpec(w, cfg, s) == LegacyFetchChart(w, cfg, s1, values.stdout);
    LegacyFetchChartSteps(w, cfg, s1, values.stdout);
  }

  /** The same from the pull on, once the values are in. */
  lemma LegacyFetchChartSteps(w: World, cfg: Config, s: Sys, values: string)
    requires LegacyFetchChart(w, cfg, s, values).1 == Done
    ensures var added := w.extract(ArchivePath(DeploymentDir, ChartName(cfg.repo), cfg.version));
            added.Some? &&
            var inputs := MergerInputs(w, FetchedFiles(cfg, s.files, added.value, values), cfg);
            inputs.Ok? &&
            var saved := SaveMergedLegacy(inputs.value.0, inputs.value.1, inputs.value.2);
            saved.Ok? &&
            var t := s.trace + PullTrace(cfg, s.files, added.value, values, saved.value);
            LegacyFetchChart(w, cfg, s, values).0.trace == t + LegacyActionEvents(w, cfg, t) + [DeleteDir(DeploymentDir)]
  {
    var pull := Pull(cfg.repo, cfg.version, DeploymentDir);
    var s2 := Sys(s.trace + [HelmCall(pull)], s.files);
    assert CallHelm(w, s, pull).0 == s2;
    UnpackSteps(w, s2, cfg);
    var added := w.extract(ArchivePath(DeploymentDir, ChartName(cfg.repo), cfg.version)).value;
    var s4 := ChartExtracted(w, s2, cfg).0;
    var s5 := Written(s4, cfg.currentPath, Verbatim(values));
    assert LegacyFetchChart(w, cfg, s, values) == LegacyMergeAndAct(w, cfg, s5);
    LegacyMergeAndActSteps(w, cfg, s5);
    var inputs := MergerInputs(w, s5.files, cfg).value;
    var saved := SaveMergedLegacy(inputs.0, inputs.1, inputs.2).value;
    FetchTail(s.trace, cfg, s.files, added, values, saved);
  }

  /** And from the merge on. */
  lemma LegacyMergeAndActSteps(w: World, cfg: Config, s: Sys)
    requires LegacyMergeAndAct(w, cfg, s).1 == Done
    ensures MergerInputs(w, s.files, cfg).Ok?
    ensures var inputs := MergerInputs(w, s.files, cfg).value;
            var saved := SaveMergedLegacy(inputs.0, inputs.1, inputs.2);
            saved.Ok? &&
            var t := s.trace + [WriteFile(cfg.mergedPath, Dumped(saved.value))];
            LegacyMergeAndAct(w, cfg, s).0.trace == t + LegacyActionEvents(w, cfg, t) + [DeleteDir(DeploymentDir)]
  {
    var loaded := MergerInputs(w, s.files, cfg);
    assert loaded.Ok?;
    var inputs := loaded.value;
    var saved := SaveMergedLegacy(inputs.0, inputs.1, inputs.2);
    assert saved.Ok?;
    var s6 := Written(s, cfg.mergedPath, Dumped(saved.value));
    assert LegacyMergeAndAct(w, cfg, s) == LegacyActAndClean(w, cfg, s6);
    LegacyActAndCleanSteps(w, cfg, s6);
  }

  /** A normal end of the action and the clean-up adds exactly the action's
      events and the deletion. */
  lemma LegacyActAndCleanSteps(w: World, cfg: Config, s: Sys)
    requires LegacyActAndClean(w, cfg, s).1 == Done
    ensures LegacyActAndClean(w, cfg, s).0.trace == s.trace + LegacyActionEvents(w, cfg, s.trace) + [DeleteDir(DeploymentDir)]
  {
  }

  /** `run` as a whole: it starts with the listing; a release that is not
      listed ends the run right there, with no status query, rollback or
      exit; it never rolls back and upgrades at most once; a swallowed error
      upgrades nothing and keeps the scratch values; a normal end after more
      than the listing has run the action and deleted the deployment
      directory last. */
  lemma LegacyRunOnce(w: World, cfg: Config, s: Sys)
    ensures var r := LegacyRunSpec(w, cfg, s);
            |r.0.trace| > |s.trace| && r.0.trace[|s.trace|] == HelmCall(ListReleases(cfg.release, cfg.namespace)) &&
            (forall listing :: w.helm(s.trace, Args(ListReleases(cfg.release, cfg.namespace))) == Succeeded(listing) &&
                               !LegacyCheckIfExists(cfg.release, listing) ==>
                                 r == (Sys(s.trace + [HelmCall(ListReleases(cfg.release, cfg.namespace))], s.files), Done)) &&
            Calls(r.0.trace, RollingBack) == Calls(s.trace, RollingBack) &&
            Calls(r.0.trace, Upgrading) <= Calls(s.trace, Upgrading) + Upgrades(cfg) &&
            (r.1.Logged? ==> Calls(r.0.trace, Upgrading) == Calls(s.trace, Upgrading) && cfg.currentPath in r.0.files) &&
            (r.1 == Done && |r.0.trace| > |s.trace| + 1 ==>
               r.0.trace[|r.0.trace| - 1] == DeleteDir(DeploymentDir) &&
               (forall p :: p in r.0.files ==> !Under(DeploymentDir, p)) &&
               Calls(r.0.trace, Upgrading) == Calls(s.trace, Upgrading) + Upgrades(cfg))
  {
    var list := ListReleases(cfg.release, cfg.namespace);
    var listed := CallHelm(w, s, list);
    CallsHelm(w, s, list);
    assert listed.0.trace[|s.trace|] == HelmCall(list);
    if listed.1.Succeeded? && LegacyCheckIfExists(cfg.release, listed.1.stdout) {
      LegacyReconcileOnce(w, cfg, listed.0);
      var r := LegacyReconcileSpec(w, cfg, listed.0);
      assert r.0.trace[..|listed.0.trace|] == listed.0.trace;
    }
  }

  // ---------------------------------------------------------------------
  // The merger and the manager object

  /** `save_merged_yaml` of the older `YamlMerger`, whose loading and
      merge are those of the newer one: the merge with the marker deleted,
      or the `KeyError` of the deletion.  The deletion is on the live values
      object itself, and the merge has rewritten the shared default
      subtrees. */
  method SaveMergedYamlLegacy(merger: YamlMerger) returns (written: Result<Doc, PyError>)
    modifies merger
    ensures written == SaveMergedLegacy(old(merger.sourceData), old(merger.newFieldsData), old(merger.overrideData))
    ensures merger.sourceData ==
              if written.Ok? then written.value
              else Merged(old(merger.sourceData), old(merger.newFieldsData), old(merger.overrideData))
    ensures merger.newFieldsData == DefaultsAfterMerge(old(merger.sourceData), old(merger.newFieldsData), old(merger.overrideData))
    ensures merger.overrideData == old(merger.overrideData)
  {
    var merged := merger.Merge();
    if UserSupplied !in Keys(merged) {
      return Err(KeyError(UserSupplied));
    }
    merger.sourceData := Remove(merged, UserSupplied);
    written := Ok(merger.sourceData);
  }

  /** The older `HelmManager`, its fields set, acting on `host`. */
  class LegacyHelmManager {
    const host: Host
    const config: Config

    constructor(host: Host, config: Config)
      ensures this.host == host && this.config == config
    {
      this.host := host;
      this.config := config;
    }

    /** The `match self.action` of `run`, then `delete_folder`. */
    method ActAndClean() returns (outcome: Outcome)
      modifies host
      ensures (host.State(), outcome) == LegacyActAndClean(host.world, config, old(host.State()))
    {
      if config.action == "update" {
        var r := host.Helm(Upgrade(config.repo, config.version, config.mergedPath, config.namespace));
        if r.Failed? {
          return Exit(1);
        }
      } else if config.action == "template" {
        var r := host.Helm(Template(config.repo, config.version, config.mergedPath, config.namespace));
        if r.Failed? {
          return Exit(1);
        }
        host.Print(r.stdout);
      }
      host.DeleteFolder(DeploymentDir);
      outcome := Done;
    }

    /** The merge and what follows it, errors swallowed. */
    method MergeAndAct() returns (outcome: Outcome)
      modifies host
      ensures (host.State(), outcome) == LegacyMergeAndAct(host.world, config, old(host.State()))
    {
      var inputs := MergerInputs(host.world, host.files, config);
      if inputs.Err? {
        return Logged(inputs.error);
      }
      var (current, defaults, overrides) := inputs.value;
      var merger := new YamlMerger(current, defaults, Some(overrides));
      var saved := SaveMergedYamlLegacy(merger);
      if saved.Err? {
        return Logged(saved.error);
      }
      host.WriteValues(config.mergedPath, Dumped(saved.value));
      outcome := ActAndClean();
    }

    /** `run`. */
    method Run() returns (outcome: Outcome)
      modifies host
      ensures (host.State(), outcome) == LegacyRunSpec(host.world, config, old(host.State()))
    {
      var listed := host.Helm(ListReleases(config.release, config.namespace));
      if listed.Failed? {
        return Exit(1);
      }
      if !LegacyCheckIfExists(config.release, listed.stdout) {
        return Done;
      }
      var values := host.Helm(GetValues(config.release, config.namespace));
      if values.Failed? {
        return Exit(1);
      }
      var pulled := host.Helm(Pull(config.repo, config.version, DeploymentDir));
      if pulled.Failed? {
        return Exit(1);
      }
      var extracted := host.ExtractChart(config);
      if !extracted {
        return Exit(1);
      }
      host.WriteValues(config.currentPath, Verbatim(values.stdout));
      outcome := MergeAndAct();
    }
  }

  /** `HelmManager.__init__` on the host. */
  method LegacyInit(host: Host, args: CliArgs) returns (r: Result<Config, Outcome>)
    modifies host
    ensures (host.State(), r) == LegacyInitSpec(host.world, old(host.State()), args)
  {
    if Truthy(args.override) && args.override.value !in host.files {
      return Err(Exit(1));
    }
    var overridePath := if Truthy(args.override) then Some(args.override.value) else None;
    var split := LegacyExtractVersionAndFormat(args.repo);
    if split.Err? {
      return Err(Raised(split.error));
    }
    var (repo, version) := split.value;
    var namespace := if Truthy(args.namespace) then args.namespace.value else NamespaceOf(host.world.env);
    host.CreateFolder(DeploymentDir);
    if args.release.None? {
      return Err(Raised(TypeError));
    }
    r := Ok(WithScratchPaths(args.release.value, namespace, overridePath, repo, version, args.action));
  }
}

/** `HelmManager.__init__` and `HelmManager.run` of `src/helm_manager.py`:
    reconcile an installed release with a newer chart, or recover a release
    stuck in `pending-upgrade` by rolling back one revision and starting
    over.  The source restarts without bound; the model counts the restarts
    with `fuel`. */
module HelmRun {
  import opened Common
  import opened Document
  import opened Text
  import opened HelmCommands
  import opened ValuesMerge
  import opened Environment

  /** What the not-found branch decides: restart from the existence check,
      or stop with an outcome. */
  datatype Next = Rerun | Stop(outcome: Outcome)

  const PendingUpgrade := "pending-upgrade"
  const StatusKey := "STATUS"
  const RevisionKey := "REVISION"

  /** The start of the message of the `ValueError` that `int()` raises. */
  const NotAnInteger := "invalid literal for int() with base 10"

  /** The `ValueError` of `int(text)`: the message ends with the argument's
      `repr`, here a quote-free printable string between single quotes. */
  function InvalidLiteral(text: string): (e: PyError)
    ensures e.ValueError? && NotAnInteger + ": '" <= e.message
  {
    ValueError(NotAnInteger + ": '" + text + "'")
  }

  // ---------------------------------------------------------------------
  // __init__

  /** `HelmManager.__init__`: the release defaults to `quixplatform-manager`
      and the namespace to `HELM_NAMESPACE`; a named override file must exist;
      `--repo` is echoed to standard output before it is split; without it
      the version is read from the installed release and the repository is
      the Quix registry. */
  function InitSpec(w: World, s: Sys, args: CliArgs): (Sys, Result<Config, Outcome>) {
    var release := if Truthy(args.release) then args.release.value else DefaultRelease;
    var namespace := if Truthy(args.namespace) then args.namespace.value else NamespaceOf(w.env);
    if Truthy(args.override) && args.override.value !in s.files then (s, Err(Exit(1)))
    else
      var overridePath := if Truthy(args.override) then Some(args.override.value) else None;
      if Truthy(args.repo) then
        var printed := Sys(s.trace + [PrintText(args.repo.value)], s.files);
        match ExtractVersionAndFormat(args.repo.value)
        case Err(e) => (printed, Err(Raised(e)))
        case Ok((repo, version)) =>
          (Created(printed, DeploymentDir), Ok(WithScratchPaths(release, namespace, overridePath, repo, version, args.action)))
      else
        var (s1, listed) := CallHelm(w, s, ListReleases(release, namespace));
        if listed.Failed? then (s1, Err(Exit(1)))
        else match RemoteVersion(listed.stdout)
          case Err(e) => (s1, Err(Raised(e)))
          case Ok(version) =>
            (Created(s1, DeploymentDir), Ok(WithScratchPaths(release, namespace, overridePath, DefaultRepo, version, args.action)))
  }

  /** A missing override file stops the program before anything is done.
      (An unfolding of `InitSpec`.) */
  lemma InitMissingOverride(w: World, s: Sys, args: CliArgs)
    requires Truthy(args.override) && args.override.value !in s.files
    ensures InitSpec(w, s, args) == (s, Err(Exit(1)))
  {
  }

  /** With a `repo:version` argument no helm command runs: the argument is
      printed and the deployment directory created; the fields are
      the argument's two parts, the release name or its default, and the
      scratch files `./tmp/<release>current.yaml` and the like. */
  lemma InitWithRepo(w: World, s: Sys, args: CliArgs, name: string, version: string)
    requires !Truthy(args.override) && args.repo == Some(name + ":" + version)
    requires ':' !in name && ':' !in version
    ensures var (s', r) := InitSpec(w, s, args);
            var release := if Truthy(args.release) then args.release.value else DefaultRelease;
            s'.trace == s.trace + [PrintText(name + ":" + version), MakeDir(DeploymentDir)] && s'.files == s.files &&
            r.Ok? && r.value.repo == name && r.value.version == version &&
            r.value.release == release && r.value.overridePath == None &&
            (release != [] && release[0] != '/' ==> r.value.currentPath == "./tmp/" + release + "current.yaml")
  {
    ExtractVersionRoundTrip(name, version, "");
    assert name + ":" + version + "" == name + ":" + version;
    var release := if Truthy(args.release) then args.release.value else DefaultRelease;
    ScratchPaths(release, "current.yaml");
  }

  /** Without a repository argument the single helm call lists the release,
      and the version is the one its listed chart carries. */
  lemma InitWithoutRepo(w: World, s: Sys, args: CliArgs)
    requires !Truthy(args.override) && !Truthy(args.repo)
    ensures var (s', r) := InitSpec(w, s, args);
            var release := if Truthy(args.release) then args.release.value else DefaultRelease;
            var namespace := if Truthy(args.namespace) then args.namespace.value else NamespaceOf(w.env);
            var listed := w.helm(s.trace, Args(ListReleases(release, namespace)));
            s'.trace[..|s.trace| + 1] == s.trace + [HelmCall(ListReleases(release, namespace))] &&
            (r.Ok? <==> listed.Succeeded? && RemoteVersion(listed.stdout).Ok?) &&
            (r.Ok? ==> r.value.repo == DefaultRepo && r.value.version == RemoteVersion(listed.stdout).value)
  {
  }

  // ---------------------------------------------------------------------
  // run

  /** `_check_if_exists`: `None` when `helm list` fails. */
  function Exists(w: World, cfg: Config, s: Sys): (Sys, Option<bool>) {
    var listed := CallHelm(w, s, ListReleases(cfg.release, cfg.namespace));
    (listed.0, if listed.1.Failed? then None else Some(CheckIfExists(cfg.release, listed.1.stdout)))
  }

  /** A helm call whose failure ends the program with `sys.exit(1)`. */
  function Finish(r: (Sys, Response)): (Sys, Outcome) {
    (r.0, if r.1.Failed? then Exit(1) else Done)
  }

  /** The requested action on the merged values; any other action is only
      logged. */
  function ActSpec(w: World, cfg: Config, s: Sys): (Sys, Outcome) {
    if cfg.action == "update" then Finish(CallHelm(w, s, Upgrade(cfg.repo, cfg.version, cfg.mergedPath, cfg.namespace)))
    else if cfg.action == "template" then Finish(CallHelm(w, s, Template(cfg.repo, cfg.version, cfg.mergedPath, cfg.namespace)))
    else (s, Done)
  }

  /** `save_merged_yaml` on the loaded documents, as written, then the
      action. */
  function SaveAndAct(w: World, cfg: Config, s: Sys, inputs: (Doc, Doc, Doc)): (Sys, Outcome) {
    var saved := SaveMergedAsWritten(inputs.0, inputs.1, inputs.2);
    if saved.Err? then (s, Exit(1))
    else ActSpec(w, cfg, Written(s, cfg.mergedPath, Dumped(saved.value)))
  }

  /** `YamlMerger` on the scratch files, then the rest. */
  function MergeAndAct(w: World, cfg: Config, s: Sys): (Sys, Outcome) {
    var inputs := MergerInputs(w, s.files, cfg);
    if inputs.Err? then (s, Exit(1)) else SaveAndAct(w, cfg, s, inputs.value)
  }

  /** Pull and unpack the chart, write the live values, then the rest. */
  function FetchChart(w: World, cfg: Config, s: Sys, values: string): (Sys, Outcome) {
    var pulled := CallHelm(w, s, Pull(cfg.repo, cfg.version, DeploymentDir));
    if pulled.1.Failed? then (pulled.0, Exit(1)) else
    var extracted := ChartExtracted(w, pulled.0, cfg);
    if !extracted.1 then (extracted.0, Exit(1))
    else MergeAndAct(w, cfg, Written(extracted.0, cfg.currentPath, Verbatim(values)))
  }

  /** The branch for an installed release: fetch its values, pull and
      unpack the chart, write the values, merge and save them, then act;
      every exception on the way becomes `sys.exit(1)`. */
  function ReconcileSpec(w: World, cfg: Config, s: Sys): (Sys, Outcome) {
    var values := CallHelm(w, s, GetValues(cfg.release, cfg.namespace));
    if values.1.Failed? then (values.0, Exit(1)) else FetchChart(w, cfg, values.0, values.1.stdout)
  }

  /** The revision a `helm status` report sends the release back to: one
      before the current revision when the release is `pending-upgrade`;
      otherwise how the program stops. */
  function RollbackRevision(statusText: string): (r: Result<string, Outcome>)
    ensures r.Err? ==> r.error == Exit(1) || r.error.Raised?
  {
    var status := ParseStatus(statusText);
    if !(StatusKey in status && status[StatusKey] == PendingUpgrade) then Err(Exit(1))
    else if RevisionKey !in status then Err(Raised(TypeError))
    else match ParseInt(status[RevisionKey])
      case None => Err(Raised(InvalidLiteral(status[RevisionKey])))
      case Some(revision) => Ok(IntToDecimal(revision - 1))
  }

  /** A release pending an upgrade at revision `n` goes back to revision
      `n - 1`; a status other than `pending-upgrade` ends the program. */
  lemma RollbackRevisionOf(statusText: string)
    ensures var status := ParseStatus(statusText);
            RollbackRevision(statusText).Err? && RollbackRevision(statusText).error == Exit(1) <==>
              !(StatusKey in status && status[StatusKey] == PendingUpgrade)
    ensures var status := ParseStatus(statusText);
            forall n: int :: StatusKey in status && status[StatusKey] == PendingUpgrade &&
                             RevisionKey in status && status[RevisionKey] == IntToDecimal(n) ==>
                               RollbackRevision(statusText) == Ok(IntToDecimal(n - 1))
    ensures var status := ParseStatus(statusText);
            StatusKey in status && status[StatusKey] == PendingUpgrade ==>
              (RevisionKey !in status ==> RollbackRevision(statusText) == Err(Raised(TypeError))) &&
              (RevisionKey in status && ParseInt(status[RevisionKey]).None? ==>
                 RollbackRevision(statusText) == Err(Raised(ValueError(NotAnInteger + ": '" + status[RevisionKey] + "'"))))
  {
    var status := ParseStatus(statusText);
    forall n: int | StatusKey in status && status[StatusKey] == PendingUpgrade &&
                    RevisionKey in status && status[RevisionKey] == IntToDecimal(n)
      ensures RollbackRevision(statusText) == Ok(IntToDecimal(n - 1))
    {
      ParseIntDecimal(n);
    }
  }

  /** The branch for a release that is not listed: a release stuck in
      `pending-upgrade` is rolled back to the revision before the current
      one; any other status ends the program. */
  function RecoverSpec(w: World, cfg: Config, s: Sys): (Sys, Next) {
    var st := CallHelm(w, s, ReleaseStatus(cfg.release, cfg.namespace));
    if st.1.Failed? then (st.0, Stop(Exit(1))) else
    var revision := RollbackRevision(st.1.stdout);
    if revision.Err? then (st.0, Stop(revision.error)) else
    var rolled := CallHelm(w, st.0, Rollback(cfg.release, revision.value, cfg.namespace));
    (rolled.0, if rolled.1.Failed? then Stop(Exit(1)) else Rerun)
  }

  /** One pass of `run`, from the existence check. */
  function Pass(w: World, cfg: Config, s: Sys): (Sys, Next) {
    var found := Exists(w, cfg, s);
    if found.1.None? then (found.0, Stop(Exit(1)))
    else if found.1.value then var r := ReconcileSpec(w, cfg, found.0); (r.0, Stop(r.1))
    else RecoverSpec(w, cfg, found.0)
  }

  /** One pass, as a function of the state it starts from. */
  function PassOf(w: World, cfg: Config): Sys -> (Sys, Next) {
    s => Pass(w, cfg, s)
  }

  /** Passes of `step` from `s` until one stops, at most `fuel` of them. */
  function Iterate(step: Sys -> (Sys, Next), s: Sys, fuel: nat): (Sys, Outcome)
    decreases fuel, 0
  {
    if fuel == 0 then (s, OutOfFuel) else Continue(step, step(s), fuel - 1)
  }

  /** What follows a pass: how it stopped, or the passes that start over
      from where it ended, with `fuel` left. */
  function Continue(step: Sys -> (Sys, Next), pass: (Sys, Next), fuel: nat): (Sys, Outcome)
    decreases fuel, 1
  {
    match pass.1
    case Stop(outcome) => (pass.0, outcome)
    case Rerun => Iterate(step, pass.0, fuel)
  }

  /** `run`, with at most `fuel` passes through the existence check: the
      `self.run()` after a rollback is the next pass. */
  function RunSpec(w: World, cfg: Config, s: Sys, fuel: nat): (Sys, Outcome) {
    Iterate(PassOf(w, cfg), s, fuel)
  }

  // ---------------------------------------------------------------------
  // Properties of run

  /** A run with fuel left is its first pass and what follows it.  (An
      unfolding of `RunSpec`.) */
  lemma RunFirstPass(w: World, cfg: Config, s: Sys, fuel: nat)
    requires fuel > 0
    ensures RunSpec(w, cfg, s, fuel) == Continue(PassOf(w, cfg), Pass(w, cfg, s), fuel - 1)
  {
  }

  /** A release stuck in `pending-upgrade` at revision `n` is rolled back to
      revision `n - 1`, and the program starts over from the existence
      check. */
  lemma PendingUpgradeRollsBack(w: World, cfg: Config, s: Sys, fuel: nat, listing: string, statusText: string, n: int)
    requires fuel > 0
    requires w.helm(s.trace, Args(ListReleases(cfg.release, cfg.namespace))) == Succeeded(listing)
    requires !CheckIfExists(cfg.release, listing)
    requires var t := s.trace + [HelmCall(ListReleases(cfg.release, cfg.namespace))];
             w.helm(t, Args(ReleaseStatus(cfg.release, cfg.namespace))) == Succeeded(statusText)
    requires var status := ParseStatus(statusText);
             StatusKey in status && status[StatusKey] == PendingUpgrade &&
             RevisionKey in status && status[RevisionKey] == IntToDecimal(n)
    ensures var rollback := Rollback(cfg.release, IntToDecimal(n - 1), cfg.namespace);
            var t := s.trace + [HelmCall(ListReleases(cfg.release, cfg.namespace)),
                                HelmCall(ReleaseStatus(cfg.release, cfg.namespace)),
                                HelmCall(rollback)];
            RunSpec(w, cfg, s, fuel) ==
              if w.helm(t[..|t| - 1], Args(rollback)).Failed? then (Sys(t, s.files), Exit(1))
              else RunSpec(w, cfg, Sys(t, s.files), fuel - 1)
  {
    var list := ListReleases(cfg.release, cfg.namespace);
    var status := ReleaseStatus(cfg.release, cfg.namespace);
    var rollback := Rollback(cfg.release, IntToDecimal(n - 1), cfg.namespace);
    var s1 := Sys(s.trace + [HelmCall(list)], s.files);
    var s2 := Sys(s1.trace + [HelmCall(status)], s.files);
    var t := s.trace + [HelmCall(list), HelmCall(status), HelmCall(rollback)];
    assert s2.trace + [HelmCall(rollback)] == t;
    assert t[..|t| - 1] == s2.trace;
    PassNotFound(w, cfg, s, s1);
    RollbackRevisionOf(statusText);
    assert RecoverSpec(w, cfg, s1) == (Sys(t, s.files), if w.helm(s2.trace, Args(rollback)).Failed? then Stop(Exit(1)) else Rerun);
    RunFirstPass(w, cfg, s, fuel);
  }

  /** A release that is neither listed nor pending an upgrade ends the
      program with exit code 1 after the status query, without a rollback. */
  lemma OtherStatusExits(w: World, cfg: Config, s: Sys, fuel: nat, listing: string, statusText: string)
    requires fuel > 0
    requires w.helm(s.trace, Args(ListReleases(cfg.release, cfg.namespace))) == Succeeded(listing)
    requires !CheckIfExists(cfg.release, listing)
    requires var t := s.trace + [HelmCall(ListReleases(cfg.release, cfg.namespace))];
             w.helm(t, Args(ReleaseStatus(cfg.release, cfg.namespace))) == Succeeded(statusText)
    requires var status := ParseStatus(statusText);
             !(StatusKey in status && status[StatusKey] == PendingUpgrade)
    ensures var r := RunSpec(w, cfg, s, fuel);
            r.1 == Exit(1) && r.0.files == s.files &&
            r.0.trace == s.trace + [HelmCall(ListReleases(cfg.release, cfg.namespace)),
                                    HelmCall(ReleaseStatus(cfg.release, cfg.namespace))] &&
            Calls(r.0.trace, RollingBack) == Calls(s.trace, RollingBack)
  {
    RollbackRevisionOf(statusText);
    var t1 := s.trace + [HelmCall(ListReleases(cfg.release, cfg.namespace))];
    var t2 := t1 + [HelmCall(ReleaseStatus(cfg.release, cfg.namespace))];
    assert t2 == s.trace + [HelmCall(ListReleases(cfg.release, cfg.namespace)),
                            HelmCall(ReleaseStatus(cfg.release, cfg.namespace))];
    CallsSnoc(s.trace, HelmCall(ListReleases(cfg.release, cfg.namespace)), RollingBack);
    CallsSnoc(t1, HelmCall(ReleaseStatus(cfg.release, cfg.namespace)), RollingBack);
    PassNotFound(w, cfg, s, Sys(t1, s.files));
    assert RecoverSpec(w, cfg, Sys(t1, s.files)) == (Sys(t2, s.files), Stop(Exit(1)));
    RunFirstPass(w, cfg, s, fuel);
  }

  /** More fuel changes nothing once a run has finished. */
  lemma FuelMonotone(w: World, cfg: Config, s: Sys, fuel: nat, more: nat)
    requires fuel <= more
    requires RunSpec(w, cfg, s, fuel).1 != OutOfFuel
    ensures RunSpec(w, cfg, s, more) == RunSpec(w, cfg, s, fuel)
  {
    IterateMonotone(PassOf(w, cfg), s, fuel, more);
  }

  /** The same for the passes of any step. */
  lemma {:induction false} IterateMonotone(step: Sys -> (Sys, Next), s: Sys, fuel: nat, more: nat)
    requires fuel <= more
    requires Iterate(step, s, fuel).1 != OutOfFuel
    ensures Iterate(step, s, more) == Iterate(step, s, fuel)
    decreases fuel, 0
  {
    ContinueMonotone(step, step(s), fuel - 1, more - 1);
  }

  /** And for what follows a pass. */
  lemma {:induction false} ContinueMonotone(step: Sys -> (Sys, Next), pass: (Sys, Next), fuel: nat, more: nat)
    requires fuel <= more
    requires Continue(step, pass, fuel).1 != OutOfFuel
    ensures Continue(step, pass, more) == Continue(step, pass, fuel)
    decreases fuel, 1
  {
    if pass.1.Rerun? {
      IterateMonotone(step, pass.0, fuel, more);
    }
  }

  /** The number of upgrades the requested action performs. */
  function Upgrades(cfg: Config): nat {
    if cfg.action == "update" then 1 else 0
  }

  /** `s'` continues `s`: its trace extends the earlier one and no file has
      disappeared. */
  predicate Extends(s: Sys, s': Sys) {
    s.trace <= s'.trace && s.files.Keys <= s'.files.Keys
  }

  /** `s'` continues `s` with no upgrade and no rollback in between. */
  predicate Quiet(s: Sys, s': Sys) {
    Extends(s, s') &&
    Calls(s'.trace, Upgrading) == Calls(s.trace, Upgrading) &&
    Calls(s'.trace, RollingBack) == Calls(s.trace, RollingBack)
  }

  /** From `s`, the step ending in `r` neither rolls back nor upgrades more
      than the action asks; finishing normally, it has performed the action's
      upgrades, the upgrade being its last act. */
  predicate ActsOnce(cfg: Config, s: Sys, s': Sys, outcome: Outcome) {
    Extends(s, s') &&
    Calls(s'.trace, RollingBack) == Calls(s.trace, RollingBack) &&
    Calls(s'.trace, Upgrading) <= Calls(s.trace, Upgrading) + Upgrades(cfg) &&
    (outcome == Done ==>
       Calls(s'.trace, Upgrading) == Calls(s.trace, Upgrading) + Upgrades(cfg) &&
       (cfg.action == "update" ==>
          s'.trace[|s'.trace| - 1] == HelmCall(Upgrade(cfg.repo, cfg.version, cfg.mergedPath, cfg.namespace))))
  }

  lemma QuietThen(cfg: Config, s: Sys, s1: Sys, s': Sys, outcome: Outcome)
    requires Quiet(s, s1) && ActsOnce(cfg, s1, s', outcome)
    ensures ActsOnce(cfg, s, s', outcome)
  {
  }

  /** A helm call counts for its own verb only. */
  lemma CallsHelm(w: World, s: Sys, c: HelmCommand)
    ensures var s' := CallHelm(w, s, c).0;
            Extends(s, s') && s'.files == s.files &&
            Calls(s'.trace, Upgrading) == Calls(s.trace, Upgrading) + (if c.Upgrade? then 1 else 0) &&
            Calls(s'.trace, RollingBack) == Calls(s.trace, RollingBack) + (if c.Rollback? then 1 else 0)
  {
    CallsSnoc(s.trace, HelmCall(c), Upgrading);
    CallsSnoc(s.trace, HelmCall(c), RollingBack);
  }

  lemma WrittenQuiet(s: Sys, path: string, data: FileData)
    ensures Quiet(s, Written(s, path, data))
  {
    CallsSnoc(s.trace, WriteFile(path, data), Upgrading);
    CallsSnoc(s.trace, WriteFile(path, data), RollingBack);
  }

  lemma ChartExtractedQuiet(w: World, s: Sys, cfg: Config)
    ensures Quiet(s, ChartExtracted(w, s, cfg).0)
  {
    var chart := ChartName(cfg.repo);
    var extracted := Extracted(w, s, ArchivePath(DeploymentDir, chart, cfg.version), DeploymentDir);
    ExtractedQuiet(w, s, ArchivePath(DeploymentDir, chart, cfg.version), DeploymentDir);
    if extracted.1 {
      CopiedQuiet(extracted.0, ValuesPath(DeploymentDir, chart), cfg.defaultPath);
    }
  }

  lemma ExtractedQuiet(w: World, s: Sys, archive: string, dest: string)
    ensures Quiet(s, Extracted(w, s, archive, dest).0)
  {
    CallsSnoc(s.trace, ExtractArchive(archive, dest), Upgrading);
    CallsSnoc(s.trace, ExtractArchive(archive, dest), RollingBack);
  }

  lemma CopiedQuiet(s: Sys, from: string, to: string)
    ensures Quiet(s, Copied(s, from, to))
  {
    CallsSnoc(s.trace, CopyFile(from, to), Upgrading);
    CallsSnoc(s.trace, CopyFile(from, to), RollingBack);
  }

  lemma ActOnce(w: World, cfg: Config, s: Sys)
    ensures var r := ActSpec(w, cfg, s); ActsOnce(cfg, s, r.0, r.1)
  {
    CallsHelm(w, s, Upgrade(cfg.repo, cfg.version, cfg.mergedPath, cfg.namespace));
    CallsHelm(w, s, Template(cfg.repo, cfg.version, cfg.mergedPath, cfg.namespace));
  }

  lemma SaveAndActOnce(w: World, cfg: Config, s: Sys, inputs: (Doc, Doc, Doc))
    ensures var r := SaveAndAct(w, cfg, s, inputs); ActsOnce(cfg, s, r.0, r.1)
  {
    var saved := SaveMergedAsWritten(inputs.0, inputs.1, inputs.2);
    if saved.Ok? {
      var s1 := Written(s, cfg.mergedPath, Dumped(saved.value));
      WrittenQuiet(s, cfg.mergedPath, Dumped(saved.value));
      ActOnce(w, cfg, s1);
      QuietThen(cfg, s, s1, ActSpec(w, cfg, s1).0, ActSpec(w, cfg, s1).1);
    }
  }

  lemma MergeAndActOnce(w: World, cfg: Config, s: Sys)
    ensures var r := MergeAndAct(w, cfg, s); ActsOnce(cfg, s, r.0, r.1)
  {
    var inputs := MergerInputs(w, s.files, cfg);
    if inputs.Ok? {
      SaveAndActOnce(w, cfg, s, inputs.value);
    }
  }

  lemma FetchChartOnce(w: World, cfg: Config, s: Sys, values: string)
    ensures var r := FetchChart(w, cfg, s, values); ActsOnce(cfg, s, r.0, r.1)
  {
    var pulled := CallHelm(w, s, Pull(cfg.repo, cfg.version, DeploymentDir));
    CallsHelm(w, s, Pull(cfg.repo, cfg.version, DeploymentDir));
    if pulled.1.Succeeded? {
      var extracted := ChartExtracted(w, pulled.0, cfg);
      ChartExtractedQuiet(w, pulled.0, cfg);
      if extracted.1 {
        var s1 := Written(extracted.0, cfg.currentPath, Verbatim(values));
        WrittenQuiet(extracted.0, cfg.currentPath, Verbatim(values));
        MergeAndActOnce(w, cfg, s1);
        QuietThen(cfg, extracted.0, s1, MergeAndAct(w, cfg, s1).0, MergeAndAct(w, cfg, s1).1);
      }
      QuietThen(cfg, pulled.0, extracted.0, FetchChart(w, cfg, s, values).0, FetchChart(w, cfg, s, values).1);
    }
  }

  /** The install branch rolls nothing back and performs the requested
      action once at most, as its last act. */
  lemma ReconcileOnce(w: World, cfg: Config, s: Sys)
    ensures var r := ReconcileSpec(w, cfg, s); ActsOnce(cfg, s, r.0, r.1)
  {
    var values := CallHelm(w, s, GetValues(cfg.release, cfg.namespace));
    CallsHelm(w, s, GetValues(cfg.release, cfg.namespace));
    if values.1.Succeeded? {
      FetchChartOnce(w, cfg, values.0, values.1.stdout);
    }
  }

  /** The files the merger reads on an installed-release pass: the files
      the chart archive added, the chart's `values.yaml` copied to the
      defaults file when the archive held one, and the live values just
      written. */
  function FetchedFiles(cfg: Config, files: map<string, FileData>, added: map<string, FileData>, values: string): map<string, FileData> {
    var chartValues := ValuesPath(DeploymentDir, ChartName(cfg.repo));
    var unpacked := files + added;
    var copied := if chartValues in unpacked then unpacked[cfg.defaultPath := unpacked[chartValues]] else unpacked;
    copied[cfg.currentPath := Verbatim(values)]
  }

  /** The actions of an installed-release pass up to the write of the saved
      document `saved`: get the values, then the rest. */
  function FetchTrace(cfg: Config, files: map<string, FileData>, added: map<string, FileData>, values: string, saved: Doc): seq<Event> {
    [HelmCall(GetValues(cfg.release, cfg.namespace))] + PullTrace(cfg, files, added, values, saved)
  }

  /** Pull the chart, unpack it, copy its defaults when present, write the
      live values, write the merge. */
  function PullTrace(cfg: Config, files: map<string, FileData>, added: map<string, FileData>, values: string, saved: Doc): seq<Event> {
    var chart := ChartName(cfg.repo);
    var chartValues := ValuesPath(DeploymentDir, chart);
    var copy := if chartValues in files + added then [CopyFile(chartValues, cfg.defaultPath)] else [];
    [HelmCall(Pull(cfg.repo, cfg.version, DeploymentDir)),
     ExtractArchive(ArchivePath(DeploymentDir, chart, cfg.version), DeploymentDir)] +
    copy +
    [WriteFile(cfg.currentPath, Verbatim(values)), WriteFile(cfg.mergedPath, Dumped(saved))]
  }

  /** The helm call the requested action makes: one upgrade, one template,
      or none for any other action. */
  function ActionCalls(cfg: Config): seq<Event> {
    if cfg.action == "update" then [HelmCall(Upgrade(cfg.repo, cfg.version, cfg.mergedPath, cfg.namespace))]
    else if cfg.action == "template" then [HelmCall(Template(cfg.repo, cfg.version, cfg.mergedPath, cfg.namespace))]
    else []
  }

  /** The install branch, ending normally, has taken exactly these steps in
      this order: the values, the pull, the unpacking (and the copy of the
      chart's defaults), the write of the live values, the write of the
      merge the merger computed from those files, then the action's single
      helm call. */
  lemma ReconcileSteps(w: World, cfg: Config, s: Sys)
    requires ReconcileSpec(w, cfg, s).1 == Done
    ensures var values := w.helm(s.trace, Args(GetValues(cfg.release, cfg.namespace)));
            var added := w.extract(ArchivePath(DeploymentDir, ChartName(cfg.repo), cfg.version));
            values.Succeeded? && added.Some? &&
            var inputs := MergerInputs(w, FetchedFiles(cfg, s.files, added.value, values.stdout), cfg);
            inputs.Ok? &&
            var saved := SaveMergedAsWritten(inputs.value.0, inputs.value.1, inputs.value.2);
            saved.Ok? &&
            ReconcileSpec(w, cfg, s).0.trace ==
              s.trace + FetchTrace(cfg, s.files, added.value, values.stdout, saved.value) + ActionCalls(cfg)
  {
    var get := GetValues(cfg.release, cfg.namespace);
    var values := w.helm(s.trace, Args(get));
    var s1 := Sys(s.trace + [HelmCall(get)], s.files);
    assert ReconcileSpec(w, cfg, s) == FetchChart(w, cfg, s1, values.stdout);
    FetchChartSteps(w, cfg, s1, values.stdout);
    var added := w.extract(ArchivePath(DeploymentDir, ChartName(cfg.repo), cfg.version)).value;
    var inputs := MergerInputs(w, FetchedFiles(cfg, s.files, added, values.stdout), cfg).value;
    var saved := SaveMergedAsWritten(inputs.0, inputs.1, inputs.2).value;
    FirstStep(s.trace, HelmCall(get), PullTrace(cfg, s.files, added, values.stdout, saved), ActionCalls(cfg));
  }

  /** Taking the first event first. */
  lemma FirstStep(before: seq<Event>, first: Event, rest: seq<Event>, after: seq<Event>)
    ensures before + [first] + rest + after == before + ([first] + rest) + after
  {
  }

  /** The same from the pull on, once the values are in. */
  lemma FetchChartSteps(w: World, cfg: Config, s: Sys, values: string)
    requires FetchChart(w, cfg, s, values).1 == Done
    ensures var added := w.extract(ArchivePath(DeploymentDir, ChartName(cfg.repo), cfg.version));
            added.Some? &&
            var inputs := MergerInputs(w, FetchedFiles(cfg, s.files, added.value, values), cfg);
            inputs.Ok? &&
            var saved := SaveMergedAsWritten(inputs.value.0, inputs.value.1, inputs.value.2);
            saved.Ok? &&
            FetchChart(w, cfg, s, values).0.trace ==
              s.trace + PullTrace(cfg, s.files, added.value, values, saved.value) + ActionCalls(cfg)
  {
    var pull := Pull(cfg.repo, cfg.version, DeploymentDir);
    var chart := ChartName(cfg.repo);
    var archive := ArchivePath(DeploymentDir, chart, cfg.version);
    var chartValues := ValuesPath(DeploymentDir, chart);
    var s2 := Sys(s.trace + [HelmCall(pull)], s.files);
    assert CallHelm(w, s, pull).0 == s2;
    UnpackSteps(w, s2, cfg);
    var added := w.extract(archive).value;
    var copy := if chartValues in s.files + added then [CopyFile(chartValues, cfg.defaultPath)] else [];
    var s4 := ChartExtracted(w, s2, cfg).0;
    var s5 := Written(s4, cfg.currentPath, Verbatim(values));
    assert FetchChart(w, cfg, s, values) == MergeAndAct(w, cfg, s5);
    MergeAndActSteps(w, cfg, s5);
    var inputs := MergerInputs(w, s5.files, cfg).value;
    var saved := SaveMergedAsWritten(inputs.0, inputs.1, inputs.2).value;
    FetchTail(s.trace, cfg, s.files, added, values, saved);
  }

  /** Unpacking the chart: the extraction, then the copy of its defaults
      when the archive held them. */
  lemma UnpackSteps(w: World, s: Sys, cfg: Config)
    requires ChartExtracted(w, s, cfg).1
    ensures var chart := ChartName(cfg.repo);
            var chartValues := ValuesPath(DeploymentDir, chart);
            var added := w.extract(ArchivePath(DeploymentDir, chart, cfg.version));
            added.Some? &&
            var unpacked := s.files + added.value;
            ChartExtracted(w, s, cfg).0 ==
              if chartValues in unpacked
              then Sys(s.trace + [ExtractArchive(ArchivePath(DeploymentDir, chart, cfg.version), DeploymentDir),
                                  CopyFile(chartValues, cfg.defaultPath)],
                       unpacked[cfg.defaultPath := unpacked[chartValues]])
              else Sys(s.trace + [ExtractArchive(ArchivePath(DeploymentDir, chart, cfg.version), DeploymentDir)], unpacked)
  {
    var chart := ChartName(cfg.repo);
    var archive := ArchivePath(DeploymentDir, chart, cfg.version);
    var extract := ExtractArchive(archive, DeploymentDir);
    var e := Extracted(w, s, archive, DeploymentDir);
    assert e.0 == Sys(s.trace + [extract], s.files + w.extract(archive).value);
    assert ChartExtracted(w, s, cfg).0 == Copied(e.0, ValuesPath(DeploymentDir, chart), cfg.defaultPath);
    assert s.trace + [extract] + [CopyFile(ValuesPath(DeploymentDir, chart), cfg.defaultPath)] ==
           s.trace + [extract, CopyFile(ValuesPath(DeploymentDir, chart), cfg.defaultPath)];
  }

  /** The trace from the pull to the merged write, as `PullTrace` lists it. */
  lemma FetchTail(before: seq<Event>, cfg: Config, files: map<string, FileData>, added: map<string, FileData>,
                  values: string, saved: Doc)
    ensures var chart := ChartName(cfg.repo);
            var chartValues := ValuesPath(DeploymentDir, chart);
            var extract := ExtractArchive(ArchivePath(DeploymentDir, chart, cfg.version), DeploymentDir);
            var unpacked := before + [HelmCall(Pull(cfg.repo, cfg.version, DeploymentDir))] +
                            (if chartValues in files + added then [extract, CopyFile(chartValues, cfg.defaultPath)] else [extract]);
            unpacked + [WriteFile(cfg.currentPath, Verbatim(values))] + [WriteFile(cfg.mergedPath, Dumped(saved))] ==
              before + PullTrace(cfg, files, added, values, saved)
  {
  }

  /** And from the merge on. */
  lemma MergeAndActSteps(w: World, cfg: Config, s: Sys)
    requires MergeAndAct(w, cfg, s).1 == Done
    ensures MergerInputs(w, s.files, cfg).Ok?
    ensures var inputs := MergerInputs(w, s.files, cfg).value;
            var saved := SaveMergedAsWritten(inputs.0, inputs.1, inputs.2);
            saved.Ok? &&
            MergeAndAct(w, cfg, s).0.trace == s.trace + [WriteFile(cfg.mergedPath, Dumped(saved.value))] + ActionCalls(cfg)
  {
    var loaded := MergerInputs(w, s.files, cfg);
    assert loaded.Ok?;
    var inputs := loaded.value;
    assert MergeAndAct(w, cfg, s) == SaveAndAct(w, cfg, s, inputs);
    var saved := SaveMergedAsWritten(inputs.0, inputs.1, inputs.2);
    assert saved.Ok?;
    var s6 := Written(s, cfg.mergedPath, Dumped(saved.value));
    assert SaveAndAct(w, cfg, s, inputs) == ActSpec(w, cfg, s6);
    ActSteps(w, cfg, s6);
  }

  /** A normal end of the action adds exactly its helm call. */
  lemma ActSteps(w: World, cfg: Config, s: Sys)
    requires ActSpec(w, cfg, s).1 == Done
    ensures ActSpec(w, cfg, s).0.trace == s.trace + ActionCalls(cfg)
  {
  }

  /** The recovery branch upgrades nothing and rolls back once at most,
      exactly once when it asks for a rerun. */
  lemma RecoverRollsBackOnce(w: World, cfg: Config, s: Sys)
    ensures var r := RecoverSpec(w, cfg, s);
            Extends(s, r.0) &&
            Calls(r.0.trace, Upgrading) == Calls(s.trace, Upgrading) &&
            Calls(s.trace, RollingBack) <= Calls(r.0.trace, RollingBack) <= Calls(s.trace, RollingBack) + 1 &&
            (r.1.Rerun? ==> Calls(r.0.trace, RollingBack) == Calls(s.trace, RollingBack) + 1) &&
            (r.1.Stop? ==> r.1.outcome != Done)
  {
    var st := CallHelm(w, s, ReleaseStatus(cfg.release, cfg.namespace));
    CallsHelm(w, s, ReleaseStatus(cfg.release, cfg.namespace));
    if st.1.Succeeded? && RollbackRevision(st.1.stdout).Ok? {
      CallsHelm(w, st.0, Rollback(cfg.release, RollbackRevision(st.1.stdout).value, cfg.namespace));
    }
  }

  /** A listed release takes the install branch.  (An unfolding of `Pass`.) */
  lemma PassFound(w: World, cfg: Config, s: Sys, s1: Sys)
    requires Exists(w, cfg, s) == (s1, Some(true))
    ensures Pass(w, cfg, s) == (ReconcileSpec(w, cfg, s1).0, Stop(ReconcileSpec(w, cfg, s1).1))
  {
  }

  /** An unlisted release takes the recovery branch.  (An unfolding of
      `Pass`.) */
  lemma PassNotFound(w: World, cfg: Config, s: Sys, s1: Sys)
    requires Exists(w, cfg, s) == (s1, Some(false))
    ensures Pass(w, cfg, s) == RecoverSpec(w, cfg, s1)
  {
  }

  /** From `s`, a pass ending in `pass` keeps what was there, upgrades no
      more than the action asks, and rolls back at most once; a normal end
      is the action performed once; a pass that starts over has rolled back
      once and not upgraded. */
  predicate PassBounded(cfg: Config, s: Sys, pass: (Sys, Next)) {
    Extends(s, pass.0) &&
    Calls(pass.0.trace, Upgrading) <= Calls(s.trace, Upgrading) + Upgrades(cfg) &&
    Calls(pass.0.trace, RollingBack) <= Calls(s.trace, RollingBack) + 1 &&
    (pass.1 == Stop(Done) ==> ActsOnce(cfg, s, pass.0, Done)) &&
    (pass.1.Rerun? ==>
       Calls(pass.0.trace, Upgrading) == Calls(s.trace, Upgrading) &&
       Calls(pass.0.trace, RollingBack) == Calls(s.trace, RollingBack) + 1)
  }

  /** From `s`, a run of at most `passes` passes ending in `r` keeps what
      was there, upgrades no more than the action asks and rolls back at
      most once per pass; a normal end has performed the action's upgrades,
      the upgrade of `update` being its last act. */
  predicate RunBounded(cfg: Config, s: Sys, r: (Sys, Outcome), passes: nat) {
    Extends(s, r.0) &&
    Calls(r.0.trace, Upgrading) <= Calls(s.trace, Upgrading) + Upgrades(cfg) &&
    Calls(r.0.trace, RollingBack) <= Calls(s.trace, RollingBack) + passes &&
    (r.1 == Done ==>
       Calls(r.0.trace, Upgrading) == Calls(s.trace, Upgrading) + Upgrades(cfg) &&
       (cfg.action == "update" ==>
          r.0.trace[|r.0.trace| - 1] == HelmCall(Upgrade(cfg.repo, cfg.version, cfg.mergedPath, cfg.namespace))))
  }

  lemma PassOnce(w: World, cfg: Config, s: Sys)
    ensures PassBounded(cfg, s, Pass(w, cfg, s))
  {
    var found := Exists(w, cfg, s);
    CallsHelm(w, s, ListReleases(cfg.release, cfg.namespace));
    if found.1.Some? {
      if found.1.value {
        PassFound(w, cfg, s, found.0);
        ReconcileOnce(w, cfg, found.0);
        QuietThen(cfg, s, found.0, ReconcileSpec(w, cfg, found.0).0, ReconcileSpec(w, cfg, found.0).1);
      } else {
        PassNotFound(w, cfg, s, found.0);
        RecoverRollsBackOnce(w, cfg, found.0);
      }
    }
  }

  /** `update` upgrades exactly once on a run that finishes normally, as
      its last act, whatever rollbacks came first; `template` and any other
      action never upgrade; and a run rolls back at most once per pass. */
  lemma RunUpgradesOnce(w: World, cfg: Config, s: Sys, fuel: nat)
    ensures RunBounded(cfg, s, RunSpec(w, cfg, s, fuel), fuel)
  {
    forall x: Sys ensures PassBounded(cfg, x, PassOf(w, cfg)(x)) {
      PassOnce(w, cfg, x);
    }
    IterateBounded(cfg, PassOf(w, cfg), s, fuel);
  }

  /** Passes that each keep the bounds of one pass keep those of a run. */
  lemma {:induction false} IterateBounded(cfg: Config, step: Sys -> (Sys, Next), s: Sys, fuel: nat)
    requires forall x: Sys :: PassBounded(cfg, x, step(x))
    ensures RunBounded(cfg, s, Iterate(step, s, fuel), fuel)
    decreases fuel, 0
  {
    if fuel > 0 {
      ContinueBounded(cfg, step, s, step(s), fuel - 1);
    }
  }

  /** The same from the end of a first pass. */
  lemma {:induction false} ContinueBounded(cfg: Config, step: Sys -> (Sys, Next), s: Sys, pass: (Sys, Next), fuel: nat)
    requires forall x: Sys :: PassBounded(cfg, x, step(x))
    requires PassBounded(cfg, s, pass)
    ensures RunBounded(cfg, s, Continue(step, pass, fuel), fuel + 1)
    decreases fuel, 1
  {
    if pass.1.Rerun? {
      IterateBounded(cfg, step, pass.0, fuel);
    }
  }

  /** A merge that reaches a normal end has written the save as written,
      and nothing else, to the merged values file. */
  lemma MergeWritesSave(w: World, cfg: Config, s: Sys)
    requires MergeAndAct(w, cfg, s).1 == Done
    ensures MergerInputs(w, s.files, cfg).Ok?
    ensures var inputs := MergerInputs(w, s.files, cfg).value;
            var saved := SaveMergedAsWritten(inputs.0, inputs.1, inputs.2);
            saved.Ok? && MergeAndAct(w, cfg, s).0.files == s.files[cfg.mergedPath := Dumped(saved.value)]
  {
    var loaded := MergerInputs(w, s.files, cfg);
    assert loaded.Ok?;
    var inputs := loaded.value;
    assert MergeAndAct(w, cfg, s) == SaveAndAct(w, cfg, s, inputs);
    var saved := SaveMergedAsWritten(inputs.0, inputs.1, inputs.2);
    assert saved.Ok?;
    var s1 := Written(s, cfg.mergedPath, Dumped(saved.value));
    assert SaveAndAct(w, cfg, s, inputs) == ActSpec(w, cfg, s1);
    ActKeepsFiles(w, cfg, s1);
  }

  /** The action only calls helm: the files stay as they are. */
  lemma ActKeepsFiles(w: World, cfg: Config, s: Sys)
    ensures ActSpec(w, cfg, s).0.files == s.files
  {
  }

  /** When the live values already hold mappings under `global` and
      `image` (and the chart's pinned values are not mappings themselves), a
      normal end of `update` hands helm a values file whose two pinned
      version fields equal the chart defaults', with the provenance marker
      gone and the merge's other keys in order when the live values form a
      dict. */
  lemma UpgradeUsesPinnedValues(w: World, cfg: Config, s: Sys)
    requires cfg.action == "update"
    requires MergerInputs(w, s.files, cfg).Ok? && MergeAndAct(w, cfg, s).1 == Done
    requires var inputs := MergerInputs(w, s.files, cfg).value;
             IsMapping(Get(inputs.0, Global)) && IsMapping(Get(inputs.0, Image)) &&
             (Lookup(Mapping(inputs.1), [Global, ByocZipVersion]).Some? ==>
                !Lookup(Mapping(inputs.1), [Global, ByocZipVersion]).value.Mapping?) &&
             (Lookup(Mapping(inputs.1), [Image, Tag]).Some? ==>
                !Lookup(Mapping(inputs.1), [Image, Tag]).value.Mapping?)
    ensures var inputs := MergerInputs(w, s.files, cfg).value;
            var files := MergeAndAct(w, cfg, s).0.files;
            cfg.mergedPath in files && files[cfg.mergedPath].Dumped? &&
            var d := files[cfg.mergedPath].doc;
            Lookup(Mapping(d), [Global, ByocZipVersion]) == Lookup(Mapping(inputs.1), [Global, ByocZipVersion]) &&
            Lookup(Mapping(d), [Image, Tag]) == Lookup(Mapping(inputs.1), [Image, Tag]) &&
            (DistinctKeys(inputs.0) ==>
               UserSupplied !in Keys(d) && Keys(d) == Without(Keys(Merged(inputs.0, inputs.1, inputs.2)), UserSupplied))
  {
    var inputs := MergerInputs(w, s.files, cfg).value;
    MergeWritesSave(w, cfg, s);
    AsWrittenAgrees(inputs.0, inputs.1, inputs.2);
    PinAndStripSpec(Merged(inputs.0, inputs.1, inputs.2), inputs.1);
    if DistinctKeys(inputs.0) {
      SaveMergedSpec(inputs.0, inputs.1, inputs.2);
    }
  }

  /** When the live values lack `global` and the override file sets
      `global.byocZipVersion`, a normal end hands helm the override's value
      in that field, not the chart default's. */
  lemma UpgradePinsOverride(w: World, cfg: Config, s: Sys)
    requires MergerInputs(w, s.files, cfg).Ok? && MergeAndAct(w, cfg, s).1 == Done
    requires var inputs := MergerInputs(w, s.files, cfg).value;
             DistinctKeys(inputs.1) && WellFormed(Mapping(inputs.2)) &&
             Get(inputs.0, Global) == None && IsMapping(Get(inputs.1, Global)) &&
             IsMapping(Get(inputs.2, Global)) &&
             Lookup(Mapping(inputs.2), [Global, ByocZipVersion]).Some? &&
             !Lookup(Mapping(inputs.2), [Global, ByocZipVersion]).value.Mapping?
    ensures var inputs := MergerInputs(w, s.files, cfg).value;
            var files := MergeAndAct(w, cfg, s).0.files;
            cfg.mergedPath in files && files[cfg.mergedPath].Dumped? &&
            Lookup(Mapping(files[cfg.mergedPath].doc), [Global, ByocZipVersion]) ==
              Lookup(Mapping(inputs.2), [Global, ByocZipVersion])
  {
    var inputs := MergerInputs(w, s.files, cfg).value;
    MergeWritesSave(w, cfg, s);
    AsWrittenPinsOverride(inputs.0, inputs.1, inputs.2);
  }

  // ---------------------------------------------------------------------
  // The manager object

  /** A `HelmManager` whose fields `__init__` has set, acting on `host`. */
  class HelmManager {
    const host: Host
    const config: Config

    constructor(host: Host, config: Config)
      ensures this.host == host && this.config == config
    {
      this.host := host;
      this.config := config;
    }

    /** `_check_if_exists`. */
    method CheckExists() returns (exists_: Option<bool>)
      modifies host
      ensures (host.State(), exists_) == Exists(host.world, config, old(host.State()))
    {
      var listed := host.Helm(ListReleases(config.release, config.namespace));
      if listed.Failed? {
        return None;
      }
      exists_ := Some(CheckIfExists(config.release, listed.stdout));
    }

    /** `_update_with_merged_values` or `_template_with_merged_values`. */
    method Act() returns (outcome: Outcome)
      modifies host
      ensures (host.State(), outcome) == ActSpec(host.world, config, old(host.State()))
    {
      outcome := Done;
      if config.action == "update" {
        var r := host.Helm(Upgrade(config.repo, config.version, config.mergedPath, config.namespace));
        if r.Failed? {
          outcome := Exit(1);
        }
      } else if config.action == "template" {
        var r := host.Helm(Template(config.repo, config.version, config.mergedPath, config.namespace));
        if r.Failed? {
          outcome := Exit(1);
        }
      }
    }

    /** The `try` block of `run` for an installed release. */
    method Reconcile() returns (outcome: Outcome)
      modifies host
      ensures (host.State(), outcome) == ReconcileSpec(host.world, config, old(host.State()))
    {
      var values := host.Helm(GetValues(config.release, config.namespace));
      if values.Failed? {
        return Exit(1);
      }
      var pulled := host.Helm(Pull(config.repo, config.version, DeploymentDir));
      if pulled.Failed? {
        return Exit(1);
      }
      var extracted := host.ExtractChart(config);
      if !extracted {
        return Exit(1);
      }
      host.WriteValues(config.currentPath, Verbatim(values.stdout));
      outcome := MergeAndApply();
    }

    /** `YamlMerger` on the scratch files, `save_merged_yaml`, then the
        action. */
    method MergeAndApply() returns (outcome: Outcome)
      modifies host
      ensures (host.State(), outcome) == MergeAndAct(host.world, config, old(host.State()))
    {
      var inputs := MergerInputs(host.world, host.files, config);
      if inputs.Err? {
        return Exit(1);
      }
      var (current, defaults, overrides) := inputs.value;
      var merger := new YamlMerger(current, defaults, Some(overrides));
      var saved := merger.SaveMergedYaml();
      if saved.Err? {
        return Exit(1);
      }
      host.WriteValues(config.mergedPath, Dumped(saved.value));
      outcome := Act();
    }

    /** `status.get('STATUS')`, then `str(int(status.get('REVISION')) - 1)`
        on the parsed status report. */
    method Revision(statusText: string) returns (r: Result<string, Outcome>)
      ensures r == RollbackRevision(statusText)
    {
      var status := ParseOutput(statusText);
      if !(StatusKey in status && status[StatusKey] == PendingUpgrade) {
        return Err(Exit(1));
      }
      if RevisionKey !in status {
        return Err(Raised(TypeError));
      }
      var revision := ParseInt(status[RevisionKey]);
      if revision.None? {
        return Err(Raised(InvalidLiteral(status[RevisionKey])));
      }
      var previous := revision.value - 1;
      r := Ok(IntToDecimal(previous));
    }

    /** The `else` branch of `run`: the status query and the rollback. */
    method Recover() returns (next: Next)
      modifies host
      ensures (host.State(), next) == RecoverSpec(host.world, config, old(host.State()))
    {
      var st := host.Helm(ReleaseStatus(config.release, config.namespace));
      if st.Failed? {
        return Stop(Exit(1));
      }
      var revision := Revision(st.stdout);
      if revision.Err? {
        return Stop(revision.error);
      }
      var rolled := host.Helm(Rollback(config.release, revision.value, config.namespace));
      next := if rolled.Failed? then Stop(Exit(1)) else Rerun;
    }

    /** One pass of `run`: the existence check, then either branch. */
    method RunPass() returns (next: Next)
      modifies host
      ensures (host.State(), next) == Pass(host.world, config, old(host.State()))
    {
      ghost var start := host.State();
      var exists_ := CheckExists();
      if exists_.None? {
        return Stop(Exit(1));
      }
      ghost var listed := host.State();
      if exists_.value {
        PassFound(host.world, config, start, listed);
        var outcome := Reconcile();
        return Stop(outcome);
      }
      PassNotFound(host.world, config, start, listed);
      next := Recover();
    }

    /** `run`: at most `fuel` passes, each starting from the existence check. */
    method Run(fuel: nat) returns (outcome: Outcome)
      modifies host
      ensures (host.State(), outcome) == RunSpec(host.world, config, old(host.State()), fuel)
      decreases fuel, 0
    {
      if fuel == 0 {
        return OutOfFuel;
      }
      var next := RunPass();
      outcome := Resume(next, fuel - 1);
    }

    /** The end of a pass: stop with its outcome, or, after a rollback, the
        `self.run()` that starts over with `fuel` passes left. */
    method Resume(next: Next, fuel: nat) returns (outcome: Outcome)
      modifies host
      ensures (host.State(), outcome) == Continue(PassOf(host.world, config), (old(host.State()), next), fuel)
      decreases fuel, 1
    {
      match next
      case Stop(o) => outcome := o;
      case Rerun => outcome := Run(fuel);
    }
  }

  /** `HelmManager.__init__` on `host`: the manager's fields, or how the
      program stopped. */
  method Init(host: Host, args: CliArgs) returns (r: Result<Config, Outcome>)
    modifies host
    ensures (host.State(), r) == InitSpec(host.world, old(host.State()), args)
  {
    var release := if Truthy(args.release) then args.release.value else DefaultRelease;
    var namespace := if Truthy(args.namespace) then args.namespace.value else NamespaceOf(host.world.env);
    if Truthy(args.override) && args.override.value !in host.files {
      return Err(Exit(1));
    }
    var overridePath := if Truthy(args.override) then Some(args.override.value) else None;
    var repo, version;
    if Truthy(args.repo) {
      host.Print(args.repo.value);
      var split := ExtractVersionAndFormat(args.repo.value);
      if split.Err? {
        return Err(Raised(split.error));
      }
      repo, version := split.value.0, split.value.1;
    } else {
      var listed := host.Helm(ListReleases(release, namespace));
      if listed.Failed? {
        return Err(Exit(1));
      }
      var remote := RemoteVersion(listed.stdout);
      if remote.Err? {
        return Err(Raised(remote.error));
      }
      repo, version := DefaultRepo, remote.value;
    }
    host.CreateFolder(DeploymentDir);
    r := Ok(WithScratchPaths(release, namespace, overridePath, repo, version, args.action));
  }
}

/** What `HelmManager` acts on: the `helm` binary, the file system under the
    deployment directory and the process environment.  Both manager
    variants share it, together with `FileManager`'s helpers and the fields
    `HelmManager.__init__` sets. */
module Environment {
  import opened Common
  import opened Document
  import opened Text
  import opened HelmCommands

  /** What a file holds: text written verbatim (`write_values` of a string)
      or a document dumped as YAML (`write_values` of a dict). */
  datatype FileData = Verbatim(text: string) | Dumped(doc: Doc)

  /** What `yaml.safe_load` makes of a text; a document that is not a dict
      is a scalar or a list, falsy (`0`, `false`, `""`, `[]`) or not. */
  datatype Loaded = Malformed | Null | MappingDoc(doc: Doc) | NotMapping(truthy: bool)

  /** A finished `helm` process: its standard output, or a non-zero exit
      (`CalledProcessError`). */
  datatype Response = Succeeded(stdout: string) | Failed(stderr: string)

  /** One observable action, in the order taken; a helm call is recorded by
      its command, run as `helm` with the arguments `Args(command)`. */
  datatype Event =
    | HelmCall(command: HelmCommand)
    | MakeDir(path: string)
    | ExtractArchive(archive: string, destination: string)
    | CopyFile(from: string, to: string)
    | WriteFile(path: string, data: FileData)
    | DeleteDir(path: string)
    | PrintText(text: string)

  /** The collaborators the program cannot see: `helm`, answering each
      argument list given everything done so far; what extracting an archive
      adds to the file system (`None`: `tarfile` raises); `yaml.safe_load`;
      and `HELM_NAMESPACE`. */
  datatype World = World(
    helm: (seq<Event>, seq<string>) -> Response,
    extract: string -> Option<map<string, FileData>>,
    parse: string -> Loaded,
    env: Option<string>)

  /** The observable state: the actions so far and the files on disk. */
  datatype Sys = Sys(trace: seq<Event>, files: map<string, FileData>)

  /** The command line, as `argparse` leaves it. */
  datatype CliArgs = CliArgs(
    release: Option<string>,
    namespace: Option<string>,
    override: Option<string>,
    repo: Option<string>,
    action: string)

  /** The fields `HelmManager.__init__` sets; an empty namespace is unset. */
  datatype Config = Config(
    release: string,
    namespace: string,
    overridePath: Option<string>,
    repo: string,
    version: string,
    action: string,
    currentPath: string,
    defaultPath: string,
    mergedPath: string)

  /** How a run ends: normally, through `sys.exit`, with an exception
      escaping, normally after an exception was logged and swallowed, or
      with the modelled recursion depth used up. */
  datatype Outcome = Done | Exit(code: int) | Raised(error: PyError) | Logged(error: PyError) | OutOfFuel

  /** Python truthiness of an optional string. */
  predicate Truthy(o: Option<string>) {
    o.Some? && o.value != ""
  }

  /** A namespace as the manager keeps it: unset and empty are alike. */
  function NamespaceOf(o: Option<string>): (ns: string)
    ensures ns != "" <==> Truthy(o)
  {
    if Truthy(o) then o.value else ""
  }

  /** The three scratch files of a release in the deployment directory. */
  function WithScratchPaths(release: string, namespace: string, overridePath: Option<string>,
                            repo: string, version: string, action: string): Config
  {
    Config(release, namespace, overridePath, repo, version, action,
           ScratchPath(DeploymentDir, release, "current.yaml"),
           ScratchPath(DeploymentDir, release, "default.yaml"),
           ScratchPath(DeploymentDir, release, "merged.yaml"))
  }

  // ---------------------------------------------------------------------
  // The actions, as functions of the state

  /** `_run_helm_with_args`. */
  function CallHelm(w: World, s: Sys, c: HelmCommand): (Sys, Response) {
    (Sys(s.trace + [HelmCall(c)], s.files), w.helm(s.trace, Args(c)))
  }

  /** `DeploymentManager.setup`. */
  function Created(s: Sys, dir: string): Sys {
    Sys(s.trace + [MakeDir(dir)], s.files)
  }

  /** `FileManager.extract_tgz`: `false` when `tarfile` raises. */
  function Extracted(w: World, s: Sys, archive: string, dest: string): (Sys, bool) {
    var trace := s.trace + [ExtractArchive(archive, dest)];
    match w.extract(archive)
    case None => (Sys(trace, s.files), false)
    case Some(added) => (Sys(trace, s.files + added), true)
  }

  /** `FileManager.copy_and_rename`: a missing source is only logged. */
  function Copied(s: Sys, from: string, to: string): Sys {
    if from in s.files then Sys(s.trace + [CopyFile(from, to)], s.files[to := s.files[from]])
    else s
  }

  /** `FileManager.write_values`. */
  function Written(s: Sys, path: string, data: FileData): Sys {
    Sys(s.trace + [WriteFile(path, data)], s.files[path := data])
  }

  /** `p` lies inside directory `dir`. */
  predicate Under(dir: string, p: string) {
    dir + "/" <= p
  }

  /** `FileManager.delete_folder`: every file inside `dir` is gone. */
  function Deleted(s: Sys, dir: string): Sys {
    Sys(s.trace + [DeleteDir(dir)], map p | p in s.files && !Under(dir, p) :: s.files[p])
  }

  /** `_extract_chart` / `extract_chart`: unpack the pulled archive, then copy
      the chart's `values.yaml` to the defaults file; `false` when the
      extraction raised, which both variants turn into `sys.exit(1)`. */
  function ChartExtracted(w: World, s: Sys, cfg: Config): (Sys, bool) {
    var chart := ChartName(cfg.repo);
    var (s1, ok) := Extracted(w, s, ArchivePath(DeploymentDir, chart, cfg.version), DeploymentDir);
    if !ok then (s1, false)
    else (Copied(s1, ValuesPath(DeploymentDir, chart), cfg.defaultPath), true)
  }

  /** `YamlMerger._load_yaml` of a file. */
  function LoadYaml(w: World, files: map<string, FileData>, path: string): Result<Loaded, PyError> {
    if path !in files then Err(FileNotFound(path))
    else match files[path]
      case Dumped(d) => Ok(MappingDoc(d))
      case Verbatim(t) => if w.parse(t).Malformed? then Err(YamlError(path)) else Ok(w.parse(t))
  }

  /** Python truthiness of a loaded document: a dict is falsy when empty. */
  predicate Falsy(l: Loaded) {
    l.Null? || (l.MappingDoc? && l.doc == []) || (l.NotMapping? && !l.truthy)
  }

  /** The three documents `YamlMerger.__init__` loads, or the first exception
      on the way to merging them: the live values and the defaults must be
      mappings; an override file is read only when one was given, and a
      falsy override document is skipped by `merge()` like empty override
      data, while a truthy one that is not a dict fails on `.items()`. */
  function MergerInputs(w: World, files: map<string, FileData>, cfg: Config): (r: Result<(Doc, Doc, Doc), PyError>)
    ensures r.Ok? ==> LoadYaml(w, files, cfg.currentPath) == Ok(MappingDoc(r.value.0))
    ensures r.Ok? ==> LoadYaml(w, files, cfg.defaultPath) == Ok(MappingDoc(r.value.1))
    ensures r.Ok? && cfg.overridePath.None? ==> r.value.2 == []
    ensures r.Ok? && cfg.overridePath.Some? ==>
              var o := LoadYaml(w, files, cfg.overridePath.value);
              o.Ok? && (o.value == MappingDoc(r.value.2) || (Falsy(o.value) && r.value.2 == []))
    ensures cfg.currentPath !in files ==> r == Err(FileNotFound(cfg.currentPath))
    ensures LoadYaml(w, files, cfg.currentPath).Ok? && LoadYaml(w, files, cfg.currentPath).value.MappingDoc? &&
            LoadYaml(w, files, cfg.defaultPath).Ok? && LoadYaml(w, files, cfg.defaultPath).value.MappingDoc? &&
            cfg.overridePath.Some? && LoadYaml(w, files, cfg.overridePath.value).Ok? ==>
              (r.Ok? <==> !LoadYaml(w, files, cfg.overridePath.value).value.NotMapping? ||
                          !LoadYaml(w, files, cfg.overridePath.value).value.truthy)
  {
    var source :- LoadYaml(w, files, cfg.currentPath);
    var newFields :- LoadYaml(w, files, cfg.defaultPath);
    var overrides :- if cfg.overridePath.Some? then LoadYaml(w, files, cfg.overridePath.value) else Ok(Null);
    if !source.MappingDoc? || !newFields.MappingDoc? then Err(TypeError)
    else if overrides.NotMapping? && overrides.truthy then Err(AttributeError("items"))
    else Ok((source.doc, newFields.doc, if overrides.MappingDoc? then overrides.doc else []))
  }

  // ---------------------------------------------------------------------
  // Facts about traces

  /** The helm commands whose number a run bounds. */
  datatype Verb = Upgrading | RollingBack

  /** `e` runs `helm upgrade` or `helm rollback`. */
  predicate IsCall(e: Event, verb: Verb) {
    e.HelmCall? && (if verb == Upgrading then e.command.Upgrade? else e.command.Rollback?)
  }

  /** The number of helm invocations of `verb` in a trace. */
  function Calls(trace: seq<Event>, verb: Verb): nat {
    if trace == [] then 0
    else Calls(trace[..|trace| - 1], verb) + (if IsCall(trace[|trace| - 1], verb) then 1 else 0)
  }

  /** Counting over a concatenation. */
  lemma {:induction false} CallsAppend(a: seq<Event>, b: seq<Event>, verb: Verb)
    ensures Calls(a + b, verb) == Calls(a, verb) + Calls(b, verb)
    decreases |b|
  {
    if b == [] {
      assert a + b == a;
    } else {
      assert (a + b)[..|a + b| - 1] == a + b[..|b| - 1];
      CallsAppend(a, b[..|b| - 1], verb);
    }
  }

  /** One more action adds one to the count exactly when it is a call of
      that verb. */
  lemma CallsSnoc(a: seq<Event>, e: Event, verb: Verb)
    ensures Calls(a + [e], verb) == Calls(a, verb) + (if IsCall(e, verb) then 1 else 0)
  {
    assert (a + [e])[..|a + [e]| - 1] == a;
  }

  // ---------------------------------------------------------------------
  // The same actions, performed

  /** The host the manager runs on: what it has done so far and the files
      on its disk, with collaborators fixed for the whole run. */
  class Host {
    const world: World
    var trace: seq<Event>
    var files: map<string, FileData>

    function State(): Sys
      reads this
    {
      Sys(trace, files)
    }

    constructor(w: World, disk: map<string, FileData>)
      ensures world == w && trace == [] && files == disk
    {
      world := w;
      trace := [];
      files := disk;
    }

    method Helm(c: HelmCommand) returns (r: Response)
      modifies this
      ensures (State(), r) == CallHelm(world, old(State()), c)
    {
      r := world.helm(trace, Args(c));
      trace := trace + [HelmCall(c)];
    }

    method CreateFolder(dir: string)
      modifies this
      ensures State() == Created(old(State()), dir)
    {
      trace := trace + [MakeDir(dir)];
    }

    method ExtractTgz(archive: string, dest: string) returns (ok: bool)
      modifies this
      ensures (State(), ok) == Extracted(world, old(State()), archive, dest)
    {
      trace := trace + [ExtractArchive(archive, dest)];
      var added := world.extract(archive);
      ok := added.Some?;
      if ok {
        files := files + added.value;
      }
    }

    method CopyAndRename(from: string, to: string)
      modifies this
      ensures State() == Copied(old(State()), from, to)
    {
      if from in files {
        files := files[to := files[from]];
        trace := trace + [CopyFile(from, to)];
      }
    }

    method WriteValues(path: string, data: FileData)
      modifies this
      ensures State() == Written(old(State()), path, data)
    {
      files := files[path := data];
      trace := trace + [WriteFile(path, data)];
    }

    method DeleteFolder(dir: string)
      modifies this
      ensures State() == Deleted(old(State()), dir)
    {
      files := map p | p in files && !Under(dir, p) :: files[p];
      trace := trace + [DeleteDir(dir)];
    }

    method Print(text: string)
      modifies this
      ensures State() == Sys(old(trace) + [PrintText(text)], old(files))
    {
      trace := trace + [PrintText(text)];
    }

    method ExtractChart(cfg: Config) returns (ok: bool)
      modifies this
      ensures (State(), ok) == ChartExtracted(world, old(State()), cfg)
    {
      var chart := ChartName(cfg.repo);
      ok := ExtractTgz(ArchivePath(DeploymentDir, chart, cfg.version), DeploymentDir);
      if ok {
        CopyAndRename(ValuesPath(DeploymentDir, chart), cfg.defaultPath);
      }
    }
  }
}

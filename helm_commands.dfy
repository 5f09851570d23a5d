/** The pure parts of `HelmManager` in `src/helm_manager.py`: parsing the
    `repo:version` argument and the output of `helm list` and `helm status`,
    and building the argument vectors and file paths handed to helm and to
    the file helpers. */
module HelmCommands {
  import opened Common
  import opened Text

  const DefaultRelease := "quixplatform-manager"
  const DefaultRepo := "quixcontainerregistry.azurecr.io/helm/quixplatform-manager"
  /** `DeploymentManager`'s temporary directory. */
  const DeploymentDir := "./tmp"

  // ---------------------------------------------------------------------
  // repo:version

  /** `_extract_version_and_format`: pieces 0 and 1 of `repo.split(":")`;
      without a colon the `IndexError` becomes a `ValueError`. */
  function ExtractVersionAndFormat(repo: string): (r: Result<(string, string), PyError>)
    ensures r.Ok? <==> ':' in repo
    ensures r.Err? ==> r.error == ValueError("Invalid version format: " + repo)
    ensures r.Ok? ==> ':' !in r.value.0 && ':' !in r.value.1
    ensures r.Ok? ==> var (name, version) := r.value;
                      name + ":" + version <= repo &&
                      (|name + ":" + version| < |repo| ==> repo[|name + ":" + version|] == ':')
  {
    var parts := Split(repo, ':');
    SplitHasSecond(repo, ':');
    if |parts| < 2 then Err(ValueError("Invalid version format: " + repo))
    else
      assert repo == parts[0] + ":" + Join(parts[1..], ":");
      assert |parts| > 2 ==> Join(parts[1..], ":") == parts[1] + ":" + Join(parts[2..], ":");
      Ok((parts[0], parts[1]))
  }

  /** Any repository and version without colons come back out, whatever
      follows a second colon; so text after a second colon is dropped and
      empty parts are accepted. */
  lemma ExtractVersionRoundTrip(name: string, version: string, rest: string)
    requires ':' !in name && ':' !in version
    requires rest == [] || rest[0] == ':'
    ensures ExtractVersionAndFormat(name + ":" + version + rest) == Ok((name, version))
  {
    var repo := name + ":" + version + rest;
    assert repo == name + [':'] + (version + rest);
    SplitAfterPiece(name, version + rest, ':');
    if rest == [] {
      assert version + rest == version;
      SplitNoSeparator(version, ':');
    } else {
      assert version + rest == version + [':'] + rest[1..];
      SplitAfterPiece(version, rest[1..], ':');
    }
  }

  // ---------------------------------------------------------------------
  // helm list

  /** `_check_remote_chart`'s header strip: the lines after the first,
      joined with `\n`; nothing for a listing of one line or none. */
  function StripHeader(listing: string): string {
    var lines := SplitLines(listing);
    if |lines| > 1 then Join(lines[1..], "\n") else ""
  }

  /** The header line is dropped and the rows are kept. */
  lemma StripHeaderDropsFirstLine(header: string, rows: seq<string>)
    requires NoLineBreak(header)
    requires |rows| >= 1 && rows[|rows| - 1] != []
    requires forall i :: 0 <= i < |rows| ==> NoLineBreak(rows[i])
    ensures StripHeader(header + "\n" + Join(rows, "\n")) == Join(rows, "\n")
  {
    var lines := [header] + rows;
    HeaderAndRows(header, rows, lines);
    SplitLinesJoin(lines);
    StripHeaderOfLines(Join(lines, "\n"), lines);
    assert lines[1..] == rows;
  }

  lemma HeaderAndRows(header: string, rows: seq<string>, lines: seq<string>)
    requires NoLineBreak(header) && |rows| >= 1 && rows[|rows| - 1] != []
    requires forall i :: 0 <= i < |rows| ==> NoLineBreak(rows[i])
    requires lines == [header] + rows
    ensures |lines| >= 2 && lines[|lines| - 1] != [] && forall i :: 0 <= i < |lines| ==> NoLineBreak(lines[i])
    ensures Join(lines, "\n") == header + "\n" + Join(rows, "\n")
  {
    assert lines[1..] == rows;
    forall i | 0 <= i < |lines| ensures NoLineBreak(lines[i]) {
      if i > 0 { assert lines[i] == rows[i - 1]; }
    }
  }

  lemma StripHeaderOfLines(listing: string, lines: seq<string>)
    requires SplitLines(listing) == lines && |lines| >= 2
    ensures StripHeader(listing) == Join(lines[1..], "\n")
  {
  }

  /** A listing of a single line (or none) strips to nothing. */
  lemma StripHeaderSingleLine(header: string)
    requires NoLineBreak(header)
    ensures StripHeader(header) == ""
  {
    if header != [] {
      SplitLinesJoin([header]);
    }
  }

  /** `_extract_version_from_stdout`: token 9 of the whitespace-split listing,
      after its last hyphen. */
  function ExtractVersionFromStdout(output: string): (r: Result<string, PyError>)
    ensures r.Ok? <==> |Fields(output)| >= 9
    ensures r.Err? ==> r.error == ValueError("Expected at least 9 fields, got " + NatToDecimal(|Fields(output)|))
    ensures r.Ok? ==> var token := Fields(output)[8];
                      '-' !in r.value && |r.value| <= |token| && r.value == token[|token| - |r.value|..] &&
                      (|r.value| < |token| ==> token[|token| - |r.value| - 1] == '-')
  {
    var parts := Fields(output);
    if |parts| < 9 then Err(ValueError("Expected at least 9 fields, got " + NatToDecimal(|parts|)))
    else Ok(AfterLast(parts[8], '-'))
  }

  /** On a row of tokens, the version is what follows the last hyphen of
      the ninth token. */
  lemma ExtractVersionFromRow(tokens: seq<string>, chart: string, version: string)
    requires |tokens| >= 9 && forall i :: 0 <= i < |tokens| ==> IsToken(tokens[i])
    requires tokens[8] == chart + "-" + version && '-' !in version
    ensures ExtractVersionFromStdout(Join(tokens, " ")) == Ok(version)
  {
    FieldsJoin(tokens);
    AfterLastOf(chart, version, '-');
  }

  /** A ninth token without a hyphen is the version as a whole. */
  lemma ExtractVersionWholeToken(tokens: seq<string>)
    requires |tokens| >= 9 && forall i :: 0 <= i < |tokens| ==> IsToken(tokens[i])
    requires '-' !in tokens[8]
    ensures ExtractVersionFromStdout(Join(tokens, " ")) == Ok(tokens[8])
  {
    FieldsJoin(tokens);
    AfterLastNone(tokens[8], '-');
  }

  /** `_get_remote_version`: the version of the release's listed chart. */
  function RemoteVersion(listing: string): Result<string, PyError> {
    ExtractVersionFromStdout(StripHeader(listing))
  }

  /** `_check_if_exists`: the release name occurs somewhere in the listing
      once its header line is gone. */
  function CheckIfExists(release: string, listing: string): (r: bool)
    ensures r <==> exists i :: 0 <= i <= |StripHeader(listing)| && release <= StripHeader(listing)[i..]
  {
    Occurs(release, StripHeader(listing))
  }

  // ---------------------------------------------------------------------
  // helm status

  /** The text before the first `:` of a line. */
  function LineKey(line: string): string {
    Split(line, ':')[0]
  }

  /** The text after the first `:` of a line. */
  function LineValue(line: string): string {
    Join(Split(line, ':')[1..], ":")
  }

  /** `line.split(':', 1)` puts the key before the first colon and everything
      after it, later colons included, in the value. */
  lemma LineKeyValue(key: string, value: string)
    requires ':' !in key
    ensures LineKey(key + ":" + value) == key && LineValue(key + ":" + value) == value
  {
    assert key + ":" + value == key + [':'] + value;
    SplitAfterPiece(key, value, ':');
    assert Split(key + ":" + value, ':')[1..] == Split(value, ':');
  }

  /** `line` is parsed into an entry for `k`. */
  predicate HasKey(line: string, k: string) {
    ':' in line && Strip(LineKey(line)) == k
  }

  /** The lines `parse_output` visits. */
  function StatusLines(output: string): seq<string> {
    Split(Strip(output), '\n')
  }

  /** One iteration of the `parse_output` loop. */
  function AddLine(acc: map<string, string>, line: string): map<string, string> {
    if ':' in line then acc[Strip(LineKey(line)) := Strip(LineValue(line))] else acc
  }

  /** The dictionary `parse_output` has built after `lines`, starting from `acc`. */
  function Collect(acc: map<string, string>, lines: seq<string>): map<string, string>
    decreases |lines|
  {
    if lines == [] then acc else Collect(AddLine(acc, lines[0]), lines[1..])
  }

  function ParseStatus(output: string): map<string, string> {
    Collect(map[], StatusLines(output))
  }

  /** `parse_output`: fills the dictionary line by line. */
  method ParseOutput(output: string) returns (result: map<string, string>)
    ensures result == ParseStatus(output)
  {
    var lines := Split(Strip(output), '\n');
    result := map[];
    for i := 0 to |lines|
      invariant Collect(result, lines[i..]) == ParseStatus(output)
    {
      CollectStep(result, lines, i);
      ghost var before := result;
      var line := lines[i];
      if ':' in line {
        var parts := Split(line, ':');
        assert parts[0] == LineKey(line) && Join(parts[1..], ":") == LineValue(line);
        result := result[Strip(parts[0]) := Strip(Join(parts[1..], ":"))];
      }
      assert result == AddLine(before, line);
    }
    assert lines[|lines|..] == [];
  }

  /** The loop visits one line at a time. */
  lemma CollectStep(acc: map<string, string>, lines: seq<string>, i: nat)
    requires i < |lines|
    ensures Collect(acc, lines[i..]) == Collect(AddLine(acc, lines[i]), lines[i + 1..])
  {
    assert lines[i..][0] == lines[i] && lines[i..][1..] == lines[i + 1..];
  }

  /** A key is in the dictionary exactly when it was there before or some
      line carries it. */
  lemma {:induction false} CollectKeys(acc: map<string, string>, lines: seq<string>, k: string)
    ensures k in Collect(acc, lines) <==> k in acc || exists j :: 0 <= j < |lines| && HasKey(lines[j], k)
    decreases |lines|
  {
    if lines != [] {
      CollectKeys(AddLine(acc, lines[0]), lines[1..], k);
      if exists j :: 0 <= j < |lines| && HasKey(lines[j], k) {
        var j :| 0 <= j < |lines| && HasKey(lines[j], k);
        if j > 0 {
          assert HasKey(lines[1..][j - 1], k);
        }
      }
      if exists j :: 0 <= j < |lines| - 1 && HasKey(lines[1..][j], k) {
        var j :| 0 <= j < |lines| - 1 && HasKey(lines[1..][j], k);
        assert lines[1..][j] == lines[j + 1];
      }
    }
  }

  /** A key no line carries keeps its earlier value. */
  lemma {:induction false} CollectKeeps(acc: map<string, string>, lines: seq<string>, k: string)
    requires k in acc && forall j :: 0 <= j < |lines| ==> !HasKey(lines[j], k)
    ensures k in Collect(acc, lines) && Collect(acc, lines)[k] == acc[k]
    decreases |lines|
  {
    if lines != [] {
      assert !HasKey(lines[0], k);
      assert forall j :: 0 <= j < |lines| - 1 ==> lines[1..][j] == lines[j + 1];
      CollectKeeps(AddLine(acc, lines[0]), lines[1..], k);
    }
  }

  /** The last line that carries a key gives its value. */
  lemma {:induction false} CollectLast(acc: map<string, string>, lines: seq<string>, k: string, j: nat)
    requires j < |lines| && HasKey(lines[j], k)
    requires forall j' :: j < j' < |lines| ==> !HasKey(lines[j'], k)
    ensures k in Collect(acc, lines) && Collect(acc, lines)[k] == Strip(LineValue(lines[j]))
    decreases |lines|
  {
    var next := AddLine(acc, lines[0]);
    assert forall i :: 0 <= i < |lines| - 1 ==> lines[1..][i] == lines[i + 1];
    if j == 0 {
      CollectKeeps(next, lines[1..], k);
    } else {
      CollectLast(next, lines[1..], k, j - 1);
    }
  }

  /** `parse_output` maps every key some line carries, and only those, to
      the stripped value of the last line that carries it. */
  lemma ParseStatusSpec(output: string, k: string)
    ensures var lines := StatusLines(output);
            (k in ParseStatus(output) <==> exists j :: 0 <= j < |lines| && HasKey(lines[j], k)) &&
            (forall j :: 0 <= j < |lines| && HasKey(lines[j], k) &&
                         (forall j' :: j < j' < |lines| ==> !HasKey(lines[j'], k)) ==>
               ParseStatus(output)[k] == Strip(LineValue(lines[j])))
  {
    var lines := StatusLines(output);
    CollectKeys(map[], lines, k);
    forall j | 0 <= j < |lines| && HasKey(lines[j], k) && (forall j' :: j < j' < |lines| ==> !HasKey(lines[j'], k))
      ensures ParseStatus(output)[k] == Strip(LineValue(lines[j]))
    {
      CollectLast(map[], lines, k, j);
    }
  }

  // ---------------------------------------------------------------------
  // Argument vectors

  /** What `HelmManager` asks helm to do; an empty namespace means none. */
  datatype HelmCommand =
    | ListReleases(filter: string, namespace: string)
    | GetValues(release: string, namespace: string)
    | ReleaseStatus(release: string, namespace: string)
    | Rollback(release: string, revision: string, namespace: string)
    | Pull(repo: string, version: string, destination: string)
    | Upgrade(repo: string, version: string, valuesFile: string, namespace: string)
    | Template(repo: string, version: string, valuesFile: string, namespace: string)

  const OciScheme := "oci://"

  /** `--namespace ns`, appended only when a namespace is set. */
  function NamespaceArgs(namespace: string): seq<string> {
    if namespace != "" then ["--namespace", namespace] else []
  }

  /** The argument lists of `_check_remote_chart`, `_get_values`,
      `_get_release_status`, `_rollback`, `_pull_repo`,
      `_update_with_merged_values` and `_template_with_merged_values`; the
      last two always name the release `quixplatform-manager`. */
  function Args(c: HelmCommand): seq<string> {
    match c
    case ListReleases(filter, ns) => ["list", "--filter", filter] + NamespaceArgs(ns)
    case GetValues(release, ns) => ["get", "values", release] + NamespaceArgs(ns)
    case ReleaseStatus(release, ns) => ["status", release] + NamespaceArgs(ns)
    case Rollback(release, revision, ns) => ["rollback", release, revision] + NamespaceArgs(ns)
    case Pull(repo, version, dir) => ["pull", OciScheme + repo, "--version", version, "--destination", dir]
    case Upgrade(repo, version, values, ns) =>
      ["upgrade", "--install", DefaultRelease, OciScheme + repo, "--version", version, "--values", values] + NamespaceArgs(ns)
    case Template(repo, version, values, ns) =>
      ["template", DefaultRelease, OciScheme + repo, "--version", version, "--values", values] + NamespaceArgs(ns)
  }

  /** The namespace of a decoded argument list: the last two arguments
      when they set one, after `fixed` positional arguments. */
  function DecodeNamespace(argv: seq<string>, fixed: nat): Option<string> {
    if |argv| == fixed then Some("")
    else if |argv| == fixed + 2 && argv[fixed] == "--namespace" && argv[fixed + 1] != "" then Some(argv[fixed + 1])
    else None
  }

  function DecodeOci(arg: string): Option<string> {
    if OciScheme <= arg then Some(arg[|OciScheme|..]) else None
  }

  /** Reads a command back from its argument list. */
  function Decode(argv: seq<string>): Option<HelmCommand> {
    if |argv| < 2 then None
    else if argv[0] == "list" && |argv| >= 3 && argv[1] == "--filter" then
      (match DecodeNamespace(argv, 3)
       case Some(ns) => Some(ListReleases(argv[2], ns))
       case None => None)
    else if argv[0] == "get" && |argv| >= 3 && argv[1] == "values" then
      (match DecodeNamespace(argv, 3)
       case Some(ns) => Some(GetValues(argv[2], ns))
       case None => None)
    else if argv[0] == "status" then
      (match DecodeNamespace(argv, 2)
       case Some(ns) => Some(ReleaseStatus(argv[1], ns))
       case None => None)
    else if argv[0] == "rollback" && |argv| >= 3 then
      (match DecodeNamespace(argv, 3)
       case Some(ns) => Some(Rollback(argv[1], argv[2], ns))
       case None => None)
    else if argv[0] == "pull" && |argv| == 6 && argv[2] == "--version" && argv[4] == "--destination" then
      (match DecodeOci(argv[1])
       case Some(repo) => Some(Pull(repo, argv[3], argv[5]))
       case None => None)
    else if argv[0] == "upgrade" && |argv| >= 8 && argv[1] == "--install" && argv[2] == DefaultRelease &&
            argv[4] == "--version" && argv[6] == "--values" then
      (match (DecodeOci(argv[3]), DecodeNamespace(argv, 8))
       case (Some(repo), Some(ns)) => Some(Upgrade(repo, argv[5], argv[7], ns))
       case _ => None)
    else if argv[0] == "template" && |argv| >= 7 && argv[1] == DefaultRelease &&
            argv[3] == "--version" && argv[5] == "--values" then
      (match (DecodeOci(argv[2]), DecodeNamespace(argv, 7))
       case (Some(repo), Some(ns)) => Some(Template(repo, argv[4], argv[6], ns))
       case _ => None)
    else None
  }

  lemma NamespaceRoundTrip(prefix: seq<string>, ns: string)
    ensures DecodeNamespace(prefix + NamespaceArgs(ns), |prefix|) == Some(ns)
    ensures |prefix + NamespaceArgs(ns)| >= |prefix| && (prefix + NamespaceArgs(ns))[..|prefix|] == prefix
  {
    var argv := prefix + NamespaceArgs(ns);
    if ns != "" {
      assert argv[|prefix|] == "--namespace" && argv[|prefix| + 1] == ns;
    }
  }

  lemma OciRoundTrip(repo: string)
    ensures DecodeOci(OciScheme + repo) == Some(repo)
  {
    assert (OciScheme + repo)[|OciScheme|..] == repo;
  }

  /** Every command's argument list says exactly which command it is: the
      namespace flag is present precisely when a namespace is set, and each
      field sits at its own position. */
  lemma DecodeArgs(c: HelmCommand)
    ensures Decode(Args(c)) == Some(c)
  {
    match c
    case ListReleases(filter, ns) => NamespaceRoundTrip(["list", "--filter", filter], ns);
    case GetValues(release, ns) => NamespaceRoundTrip(["get", "values", release], ns);
    case ReleaseStatus(release, ns) => NamespaceRoundTrip(["status", release], ns);
    case Rollback(release, revision, ns) => NamespaceRoundTrip(["rollback", release, revision], ns);
    case Pull(repo, version, dir) => OciRoundTrip(repo);
    case Upgrade(repo, version, values, ns) =>
      OciRoundTrip(repo);
      NamespaceRoundTrip(["upgrade", "--install", DefaultRelease, OciScheme + repo, "--version", version, "--values", values], ns);
    case Template(repo, version, values, ns) =>
      OciRoundTrip(repo);
      NamespaceRoundTrip(["template", DefaultRelease, OciScheme + repo, "--version", version, "--values", values], ns);
  }

  lemma NamespaceDecoded(argv: seq<string>, fixed: nat)
    requires |argv| >= fixed && DecodeNamespace(argv, fixed).Some?
    ensures argv == argv[..fixed] + NamespaceArgs(DecodeNamespace(argv, fixed).value)
  {
  }

  /** Conversely, an argument list that decodes is the one built for that
      command. */
  lemma ArgsDecode(argv: seq<string>)
    requires Decode(argv).Some?
    ensures Args(Decode(argv).value) == argv
  {
    var c := Decode(argv).value;
    match c
    case ListReleases(_, _) =>
      NamespaceDecoded(argv, 3);
      assert argv[..3] == ["list", "--filter", argv[2]];
    case GetValues(_, _) =>
      NamespaceDecoded(argv, 3);
      assert argv[..3] == ["get", "values", argv[2]];
    case ReleaseStatus(_, _) =>
      NamespaceDecoded(argv, 2);
      assert argv[..2] == ["status", argv[1]];
    case Rollback(_, _, _) =>
      NamespaceDecoded(argv, 3);
      assert argv[..3] == ["rollback", argv[1], argv[2]];
    case Pull(repo, _, _) =>
      assert OciScheme + repo == argv[1];
    case Upgrade(repo, _, _, _) =>
      assert OciScheme + repo == argv[3];
      NamespaceDecoded(argv, 8);
      assert argv[..8] == ["upgrade", "--install", DefaultRelease, argv[3], "--version", argv[5], "--values", argv[7]];
    case Template(repo, _, _, _) =>
      assert OciScheme + repo == argv[2];
      NamespaceDecoded(argv, 7);
      assert argv[..7] == ["template", DefaultRelease, argv[2], "--version", argv[4], "--values", argv[6]];
  }

  // ---------------------------------------------------------------------
  // Paths

  /** `repo.split("/")[-1]`. */
  function ChartName(repo: string): (chart: string)
    ensures '/' !in chart
    ensures |chart| <= |repo| && chart == repo[|repo| - |chart|..]
    ensures |chart| < |repo| ==> repo[|repo| - |chart| - 1] == '/'
  {
    var parts := Split(repo, '/');
    SplitLastIsAfterLast(repo, '/');
    parts[|parts| - 1]
  }

  /** `<dir>/<chart>-<version>.tgz`. */
  function ArchivePath(dir: string, chart: string, version: string): string {
    PathJoin(dir, chart + "-" + version + ".tgz")
  }

  /** `<dir>/<chart>/values.yaml`. */
  function ValuesPath(dir: string, chart: string): string {
    PathJoin(PathJoin(dir, chart), "values.yaml")
  }

  /** The scratch files `<dir>/<release>current.yaml` and the like: the
      suffix is glued to the release name with no separator. */
  function ScratchPath(dir: string, release: string, suffix: string): string {
    PathJoin(dir, release + suffix)
  }

  /** Joining a relative name onto a directory without a trailing `/`. */
  lemma JoinRelative(dir: string, name: string)
    requires dir != [] && dir[|dir| - 1] != '/'
    requires name == [] || name[0] != '/'
    ensures PathJoin(dir, name) == dir + "/" + name
  {
  }

  /** In the deployment directory the archive is `./tmp/<chart>-<version>.tgz`. */
  lemma ArchivePathInDeploymentDir(repo: string, version: string)
    ensures ArchivePath(DeploymentDir, ChartName(repo), version) ==
            "./tmp/" + ChartName(repo) + "-" + version + ".tgz"
  {
    var chart := ChartName(repo);
    var name := chart + "-" + version + ".tgz";
    assert name[0] != '/' by {
      if chart == [] { assert name[0] == '-'; } else { assert name[0] == chart[0]; }
    }
    JoinRelative(DeploymentDir, name);
  }

  /** The values file of a chart name without `/` in the deployment directory. */
  lemma ValuesPathOfChart(chart: string)
    requires '/' !in chart
    ensures ValuesPath(DeploymentDir, chart) ==
            if chart == "" then "./tmp/values.yaml" else "./tmp/" + chart + "/values.yaml"
  {
    var inner := "./tmp/" + chart;
    JoinRelative(DeploymentDir, chart);
    if chart == "" {
      assert PathJoin(DeploymentDir, chart) == "./tmp/";
    } else {
      assert inner[|inner| - 1] == chart[|chart| - 1];
      JoinRelative(inner, "values.yaml");
      assert inner + "/" + "values.yaml" == "./tmp/" + chart + "/values.yaml";
    }
  }

  /** In the deployment directory the chart's values file is
      `./tmp/<chart>/values.yaml`; a repository ending in `/` has an empty
      chart name and yields `./tmp/values.yaml`. */
  lemma ValuesPathInDeploymentDir(repo: string)
    ensures ValuesPath(DeploymentDir, ChartName(repo)) ==
            if ChartName(repo) == "" then "./tmp/values.yaml" else "./tmp/" + ChartName(repo) + "/values.yaml"
  {
    ValuesPathOfChart(ChartName(repo));
  }

  /** A scratch path is the release name with its suffix inside the
      deployment directory, unless the release name is absolute. */
  lemma ScratchPaths(release: string, suffix: string)
    ensures ScratchPath(DeploymentDir, release, suffix) ==
            if release != [] && release[0] == '/' then release + suffix
            else if release == [] && suffix != [] && suffix[0] == '/' then suffix
            else "./tmp/" + release + suffix
  {
    if release != [] {
      assert (release + suffix)[0] == release[0];
    }
  }
}

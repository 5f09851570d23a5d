# helm-quix-install, modelled in Dafny

`helm-quix-install` upgrades an installed Quix platform Helm release while
keeping its live configuration. The model covers three parts of it.

- **The values merge (`YamlMerger`).** It reads the release's live values,
  the chart's default `values.yaml` and an optional override file. A
  backfill pass adds every default key the live values lack and never
  overwrites one. An override pass lets the user's file win on every
  non-mapping conflict. The newer version then pins `global.byocZipVersion`
  and `image.tag` to the chart defaults. Both versions delete the
  `USER-SUPPLIED VALUES` marker key.
- **The `HelmManager`.** It parses `helm`'s output (the release listing
  with its header line, the `helm status` report) and builds `helm`
  argument vectors and scratch paths. Its `run` reconciles the release:
  - If the release is listed, `run` fetches its values, pulls and unpacks
    the chart, merges, then upgrades or templates.
  - If it is not listed, the newer `run` rolls a release stuck in
    `pending-upgrade` back one revision and starts over.

  Both the newer `src/helm_manager.py` and the older `src/helmmanager.py`
  are modelled. The older one has no rollback branch. It matches the
  release name against the raw listing and swallows merge errors. It also
  deletes the scratch directory at the end.
- **The field comparison in `tools/compare.py`.** Two documents are
  flattened to the dotted paths of their leaves, and the two path sets are
  compared.

Files:

| file | contents |
|---|---|
| `common.dfy` | `Option`, `Result`, and `PyError`, the Python exceptions that can escape |
| `text.dfy` | `str.split`, `split()`, `strip`, `splitlines`, `"\n".join`, the `in` substring test, `int()` and `str()` of integers, `os.path.join` |
| `document.dfy` | YAML documents as ordered entry lists, with `d.get(k)`, `d[k] = v` and `del d[k]` |
| `helm_commands.dfy` | the output parsers, the argument vectors and their decoder, and the chart and scratch paths |
| `values_merge.dfy` | the backfill and override passes, with their specifications and in-place methods; the pinning; the `YamlMerger` class |
| `environment.dfy` | the `helm` collaborator, the file system, the trace of actions, and a `Host` class that performs them |
| `helm_run.dfy` | `__init__` and `run` of the newer manager, as specification functions and as the `HelmManager` class |
| `legacy_manager.dfy` | the same for the older manager |
| `compare.dfy` | `get_all_keys` and `compare_yaml_fields` |

**The `helm` process.** `helm` is modelled as a function from the actions
taken so far and the argument vector to a response: standard output or a
failure. It is a parameter of the model. Every helm call, directory
creation, archive extraction, copy, write, deletion and print is appended
to a trace, so properties can count upgrades and rollbacks.

**Recursion.** The newer `run` calls itself after a rollback
(`src/helm_manager.py:291`). This recursion is unbounded in the source.
The model therefore takes a fuel argument and ends in `OutOfFuel` when it
runs out. No termination or retry bound is claimed.

**Where the specification and the code disagree, the model follows the code.**
- `repo.split(":")` keeps the first two parts, so anything after a second
  colon is lost.
- `del merged_data['USER-SUPPLIED VALUES']` raises `KeyError` when the
  marker is absent. It is not a no-op.
- A release stuck in `pending-upgrade` is rolled back and re-run with no
  limit. The code has no "second time is fatal" guard.

## Model

| member | source | states |
|---|---|---|
| Document.Put | src/helm_manager.py:498 | `d[k] = v`: `k` now maps to `v` and every other key keeps its value; an existing key keeps its position, a new key is appended last |
| Document.Remove | src/helm_manager.py:532 | `del d[k]`: every other key keeps its value, and one entry fewer exactly when `k` was present; in a dict the remaining keys keep their order |
| Document.PutDistinct | src/helm_manager.py:498 | assignment keeps the keys of a dict distinct |
| Document.RemoveDistinct | src/helm_manager.py:532 | deletion keeps the keys distinct and leaves no entry for the deleted key |
| Text.Occurs | src/helm_manager.py:160 | the `in` test on strings: true exactly when the needle is a slice of the haystack at some offset |
| Text.ParseIntDecimal | src/helm_manager.py:288 | `int()` reads back every integer `str()` writes, negative ones included |
| HelmCommands.ExtractVersionAndFormat | src/helm_manager.py:61-74 | succeeds exactly when the argument holds a colon; otherwise `ValueError("Invalid version format: …")`; the two parts are colon-free and `name:version` is a prefix of the argument that ends at a colon or at its end |
| HelmCommands.ExtractVersionRoundTrip | src/helm_manager.py:69-74 | any colon-free name and version come back out, whatever follows a second colon; empty parts are accepted |
| HelmCommands.StripHeaderDropsFirstLine | src/helm_manager.py:124-131 | a listing of a header line and rows becomes exactly the rows joined by newlines |
| HelmCommands.StripHeaderOfLines | src/helm_manager.py:125-127 | a listing of two lines or more becomes its lines after the first, joined by newlines |
| HelmCommands.StripHeaderSingleLine | src/helm_manager.py:128-129 | a listing with no line break, the header alone, becomes the empty string |
| HelmCommands.ExtractVersionFromStdout | src/helm_manager.py:88-105 | succeeds exactly when there are at least 9 whitespace tokens, otherwise raises the `ValueError` naming the count; the version is the text after the last hyphen of the 9th token |
| HelmCommands.ExtractVersionFromRow | src/helm_manager.py:96-100 | a row whose 9th token is `chart-version` gives `version` |
| HelmCommands.ExtractVersionWholeToken | src/helm_manager.py:100 | a 9th token without a hyphen is the version in full |
| HelmCommands.CheckIfExists | src/helm_manager.py:152-160 | true exactly when the release name occurs in the listing with its header line removed |
| HelmCommands.ParseOutput | src/helm_manager.py:163-176 | the loop's dictionary equals the specification `ParseStatus` of the stripped output |
| HelmCommands.ParseStatusSpec | src/helm_manager.py:168-176 | a key is present exactly when some line holds a colon and has that key before its first colon; its value is the stripped rest of the last such line |
| HelmCommands.LineKeyValue | src/helm_manager.py:173 | `line.split(':', 1)` of `key:value`, with a colon-free key, gives back key and value |
| HelmCommands.DecodeArgs | src/helm_manager.py:83-86 | every argument vector the manager builds decodes back to its command, so no two commands share a vector |
| HelmCommands.ArgsDecode | src/helm_manager.py:239-251 | every vector that decodes is exactly the one built for its command, `--namespace` included or omitted |
| HelmCommands.NamespaceRoundTrip | src/helm_manager.py:84-85 | `--namespace ns` is appended exactly when a namespace is set, and reads back |
| HelmCommands.OciRoundTrip | src/helm_manager.py:212 | the `oci://` reference reads back to the repository |
| HelmCommands.ChartName | src/helm_manager.py:224 | the chart name is the suffix of the repository after its last `/`, or all of it when there is no `/` |
| HelmCommands.ArchivePathInDeploymentDir | src/helm_manager.py:225 | the archive is `./tmp/<chart>-<version>.tgz` |
| HelmCommands.ValuesPathInDeploymentDir | src/helm_manager.py:226 | the chart's values file is `./tmp/<chart>/values.yaml` |
| HelmCommands.ScratchPaths | src/helm_manager.py:38-41 | the scratch files are `./tmp/<release><suffix>`, with no separator between release and suffix, for a relative release name |
| ValuesMerge.MergeNewFields | src/helm_manager.py:488-502 | the in-place loop computes the backfill specification `Backfill` |
| ValuesMerge.BackfillGet | src/helm_manager.py:496-502 | a key only in the source keeps its value; a key only in the defaults gets the default's value; a key in both keeps the source's value unless both are mappings, which are merged recursively |
| ValuesMerge.BackfillKeys | src/helm_manager.py:496-498 | the result's keys are the source's keys in order, then the new default keys in the defaults' order |
| ValuesMerge.BackfillDistinct | src/helm_manager.py:496-502 | the backfill of a dict is a dict |
| ValuesMerge.BackfillKeepsPaths | src/helm_manager.py:499-501 | every key path the live values reach is still reached, and a leaf there keeps its value |
| ValuesMerge.BackfillFillsGaps | src/helm_manager.py:497-498 | a key path that stops existing on the live side takes the defaults' value there |
| ValuesMerge.ApplyOverrides | src/helm_manager.py:504-519 | the in-place loop computes the override specification `Override` |
| ValuesMerge.OverrideGet | src/helm_manager.py:512-519 | a key not in the overrides is unchanged; an override key wins unless the override and the data are both mappings, which are merged recursively |
| ValuesMerge.OverrideKeys | src/helm_manager.py:518 | the result's keys are the data's keys, then the new override keys in order |
| ValuesMerge.OverrideDistinct | src/helm_manager.py:512-519 | the override pass keeps a dict a dict |
| ValuesMerge.OverrideLeafWins | src/helm_manager.py:513-518 | every non-mapping leaf of the override file is in the result at its path |
| ValuesMerge.OverrideKeepsUnreached | src/helm_manager.py:512 | a path the override file does not reach keeps the data's value |
| ValuesMerge.MergeSkipsOnlyNoOps | src/helm_manager.py:483-484 | skipping the override pass for empty override data changes nothing |
| ValuesMerge.Index2 | src/helm_manager.py:529 | `d[a][b]` succeeds exactly when the path exists, and gives its value |
| ValuesMerge.SetIndex2 | src/helm_manager.py:529 | `d[a][b] = v` succeeds exactly when `d[a]` is a mapping; it leaves every other key of `d` and of `d[a]` alone, and `d[a][b]` is `v` afterwards |
| ValuesMerge.Pin | src/helm_manager.py:529-530 | a pin succeeds exactly when the pinned value exists and the target is a mapping; the target then holds the pinned value |
| ValuesMerge.StripMarker | src/helm_manager.py:532 | deleting the marker succeeds exactly when it is present, keeps every other key with its value and in its order, and leaves no marker in a dict |
| ValuesMerge.PinAndStripSpec | src/helm_manager.py:527-533 | pinning and deletion succeed exactly when both pinned fields exist, both targets are mappings and the marker is present; the result holds the pinned values and every other top-level entry |
| ValuesMerge.PinAndStripKeys | src/helm_manager.py:527-533 | a successful pin and deletion leave a dict a dict with the merge's keys in order, minus the marker |
| ValuesMerge.PinAndStripState | src/helm_manager.py:527-533 | the live dict after the save: the saved document on success, and unchanged when the first pin target is not a mapping |
| ValuesMerge.SaveMergedSpec | src/helm_manager.py:521-533 | the saved document pins both version fields to the chart defaults, has no marker key and keeps the merge's other keys in order; it fails exactly when a pinned field, a target mapping or the marker is missing |
| ValuesMerge.SaveMergedLegacy | src/helmmanager.py:278-286 | the older save is the merge minus the marker, with no pinning, keeps the merge's other keys in order, and fails exactly when the marker is absent |
| ValuesMerge.AliasedDefaults | src/helm_manager.py:498 | the defaults after the merge keep their keys, with only the subtrees shared with the live values rewritten |
| ValuesMerge.AliasedDefaultsGet | src/helm_manager.py:496-519 | a default subtree changes only when the live values lacked it and the override recursed into it, or recursively below a shared mapping |
| ValuesMerge.DefaultsAfterMerge | src/helm_manager.py:481-486 | `new_fields_data` after `merge()` keeps its keys, and is untouched when the override data is empty and the override pass is skipped |
| ValuesMerge.SaveMergedAsWrittenSpec | src/helm_manager.py:521-533 | the save as written succeeds exactly when both pinned fields exist in the defaults as the merge left them, both targets are mappings and the marker is present; it then holds those pinned values, no marker and the merge's other keys in order |
| ValuesMerge.AsWrittenAgrees | src/helm_manager.py:529-530 | when the live values already hold mappings under `global` and `image`, the code as written pins the chart defaults |
| ValuesMerge.AsWrittenPinsOverride | src/helm_manager.py:496-530 | when the live values lack `global`, the code as written "pins" `global.byocZipVersion` to the override file's value |
| ValuesMerge.PinCounterexample | src/helm_manager.py:529 | on one concrete input the code as written keeps the override's `"1"`, and the value-semantics save gives the default `"2"` |
| ValuesMerge.YamlMerger.Merge | src/helm_manager.py:472-486 | `merge()` returns the merge specification and leaves it in `source_data`, since the live values are rewritten in place; `new_fields_data` is left as the shared subtrees rewrote it |
| ValuesMerge.YamlMerger.SaveMergedYaml | src/helm_manager.py:521-533 | the document handed to the writer is `SaveMergedAsWritten` of the loaded data, or the exception raised first; `source_data` holds the saved document, or the partly pinned merge when an exception escaped |
| Environment.NamespaceOf | src/helm_manager.py:14 | a namespace is set exactly when the environment value is non-empty |
| Environment.MergerInputs | src/helm_manager.py:456-486 | `YamlMerger.__init__` loads the live values and the defaults, and the override file only when one was named; a missing live-values file is the first error; a falsy override (`None`, `{}`, `[]`, `0`, `false`, `""`) is skipped, and a truthy non-dict one raises |
| Environment.Host.Helm | src/helm_manager.py:44-59 | one helm call: the response the collaborator gives and one trace event |
| Environment.Host.ExtractTgz | src/helm_manager.py:313-327 | extraction adds the archive's files, or fails and adds none |
| Environment.Host.CopyAndRename | src/helm_manager.py:343-359 | a copy happens only when the source file exists |
| Environment.Host.WriteValues | src/helm_manager.py:361-378 | the file now holds the data |
| Environment.Host.DeleteFolder | src/helm_manager.py:299-311 | every file under the directory is gone and no other file changes |
| Environment.Host.ExtractChart | src/helm_manager.py:219-232 | unpack the pulled archive, then copy the chart's `values.yaml` to the defaults file |
| HelmRun.InitMissingOverride | src/helm_manager.py:16-19 | a named override file that does not exist stops the program with exit 1 before anything is done |
| HelmRun.InitWithRepo | src/helm_manager.py:27-41 | with `repo:version` no helm command runs: the argument is printed, the directory created, and the fields are the two parts, the release or its default, and `./tmp/<release>current.yaml` |
| HelmRun.InitWithoutRepo | src/helm_manager.py:29-31 | without `--repo` the one helm call lists the release; the version is the listed chart's and the repository is the Quix registry |
| HelmRun.RollbackRevision | src/helm_manager.py:285-288 | a failed status check ends in exit 1 or an escaping exception, never in a normal end |
| HelmRun.RollbackRevisionOf | src/helm_manager.py:286-288 | exit 1 exactly when the status is not `pending-upgrade`; at revision `n` the rollback target is `str(n - 1)`; a missing `REVISION` raises `TypeError`, and a non-integer one raises `ValueError("invalid literal for int() with base 10: '<value>'")` |
| HelmRun.PendingUpgradeRollsBack | src/helm_manager.py:284-291 | an unlisted release pending an upgrade at revision `n` is rolled back to `n - 1` after the listing and the status query, then the run starts over |
| HelmRun.OtherStatusExits | src/helm_manager.py:292-294 | an unlisted release with any other status exits 1 after exactly the listing and the status query, with no rollback |
| HelmRun.FuelMonotone | src/helm_manager.py:291 | once a run ends within some fuel, more fuel gives the same end |
| HelmRun.ActOnce | src/helm_manager.py:270-278 | the action makes at most the upgrades it asks for and no rollback; a normal `update` ends with its one upgrade |
| HelmRun.ReconcileOnce | src/helm_manager.py:261-283 | the branch for a listed release rolls nothing back and makes at most one upgrade, exactly one for `update` ending normally, as its last act |
| HelmRun.RecoverRollsBackOnce | src/helm_manager.py:284-294 | the branch for an unlisted release upgrades nothing and rolls back at most once, exactly once when it starts over |
| HelmRun.PassOnce | src/helm_manager.py:260-294 | one pass of `run` keeps the bounds of either branch |
| HelmRun.RunUpgradesOnce | src/helm_manager.py:254-294 | `update` upgrades exactly once on a run that ends normally, as its last act, whatever rollbacks came first; other actions never upgrade; at most one rollback per pass |
| HelmRun.UpgradeUsesPinnedValues | src/helm_manager.py:266-271 | when the live values hold mappings under `global` and `image` (and the defaults' pinned fields are not mappings), a normal end of `update` leaves a values file whose two pinned fields equal the chart defaults', with no marker and the merge's other keys in order |
| HelmRun.UpgradePinsOverride | src/helm_manager.py:266-271 | when the live values lack `global` and the override file sets `global.byocZipVersion`, a normal end leaves that override value in the written file, not the chart default |
| HelmRun.MergeWritesSave | src/helm_manager.py:266-271 | a merge that goes on to a normal end loaded its inputs, saved with the code as written, and wrote exactly that document to the merged file |
| HelmRun.ReconcileSteps | src/helm_manager.py:261-283 | a normal end for a listed release acts in this order: `get values`, `pull`, extraction, the defaults copy when the chart has one, the live-values write, the merged write, then the upgrade or template call |
| HelmRun.FetchChartSteps | src/helm_manager.py:264-283 | from the pull on, the same order of actions |
| HelmRun.UnpackSteps | src/helm_manager.py:219-232 | a successful pull and extraction leave exactly the unpacked files and the copied defaults, with those actions traced |
| HelmRun.MergeAndActSteps | src/helm_manager.py:267-278 | a normal end after the live-values write is the merged write followed by the action's one helm call |
| HelmRun.HelmManager.CheckExists | src/helm_manager.py:152-160 | the existence check on the host is the specification `Exists` |
| HelmRun.HelmManager.Act | src/helm_manager.py:270-278 | the action on the host is `ActSpec` |
| HelmRun.HelmManager.Reconcile | src/helm_manager.py:261-283 | the branch for a listed release on the host is `ReconcileSpec` |
| HelmRun.HelmManager.MergeAndApply | src/helm_manager.py:267-283 | the merger, the save, the write and the action on the host are `MergeAndAct` |
| HelmRun.HelmManager.Revision | src/helm_manager.py:285-288 | the rollback revision computed by the method is `RollbackRevision` |
| HelmRun.HelmManager.Recover | src/helm_manager.py:284-294 | the branch for an unlisted release on the host is `RecoverSpec` |
| HelmRun.HelmManager.RunPass | src/helm_manager.py:260-294 | one pass on the host is `Pass` |
| HelmRun.HelmManager.Run | src/helm_manager.py:254-294 | `run` on the host, with fuel, ends in the state and outcome `RunSpec` gives |
| HelmRun.HelmManager.Resume | src/helm_manager.py:291 | after a pass, the recursive `self.run()` or the end is `Continue` |
| HelmRun.Init | src/helm_manager.py:7-41 | `__init__` on the host gives the state and fields `InitSpec` gives |
| Compare.GetAllKeys | tools/compare.py:12-24 | the loop with its recursive calls computes `LeafPaths` |
| Compare.LeafPathsAppend | tools/compare.py:17-24 | depth-first in iteration order: the paths of a concatenation are those of its parts, in order |
| Compare.NestedBlock | tools/compare.py:20-21 | a mapping value contributes its own paths as one block; an empty mapping contributes nothing |
| Compare.LeafPathsSound | tools/compare.py:18-23 | every returned path is the dotted key path of a leaf |
| Compare.LeafPathsComplete | tools/compare.py:18-23 | the dotted key path of every leaf is returned |
| Compare.DottedKeysCollide | tools/compare.py:19 | a key holding a dot and the nested path it spells give the same path |
| Compare.CompareYamlFieldSet | tools/compare.py:26-60 | a load failure makes the result false without a comparison; the result is true exactly when the leaf-path sets are equal; the reported differences are exactly the two set differences, not both empty; a loaded non-mapping raises |
| Compare.SameFieldsMeansSameLeaves | tools/compare.py:37-42 | two dicts compare equal exactly when the same dotted paths lead to leaves in both |
| Compare.LeafPathsIff | tools/compare.py:12-24 | a path is returned exactly when it spells a key path to a leaf |
| LegacyManager.LegacyExtractVersionAndFormat | src/helmmanager.py:45-50 | a missing `--repo` raises on `None.split`; without a colon the handler's read of the unset `self.repo` raises `AttributeError`; otherwise the two parts of the newer parser |
| LegacyManager.LegacyCheckIfExists | src/helmmanager.py:58-67 | true exactly when the release name occurs anywhere in the raw listing, header included |
| LegacyManager.HeaderMatches | src/helmmanager.py:63 | a name that occurs in the header of an empty listing counts as installed for the older check and as absent for the newer one |
| LegacyManager.LegacyInitSpec | src/helmmanager.py:9-30 | no helm call; fields exactly when the override exists or is not named, `--repo` holds a colon and a release is named; the missing-override exit leaves everything as it was |
| LegacyManager.LegacyActOnce | src/helmmanager.py:95-108 | the older action upgrades at most as asked, never rolls back, and prints the template output |
| LegacyManager.LegacyActAndCleanOnce | src/helmmanager.py:121-126 | a normal end deletes the deployment directory as its last act, after the one upgrade of `update` |
| LegacyManager.LegacyMergeAndActOnce | src/helmmanager.py:118-129 | a merge error is logged and changes nothing |
| LegacyManager.LegacyFetchChartOnce | src/helmmanager.py:115-129 | the pull, the extraction and the merge keep the clean-up bounds; a swallowed error leaves the live-values file written last |
| LegacyManager.LegacyReconcileOnce | src/helmmanager.py:113-129 | the branch for a listed release never rolls back and upgrades at most once; a swallowed error upgrades nothing and keeps the scratch file |
| LegacyManager.LegacyReconcileSteps | src/helmmanager.py:113-129 | a normal end for a listed release acts in this order: `get values`, `pull`, extraction, the defaults copy, the live-values write, the merged write, the action's helm call and, for `template`, its print, then the deletion of the deployment directory |
| LegacyManager.LegacyFetchChartSteps | src/helmmanager.py:116-126 | from the pull on, the same order of actions |
| LegacyManager.LegacyMergeAndActSteps | src/helmmanager.py:118-126 | a normal end after the live-values write is the merged write, the action and the deletion |
| LegacyManager.LegacyRunOnce | src/helmmanager.py:110-131 | `run` starts with the listing; an unlisted release ends right there with no status query, rollback or exit; no rollback ever; a normal end after more than the listing has cleaned up last |
| LegacyManager.SaveMergedYamlLegacy | src/helmmanager.py:278-286 | the older `save_merged_yaml` on the merger object writes `SaveMergedLegacy` of the loaded data; `source_data` holds the saved document, or the merge when the marker was missing |
| LegacyManager.LegacyHelmManager.ActAndClean | src/helmmanager.py:121-126 | the action and the clean-up on the host are `LegacyActAndClean` |
| LegacyManager.LegacyHelmManager.MergeAndAct | src/helmmanager.py:118-129 | the merge and what follows, on the host, are `LegacyMergeAndAct` |
| LegacyManager.LegacyHelmManager.Run | src/helmmanager.py:110-131 | the older `run` on the host is `LegacyRunSpec` |
| LegacyManager.LegacyInit | src/helmmanager.py:9-30 | the older `__init__` on the host is `LegacyInitSpec` |

## Left out

- Process execution, the file system, `tarfile`, `shutil` and YAML parsing are not modelled. They become collaborator parameters of `Environment.World`. YAML dumping, `LiteralDumper` and `str_presenter` are not modelled either: only what is written (a string verbatim or a document) is recorded.
- Logging is left out. It only records messages.
- The recursion's depth is bounded by fuel. The model promises nothing once the fuel runs out.
- Python's heap aliasing is modelled in one place only: the default subtrees that `_merge_new_fields` shares with the live values, which the override pass then rewrites in `new_fields_data` as well. The merger state and the run's save follow it. Every other operation uses value semantics.
- ValuesMerge.YamlMerger.SaveMergedYaml: `override_data` after the save is not stated. When the override pass inserted an override dict into the live values, the pin writes into that dict as well, and no later step reads it.
- Document.Entry: keys are strings. YAML int, bool and null keys, which Python keeps apart from their string spellings (in `key not in source`, and as the unconverted top-level key of `get_all_keys`), are not modelled.
- HelmRun.RollbackRevision: the `ValueError` message quotes the `REVISION` value between single quotes as it is. Python's `repr` would switch to double quotes or escape characters for a value holding a quote, a backslash or a non-printable character, which a stripped helm status field does not normally hold.
- Text.ParseInt: only ASCII digits are accepted. Python's `int()` also accepts other Unicode decimal digits, which a `REVISION` field from helm does not hold.
- `FileManager.create_folder` and `delete_folder` swallow `OSError`, which is not modelled: both always succeed.
- Environment.MergerInputs: PyYAML's errors are lumped into one `YamlError`. When a loaded document is not a dict, the model gives the first non-dict input a `TypeError` or `AttributeError`, not Python's exact exception.
- LegacyManager.LegacyInitSpec: a repository argument given as a non-string is not modelled, since `argparse` yields strings.
- The CLI entry points (`quix_install_command.py`, `install-envar.py`, both `quix-install-command.py`), the module-level example run of `tools/compare.py` and its `load_yaml` are left out. They are argument wiring around the modelled core, or call modules that are not part of this model.
- The `print` calls of `compare_yaml_fields` are left out: its result carries the two differences instead.
- The tests that contradict the code (`tests/helmmanager_test.py:45-57`) are not used for any property.

## Findings

| source | as written | input that shows it | evidently intended | confidence | as-written member | corrected member |
|---|---|---|---|---|---|---|
| src/helm_manager.py:496-530 | `_merge_new_fields` inserts the defaults' own subtree into the live values. A later override that recurses into it also rewrites the defaults, so the "pin" at line 529 reads back the override value. | live values with no `global`, defaults `global.byocZipVersion: "2"`, override `global.byocZipVersion: "1"`: the saved file holds `"1"` | the saved file holds the chart default `"2"` | not executed | ValuesMerge.PinCounterexample | ValuesMerge.SaveMergedSpec |

`ValuesMerge.SaveMergedAsWritten` is the save as the code does it, and
`ValuesMerge.AsWrittenPinsOverride` states the general case. The
`YamlMerger` class and the run model use the save as written, so
`HelmRun.UpgradePinsOverride` shows the same effect on a whole run.
`ValuesMerge.SaveMerged`, with `ValuesMerge.SaveMergedSpec`, is the
intended save with value semantics.

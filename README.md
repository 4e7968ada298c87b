# venvctl, modelled in Dafny

venvctl builds a family of Python virtual environments from one JSON
configuration file. The model covers three parts of the program.

- **configutils**: the validation of the environment list. Every item must
  be a dict. Its keys must come from `name`, `parent` and `packages`, with
  a `str`, `str` and `list` value. A `parent` must name some item of the
  list. The check uses `get_item_by_name`, a lazy search that raises when it
  meets an item it cannot subscript with `"name"`.
- **`VenvCtl`**, the generator object. `run` reads `{"base": ..., "venvs": [...]}`
  and splits the venvs into regular and networking ones by their `"type"`.
  It then does three things:
  - it creates the base environment, installs the shared packages and
    rewrites the `VIRTUAL_ENV="<base>"` line of the base's activate script
    with a location-independent fix;
  - for every regular venv, in list order, it copies the base, installs the
    venv's packages, audits the venv, packs it and writes a report;
  - it does the same for every networking venv.
- **reports**: the Markdown report of one environment. It holds a header
  with the name and the time, the exit code, and a level-2 section per
  report output that is not empty.

The modules:

- `Json` (json.dfy): the parsed JSON value. It models Python's `v[key]`,
  `for x in v` and `str(v)` on that value. Exceptions are `PyError`
  values (`AssertionError`, `KeyError`, `TypeError`).
- `Strings` (strings.dfy): `str.replace`, described by `Split` and `Join`.
- `ConfigUtils` (configutils.dfy) has two parts:
  - `Validate` states the check as recursion over items and keys;
  - `ValidateConfig` is the nested loop the code runs, proved equal to it.
- `Reports` (reports.dfy): the document as a value (`Document`: a path and
  a list of elements). Two things are specified by functions on that value
  and proved against them:
  - `generate_report`'s loop;
  - `generate_reports`' record-building loop.
- `VenvCtl` (venvctl.dfy): the class `VenvCtl` with its paths and a `trace`
  of side effects (`Step`s). Each method appends the steps the source
  performs, in the source's order. Each is proved equal to a step function
  of the configuration and the tools (`RunSteps`, `BaseSteps`, `VenvSteps`
  and so on). The lemmas about those functions state what a run does.

virtualenv, pip (through piphyperd), the packer and the contents of the
activate script are outside the model. Their results are the functions
held in a `Tools` value. The timestamp of a report is a parameter.

## Model

| member | source | states |
|---|---|---|
| ConfigUtils.ValidProperties | module/utils/configutils.py:14-20 | exactly `name`, `parent` and `packages` are known keys; only `packages` must be a list |
| ConfigUtils.GetItemByName | module/utils/configutils.py:22-28 | `next` over the generator: the items are subscripted in list order, up to the first match, and the first failed subscript raises. `GetItemByNameSpec` states its results |
| ConfigUtils.Validate | module/utils/configutils.py:30-51 | `validate_config` as recursion over items and keys. `ValidateAcceptsExactly` proves it passes exactly on valid configurations, the `FirstBad…Decides` lemmas say which failure it reports, and `ValidateConfig` is the loop proved equal to it |
| ConfigUtils.InvalidKeyMessage | module/utils/configutils.py:43 | the unknown-key message, naming the key. `InvalidKeyRejected` and `UnitTestRejections` use it |
| ConfigUtils.InvalidTypeMessage | module/utils/configutils.py:44-46 | the triple-quoted wrong-type message, with its line breaks and indentation. `WrongTypeRejected` uses it |
| ConfigUtils.InvalidParentMessage | module/utils/configutils.py:49-51 | the triple-quoted unknown-parent message, naming the parent. `UnknownParentRejected` and `UnitTestUnknownParent` use it |
| ConfigUtils.GetItemByNameSpec | module/utils/configutils.py:22-28 | the search returns `None` iff it reads every item's name and none matches; it returns the first matching item; otherwise it raises the error of the first item whose `"name"` cannot be read, with every earlier item passed over |
| ConfigUtils.GetItemByNameReaches | module/utils/configutils.py:28 | a matching item is found when every item before it has a readable name |
| ConfigUtils.GetItemByNameRaisesAt | module/utils/configutils.py:28 | the search raises KeyError or TypeError at the first unreadable item when no earlier item matches |
| ConfigUtils.GetItemByNameFinds | module/utils/configutils.py:28 | the search finds an item exactly when the parent resolves, i.e. some item carries the name and every earlier item has a readable name |
| ConfigUtils.ValidateConfig | module/utils/configutils.py:30-51 | the nested loop over items and their keys, leaving at the first failed check, returns what `Validate` returns |
| ConfigUtils.CheckPairPasses | module/utils/configutils.py:41-51 | one key passes exactly when it is known, its value has the key's type, and a parent resolves |
| ConfigUtils.CheckPairsPass | module/utils/configutils.py:41-51 | an item's keys pass exactly when every key is valid |
| ConfigUtils.CheckItemsPass | module/utils/configutils.py:38-51 | the outer loop passes exactly when every item is a dict of valid keys |
| ConfigUtils.ValidateAcceptsExactly | module/utils/configutils.py:30-51 | `validate_config` returns normally iff the configuration is a list of dicts with known keys, values of the right type and resolving parents; no key is required |
| ConfigUtils.ParentAcceptedIffNamed | module/utils/configutils.py:48-51 | when every item has a readable name, a parent is accepted iff some item of the whole list carries it, earlier or later |
| ConfigUtils.FirstBadItemDecides | module/utils/configutils.py:38-40 | when the items before `i` are valid and item `i` fails, the outcome is item `i`'s failure |
| ConfigUtils.FirstBadPairDecides | module/utils/configutils.py:41-51 | within an item, the first failing key decides the item's outcome |
| ConfigUtils.FirstBadKeyDecides | module/utils/configutils.py:38-51 | the first failing key, in list order and then dict order, decides the whole validation |
| ConfigUtils.NotAListRejected | module/utils/configutils.py:36 | anything but a list fails with "The configuration object must be a list" |
| ConfigUtils.ItemNotDictRejected | module/utils/configutils.py:40 | the first item that is not a dict fails with "The configuration items must be dicts" |
| ConfigUtils.InvalidKeyRejected | module/utils/configutils.py:43 | the first unknown key fails with a message naming the key |
| ConfigUtils.WrongTypeRejected | module/utils/configutils.py:44-46 | the first value of the wrong type fails with the key and the expected type |
| ConfigUtils.UnknownParentRejected | module/utils/configutils.py:48-51 | a parent that no item of a fully named list carries fails with a message naming the parent |
| ConfigUtils.ParentSearchRaises | module/utils/configutils.py:28 | an unreadable item reached by a parent search makes validation raise KeyError (a dict) or TypeError (anything else), not AssertionError |
| ConfigUtils.NoKeyRequired | module/utils/configutils.py:38-51 | an empty list, an empty dict and a dict holding only `packages` all pass |
| ConfigUtils.CyclesAccepted | module/utils/configutils.py:48-51 | a self-parent and a two-item parent cycle both pass: only existence is checked |
| ConfigUtils.NamelessItemRaises | module/utils/configutils.py:28 | a name-less item ahead of the parent makes validation raise KeyError("name") |
| ConfigUtils.EnvNameIs | module/tests/test_configutils.py:23-57 | an item written as in the tests is found under its name |
| ConfigUtils.EnvPasses | module/tests/test_configutils.py:23-57 | such an item passes when its parent, if any, is found |
| ConfigUtils.CheckItemsAllPass | module/utils/configutils.py:38-51 | a list passes when each of its items passes on its own |
| ConfigUtils.UnitTestValidConfig | module/tests/test_configutils.py:23-57 | the tests' valid configuration passes, whatever its package lists hold |
| ConfigUtils.UnitTestUnknownParent | module/tests/test_configutils.py:59-93 | the tests' configuration with parent "whatever" fails with the parent message naming "whatever" |
| ConfigUtils.UnitTestRejections | module/tests/test_configutils.py:95-114 | a dict, an item with key "whatever", a `name` of False and a string item fail with their messages |
| Json.GetSpec | module/utils/configutils.py:28 | a dict lookup finds a value iff the key is present, and the value is stored under that key |
| Json.Subscript | module/utils/configutils.py:28 | `v[key]` on a non-dict raises TypeError, and on a dict without the key raises KeyError(key) |
| Json.SubscriptSpec | module/utils/configutils.py:28 | `v[key]` succeeds iff `v` is a dict holding `key` |
| Json.Iterate | module/main/venvctl.py:89-90 | unpacking a list yields its items; a dict, its keys; a string, its characters; anything else raises TypeError |
| Json.NatToString | module/utils/reports.py:42 | a number's decimal numeral is non-empty, all digits, and starts with 0 only for zero |
| Json.NatToStringRoundTrip | module/utils/reports.py:42 | reading the numeral back gives the number |
| Json.IntToStringRoundTrip | module/utils/reports.py:42 | the exit code's text starts with "-" iff it is negative, and its digits give its magnitude |
| Json.IntToString | module/utils/reports.py:42 | `"{}".format(exitcode)`. `IntToStringRoundTrip` proves the sign and the digits give the number back |
| Json.Str | module/main/venvctl.py:132-138 | `str()` of a venv name, which the f-strings and `str(venv["name"])` put into paths and the pack name: a string as it is, anything else as its `repr`. `StrMatchesPython` states what it gives for each kind of value |
| Json.Repr | module/main/venvctl.py:132-138 | `repr` of a JSON value: `None`, `True`/`False`, the decimal numeral, a quoted string, and lists and dicts with their items separated by `, `. `StrMatchesPython` states examples of each |
| Json.StrMatchesPython | module/main/venvctl.py:132-138 | `str()` gives `web` for a string, `None`, `True`, `False`, `7`, `-12`, `[]`, `['a', 1]` and `{'a': 0}` |
| Strings.Split | module/main/venvctl.py:107-108 | the pieces between occurrences are never fewer than one |
| Strings.Replace | module/main/venvctl.py:107-108 | `str.replace`, left to right and without overlap. `ReplaceIsJoinOfSplit`, `SplitIsLeftmost` and `ReplaceWithoutOccurrence` state what it does |
| Strings.ReplaceIsJoinOfSplit | module/main/venvctl.py:107-108 | replacing is joining the pieces between occurrences with the replacement |
| Strings.SplitJoinRoundTrip | module/main/venvctl.py:107-108 | joining the pieces with the pattern gives the text back |
| Strings.SplitIsLeftmost | module/main/venvctl.py:107-108 | the pieces are the leftmost non-overlapping decomposition: no occurrence starts inside a piece before its cut, and the last piece holds none |
| Strings.ReplaceWithoutOccurrence | module/main/venvctl.py:107-108 | text without the pattern comes back unchanged |
| Strings.JoinPrepend | module/main/venvctl.py:107-108 | text put in front of the first piece ends up in front of the joined text |
| Strings.MatchShift | module/main/venvctl.py:107-108 | a match in a suffix is a match in the whole text, one position on |
| Strings.MatchInPrefix | module/main/venvctl.py:107-108 | a match in a prefix is a match in the whole text |
| Strings.NoMatchBeforeEnd | module/main/venvctl.py:107-108 | for a non-empty pattern, no match before the end means no match at all |
| Strings.ConsNoMatch | module/main/venvctl.py:107-108 | a character in front keeps a match-free prefix match-free, one longer |
| Strings.LeftmostCons | module/main/venvctl.py:107-108 | a clean first piece keeps a decomposition leftmost |
| Strings.LeftmostTail | module/main/venvctl.py:107-108 | dropping the first piece keeps a decomposition leftmost |
| Strings.ConsFirstPiece | module/main/venvctl.py:107-108 | a character that does not start a match joins the first piece and keeps the decomposition leftmost |
| Strings.NotMatchingFirstPiece | module/main/venvctl.py:107-108 | a first piece that gained a character keeps its match-free prefix |
| Strings.NotMatchingLastPiece | module/main/venvctl.py:107-108 | a last piece that gained a character still holds no occurrence |
| Reports.WithOutput | module/utils/reports.py:44-45 | the reports kept are exactly those with non-empty output, and there are no more of them than reports |
| Reports.ReportBuilder | module/utils/reports.py:24-30 | a record holding the title and the output. `BuildRecords` states the records built from a map |
| Reports.Records | module/utils/reports.py:55-58 | the records built from the map's items. `BuildRecords` is the loop proved equal to it, and `SectionTitlesFollowMap` states what reaches the document |
| Reports.Sections | module/utils/reports.py:44-47 | the elements the loop adds. `SectionsLayout` proves the layout, and `SectionsAppend` the one-report step |
| Reports.ReportDocument | module/utils/reports.py:32-49 | the document `generate_report` saves. `ReportDocumentLayout` states its path and elements, and `GenerateReport` is the loop proved equal to it |
| Reports.ReportsDocument | module/utils/reports.py:51-61 | the document `generate_reports` saves, one directory deeper. `GenerateReports` and `ReportPath` state its path |
| Reports.SectionsAppend | module/utils/reports.py:44-47 | one more report adds its own section at the end |
| Reports.LaidCons | module/utils/reports.py:44-47 | a header and a code block in front of a laid-out list lay out one more report |
| Reports.SectionsLayout | module/utils/reports.py:44-47 | the sections are a level-2 header with the title and a code block with the output, per report with output, in order |
| Reports.ReportDocumentLayout | module/utils/reports.py:32-49 | the document is saved to `<reports_path>/<venv_name>.md`; it starts with the level-1 header "`<name> <time>`" and the exit-code line, then has two elements per report with output, in order |
| Reports.GenerateReport | module/utils/reports.py:32-49 | the loop builds that document |
| Reports.BuildRecords | module/utils/reports.py:55-58 | one record per map item, in the map's order, titled by the key and holding the value |
| Reports.GenerateReports | module/utils/reports.py:51-61 | the document of the records lands in `<reports_path>/reports/<venv_name>.md` |
| Reports.SectionTitlesFollowMap | module/utils/reports.py:51-61 | the sections are exactly the map items with non-empty output, and there are as many of them as such items |
| Reports.WithOutputCount | module/utils/reports.py:44-47 | the loop keeps one report per map item with non-empty output |
| VenvCtl.VenvCtl.constructor | module/main/venvctl.py:39-45 | the venvs live in `<cwd>/python-venvs` and the base in its `base` directory; the trace is empty |
| VenvCtl.OfType | module/main/venvctl.py:74-79 | the list comprehension over the venvs by `"type"`. `OfTypeRaises`, `OfTypeKeeps` and `OfTypeAppend` state what it raises, what it keeps and that it keeps the order |
| VenvCtl.ParseVenvs | module/main/venvctl.py:66-80 | `__parse_venvs`. `ParseVenvsPartition` and `ParseVenvsFails` state its results and its errors |
| VenvCtl.PatchActivate | module/main/venvctl.py:107-108 | the rewrite of the base's activate script. `PatchActivateSpec` states it |
| VenvCtl.BashActivationFix | module/main/venvctl.py:47-57 | the line that replaces the hard-coded `VIRTUAL_ENV` in the base's activate script: it computes the venv's directory from the script's own location. `PatchActivateSpec` states how it replaces the old line |
| VenvCtl.ReportsMap | module/main/venvctl.py:140-147 | the six titles in map order with their outputs. `VenvStepsBuilt` states the titles |
| VenvCtl.InstallSteps | module/main/venvctl.py:82-94 | the steps and result of `install_packages`. `InstallPackagesInto` is proved equal to it, and `BaseStepsLayout`, `VenvStepsBuilt` and `VenvStepsFailed` state its cases |
| VenvCtl.BaseSteps | module/main/venvctl.py:96-111 | the steps of `__create_base_venv` and the error that stops them. `BaseStepsLayout` states them, and `CreateBaseVenv` is proved equal to it |
| VenvCtl.FromBaseSteps | module/main/venvctl.py:113-116 | the copy of the base, then the installation. `VenvStepsBuilt` and `VenvStepsCopyBase` state them, and `CreateFromBase` is proved equal to it |
| VenvCtl.FinishSteps | module/main/venvctl.py:134-150 | audit, pack and save the report. `VenvStepsBuilt` and `VenvReported` state them |
| VenvCtl.BuildSteps | module/main/venvctl.py:132-150 | the build of one venv once its name and packages are read. `BuildVenv` is proved equal to it, and `VenvStepsBuilt` and `VenvStepsFailed` state its cases |
| VenvCtl.VenvSteps | module/main/venvctl.py:131-150 | one turn of `__generate_venvs`: the name is read, then the packages, then the venv is built. `VenvStepsBuilt`, `VenvStepsFailed`, `VenvStepsCopyBase` and `VenvReported` state it |
| VenvCtl.GenerateSteps | module/main/venvctl.py:130-131 | the loop over the venvs, stopping at the first error. `GenerateStepsTurns`, `GenerateStepsAppend` and `GenerateStepsStops` state it, and `GenerateVenvs` is proved equal to it |
| VenvCtl.RunSteps | module/main/venvctl.py:152-161 | `run` after the configuration is read. `RunLayout`, `RunBaseFirst` and `RunReportsEveryVenv` state it, and `Run` is proved equal to it |
| VenvCtl.OfTypeRaises | module/main/venvctl.py:74-79 | the comprehension raises iff some venv has no readable "type", and then with the first such venv's error |
| VenvCtl.OfTypeKeeps | module/main/venvctl.py:74-79 | the comprehension keeps exactly the venvs of the given type |
| VenvCtl.OfTypeCons | module/main/venvctl.py:74-79 | the result for a venv followed by more venvs is what that venv keeps, then the rest |
| VenvCtl.OfTypeAppend | module/main/venvctl.py:74-79 | filtering keeps the order: the result for a concatenation is the concatenation of the results |
| VenvCtl.OfTypeConsAppend | module/main/venvctl.py:74-79 | the step of that proof for one more venv in front |
| VenvCtl.OfTypeSingle | module/main/venvctl.py:74-79 | a single venv is kept iff its type is the tag |
| VenvCtl.OfTypeDisjoint | module/main/venvctl.py:74-79 | two different types select disjoint venvs, together no more than the list |
| VenvCtl.ParseVenvsPartition | module/main/venvctl.py:66-80 | the base comes back unchanged; the regular and networking lists hold exactly the venvs of their type, and they are disjoint |
| VenvCtl.ParseVenvsFails | module/main/venvctl.py:66-80 | parsing raises iff "base" or "venvs" is missing, the venvs cannot be iterated, or some venv has no readable "type" |
| VenvCtl.PatchActivateSpec | module/main/venvctl.py:104-111 | the script is its pieces between `VIRTUAL_ENV="<base>"` lines, joined by the fix; joined by the line they give the script back; they are leftmost; a script without the line is unchanged |
| VenvCtl.BaseStepsLayout | module/main/venvctl.py:96-111 | the base is created first and nothing is copied. It is installed into, made relocatable and its activate script rewritten, exactly when its packages unpack; otherwise the run stops with TypeError after the creation |
| VenvCtl.ReportPath | module/main/venvctl.py:149-150 | a venv's report is saved to `<venvs>/reports/reports/<name>.md` |
| VenvCtl.VenvStepsBuilt | module/main/venvctl.py:130-150 | a readable venv is copied from the base, installed, made relocatable, audited, packed and reported on. The report has the six titles in order, each over its own output (install report, install errors, freeze, check, outdated, packer), and the installation's exit code |
| VenvCtl.VenvStepsFailed | module/main/venvctl.py:131-133 | a venv fails iff its name or packages cannot be read or unpacked; the error is that of the first failing lookup, and at most the copy has happened |
| VenvCtl.VenvStepsCopyBase | module/main/venvctl.py:113-116 | every copy a venv makes copies the base |
| VenvCtl.VenvReported | module/main/venvctl.py:137-150 | a venv that went through is packed and has its report saved |
| VenvCtl.GenerateStepsAppend | module/main/venvctl.py:130-131 | after a run of turns without error, one more venv appends its own steps and error |
| VenvCtl.GenerateStepsStops | module/main/venvctl.py:130-131 | after an error, later venvs add nothing |
| VenvCtl.GenerateStepsNext | module/main/venvctl.py:130-131 | turn `i + 1` extends the steps of the first `i` turns by its own |
| VenvCtl.GenerateStepsFailed | module/main/venvctl.py:130-131 | a loop that failed within its first `i` turns has the outcome of those turns |
| VenvCtl.GenerateStepsTurns | module/main/venvctl.py:130-150 | a loop fails iff some turn fails. Its steps are the turns' steps, and all of them when none failed |
| VenvCtl.GenerateStepsCopyBase | module/main/venvctl.py:130-150 | every copy in a loop over venvs copies the base |
| VenvCtl.RunLayout | module/main/venvctl.py:152-161 | an unparsable configuration does nothing and raises. Otherwise the base steps come first, then the regular venvs, then the networking ones; each stage starts only when the one before went through, and the error returned is that of the stage that stopped the run, or none |
| VenvCtl.RunBaseFirst | module/main/venvctl.py:152-161 | the first step creates the base; every copy copies the base; once anything is copied, the fourth step rewrote the base's activate script, and every copy comes after it |
| VenvCtl.RunReportsEveryVenv | module/main/venvctl.py:152-161 | a run that went through packed and reported on every regular and networking venv |
| VenvCtl.VenvCtl.InstallPackagesInto | module/main/venvctl.py:82-94 | packages that cannot be unpacked raise TypeError with nothing done; otherwise pip installs them and the venv is made relocatable, and pip's result is returned |
| VenvCtl.VenvCtl.CreateBaseVenv | module/main/venvctl.py:96-111 | the trace gains the base's steps and the method returns their error |
| VenvCtl.VenvCtl.CreateFromBase | module/main/venvctl.py:113-116 | the trace gains the copy of the base and the installation into the copy |
| VenvCtl.VenvCtl.VenvAudit | module/main/venvctl.py:118-128 | the trace gains one audit; freeze, check and outdated come back in that order |
| VenvCtl.VenvCtl.BuildVenv | module/main/venvctl.py:132-150 | the trace gains one venv's build steps, and the method returns their error |
| VenvCtl.VenvCtl.GenerateVenv | module/main/venvctl.py:131-150 | one turn of the loop: the name is read, then the packages, then the venv is built |
| VenvCtl.VenvCtl.GenerateVenvs | module/main/venvctl.py:130-150 | the loop appends every venv's steps in list order, stopping at the first error |
| VenvCtl.VenvCtl.Run | module/main/venvctl.py:152-161 | the trace gains exactly the run's steps, and the method returns the run's outcome |

## Left out

- Reading the configuration file (`__get_config`, `json.load`) is not modelled. `Run` takes the parsed value.
- Reading and writing the activate script are not modelled. The script virtualenv wrote is `tools.activateScript(base)`.
- Writing the report file (`markd.save`) is not modelled, and neither is Markdown rendering. A `SaveReport` step records the arguments of `generate_reports`, and `SavedDocument` gives the document they produce.
- virtualenv (`create_environment`, `make_environment_relocatable`, `copy_file_or_folder`) is not modelled. Its calls are steps.
- `PipHyperd` (`install`, `freeze`, `check`, `list_packages`) is not modelled. Its outputs are functions in `Tools`.
- `tools.Tools().packer` is not modelled either. Its output is a function in `Tools`.
- The `source <venv>/bin/activate` subprocess in `install_packages` is not modelled: it has no effect on the Python process.
- Exceptions raised by those tools are not modelled. They are taken to return normally.
- The report timestamp comes from `time.strftime("%Y:%M:%d - %H:%M")`. It is a parameter, so its format is not modelled. That format puts minutes (`%M`) where the month belongs.
- `generate_report` reads the clock once per call, so each venv's report carries its own time. The model passes one `generatedAt` to `Run`, and every report of a run carries that one time.
- `markd`'s `add_header` is taken to default to level 1. markd is not part of this model.
- `pathlib.Path` normalisation of the paths (for example of a trailing `/`) is not modelled. Paths are the f-string text.
- JSON floats are not modelled: numbers are integers.
- JSON objects with duplicate keys are outside the model. `json.load` keeps one entry per key, holding the last value. The model's dict keeps every pair, looks up the first, and `CheckPairs` visits each pair.
- `repr` of strings does not escape quotes or special characters. It is used only when a venv name that is not a string is put into a path.
- `Strings.Replace` assumes a non-empty pattern. The pattern replaced in the activate script, `VIRTUAL_ENV="<base>"`, is never empty.
- Running Python with `-O` strips the `assert` statements, so validation would pass anything. The model keeps the asserts.
- `ConfigUtils.UnitTestValidConfig`: the test expects a truthy result, but `validate_config` returns `None` on success. The model states that validation passes.
- The tests compare messages against `configutils.ERRORS[...]`, which `module/utils/configutils.py` does not define. The lemmas use the messages the code builds.
- The command-line front end, `setup.py` and the bandit security scan are not part of this model.
- The module-level `sys.path` manipulation and `print(PATH)` of venvctl.py are not modelled.

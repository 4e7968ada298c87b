/**
 * The environment generator (module/main/venvctl.py).
 *
 * `VenvCtl.run` reads a configuration `{"base": [...], "venvs": [...]}`,
 * splits the environments into regular and networking ones, creates the base
 * environment, then builds every regular and every networking environment by
 * copying the base, installing its packages, auditing, packing and writing a
 * report. The work itself is done by virtualenv, pip and tar; here each piece
 * of it is a `Step` appended to the object's trace, and what those tools
 * return comes from a `Tools` value.
 */
module VenvCtl {
  import opened Json
  import Strings
  import Reports

  /** What `PipHyperd.install` returns: report, errors and exit code. */
  datatype InstallResult = InstallResult(report: string, errors: string, exitcode: int)

  /** The results of the foreign tools, as functions of their arguments. */
  datatype Tools = Tools(
    install: (string, seq<Json>) -> InstallResult,  // pip install in <venv>
    freeze: string -> string,                        // pip freeze in <venv>
    check: string -> string,                         // pip check in <venv>
    outdated: string -> string,                      // pip list --outdated in <venv>
    packer: (string, string) -> string,              // tar listing of <dir>/<name>
    activateScript: string -> string)                // <home>/bin/activate as virtualenv wrote it

  /** One side effect of the generator. */
  datatype Step =
    | CreateEnvironment(home: string)                    // virtualenv.create_environment
    | InstallPackages(venv: string, packages: seq<Json>) // PipHyperd(...).install(*packages)
    | MakeRelocatable(venv: string)                      // virtualenv.make_environment_relocatable
    | WriteFile(path: string, content: string)           // the patched activate script
    | CopyTree(src: string, dst: string)                 // virtualenv.copy_file_or_folder
    | Audit(venv: string)                                // pip freeze, pip check, pip list --outdated
    | Pack(dir: string, name: string)                    // Tools().packer
    | SaveReport(reportsPath: string, venvName: string,  // Reports().generate_reports(...)
                 reports: seq<(string, string)>, exitcode: int, generatedAt: string)

  /** The document a `SaveReport` step writes. */
  function SavedDocument(step: Step): Reports.Document
    requires step.SaveReport?
  {
    Reports.ReportsDocument(step.reportsPath, step.venvName, step.reports, step.exitcode, step.generatedAt)
  }

  /** `__get_bash_activation_fix`: computes VIRTUAL_ENV from the script's own location. */
  const BashActivationFix: string := "VIRTUAL_ENV=$(cd $(dirname \"$BASH_SOURCE\"); dirname `pwd`)"

  /** The report titles of every environment, in the order of the map. */
  const ReportTitles: seq<string> := [
    "Installation report", "Errors and Warnings", "Pip Freeze Report",
    "Packages Audit Report", "Outdated Packages Report", "Build Report"]

  function VenvsPath(cwd: string): string
  {
    cwd + "/python-venvs"
  }

  function BasePath(venvsPath: string): string
  {
    venvsPath + "/base"
  }

  /** The line virtualenv writes into the activate script of the base. */
  function ActivationLine(basePath: string): string
  {
    "VIRTUAL_ENV=\"" + basePath + "\""
  }

  /** `content.replace('VIRTUAL_ENV="<base>"', fix)`. */
  function PatchActivate(content: string, basePath: string): string
  {
    Strings.Replace(content, ActivationLine(basePath), BashActivationFix)
  }

  // ---------------------------------------------------------------------
  // __parse_venvs

  /** `[venv for venv in venvs if venv["type"] == tag]`: every venv is
      subscripted, in order, and the first that cannot be raises. */
  function OfType(venvs: seq<Json>, tag: string): Result<seq<Json>>
    decreases |venvs|
  {
    if |venvs| == 0 then Ok([])
    else match Subscript(venvs[0], "type")
      case Err(e) => Err(e)
      case Ok(t) =>
        match OfType(venvs[1..], tag)
        case Err(e) => Err(e)
        case Ok(xs) => Ok(if t == JStr(tag) then [venvs[0]] + xs else xs)
  }

  /** The comprehension raises exactly when some venv has no readable "type",
      and what it raises is the error of the first such venv. */
  lemma {:induction false} OfTypeRaises(venvs: seq<Json>, tag: string)
    ensures OfType(venvs, tag).Ok? <==> forall i :: 0 <= i < |venvs| ==> Subscript(venvs[i], "type").Ok?
    ensures OfType(venvs, tag).Err? ==> exists i :: (0 <= i < |venvs| &&
      Subscript(venvs[i], "type") == Err(OfType(venvs, tag).error) &&
      forall j :: 0 <= j < i ==> Subscript(venvs[j], "type").Ok?)
    decreases |venvs|
  {
    if |venvs| > 0 && Subscript(venvs[0], "type").Ok? {
      OfTypeRaises(venvs[1..], tag);
      assert forall i :: 1 <= i < |venvs| ==> venvs[i] == venvs[1..][i - 1];
      if OfType(venvs, tag).Err? {
        var k :| 0 <= k < |venvs[1..]| && Subscript(venvs[1..][k], "type") == Err(OfType(venvs, tag).error) &&
          forall j :: 0 <= j < k ==> Subscript(venvs[1..][j], "type").Ok?;
        assert Subscript(venvs[k + 1], "type") == Err(OfType(venvs, tag).error);
      }
    }
  }

  /** The comprehension keeps exactly the venvs whose type is the tag, and no more of them than there are. */
  lemma {:induction false} OfTypeKeeps(venvs: seq<Json>, tag: string)
    requires OfType(venvs, tag).Ok?
    ensures |OfType(venvs, tag).value| <= |venvs|
    ensures forall v :: v in OfType(venvs, tag).value <==> v in venvs && Subscript(v, "type") == Ok(JStr(tag))
    decreases |venvs|
  {
    if |venvs| > 0 {
      OfTypeKeeps(venvs[1..], tag);
      assert forall v :: v in venvs <==> v == venvs[0] || v in venvs[1..];
    }
  }

  /** `__parse_venvs(config)`: the base packages, the regular venvs and the networking venvs. */
  function ParseVenvs(config: Json): Result<(Json, seq<Json>, seq<Json>)>
  {
    match Subscript(config, "base")
    case Err(e) => Err(e)
    case Ok(base) =>
      match Subscript(config, "venvs")
      case Err(e) => Err(e)
      case Ok(all) =>
        match Iterate(all)
        case Err(e) => Err(e)
        case Ok(venvs) =>
          match OfType(venvs, "regular")
          case Err(e) => Err(e)
          case Ok(regular) =>
            match OfType(venvs, "networking")
            case Err(e) => Err(e)
            case Ok(networking) => Ok((base, regular, networking))
  }

  /** What the comprehension keeps of one venv whose type can be read. */
  function Kept(v: Json, tag: string): seq<Json>
    requires Subscript(v, "type").Ok?
  {
    if Subscript(v, "type").value == JStr(tag) then [v] else []
  }

  /** The comprehension over a venv followed by more venvs. */
  lemma {:induction false} OfTypeCons(v: Json, rest: seq<Json>, tag: string)
    requires Subscript(v, "type").Ok? && OfType(rest, tag).Ok?
    ensures OfType([v] + rest, tag) == Ok(Kept(v, tag) + OfType(rest, tag).value)
  {
    var s := [v] + rest;
    assert s[0] == v && s[1..] == rest;
    assert [] + OfType(rest, tag).value == OfType(rest, tag).value;
  }

  /** Filtering keeps the order: the venvs of a concatenation are those of
      the first part followed by those of the second. */
  lemma {:induction false} OfTypeAppend(xs: seq<Json>, ys: seq<Json>, tag: string)
    requires OfType(xs, tag).Ok? && OfType(ys, tag).Ok?
    ensures OfType(xs + ys, tag) == Ok(OfType(xs, tag).value + OfType(ys, tag).value)
    decreases |xs|
  {
    if |xs| == 0 {
      var b := OfType(ys, tag).value;
      assert xs + ys == ys && xs == [];
      assert xs + b == b;
    } else {
      var x, rest := xs[0], xs[1..];
      assert xs == [x] + rest;
      OfTypeAppend(rest, ys, tag);
      OfTypeConsAppend(x, rest, ys, tag);
    }
  }

  /** The step of `OfTypeAppend`: one more venv in front of the first part. */
  lemma {:induction false} OfTypeConsAppend(x: Json, rest: seq<Json>, ys: seq<Json>, tag: string)
    requires Subscript(x, "type").Ok? && OfType(rest, tag).Ok? && OfType(ys, tag).Ok?
    requires OfType(rest + ys, tag) == Ok(OfType(rest, tag).value + OfType(ys, tag).value)
    ensures OfType([x] + rest + ys, tag) == Ok(OfType([x] + rest, tag).value + OfType(ys, tag).value)
  {
    OfTypeCons(x, rest, tag);
    assert [x] + rest + ys == [x] + (rest + ys);
    OfTypeCons(x, rest + ys, tag);
    var k, a, b := Kept(x, tag), OfType(rest, tag).value, OfType(ys, tag).value;
    assert k + (a + b) == (k + a) + b;
  }

  /** One venv is kept exactly when its type is the tag. */
  lemma {:induction false} OfTypeSingle(v: Json, tag: string)
    requires Subscript(v, "type").Ok?
    ensures OfType([v], tag) == Ok(if Subscript(v, "type").value == JStr(tag) then [v] else [])
  {
    assert [v][1..] == [];
    assert OfType([], tag) == Ok([]);
    assert [v] + [] == [v];
  }

  /** Two different tags split the venvs into disjoint parts that together
      are no longer than the list. */
  lemma {:induction false} OfTypeDisjoint(venvs: seq<Json>, a: string, b: string)
    requires a != b
    requires OfType(venvs, a).Ok?
    ensures OfType(venvs, b).Ok?
    ensures |OfType(venvs, a).value| + |OfType(venvs, b).value| <= |venvs|
    ensures forall v :: !(v in OfType(venvs, a).value && v in OfType(venvs, b).value)
    decreases |venvs|
  {
    OfTypeKeeps(venvs, a);
    if |venvs| > 0 {
      OfTypeDisjoint(venvs[1..], a, b);
    }
    OfTypeKeeps(venvs, b);
  }

  /** `__parse_venvs` returns the base unchanged and partitions the venvs:
      the regular list holds exactly the venvs of type "regular", the
      networking list exactly those of type "networking", no venv is in both,
      and a venv of any other type is in neither. */
  lemma {:induction false} ParseVenvsPartition(config: Json)
    requires ParseVenvs(config).Ok?
    ensures Subscript(config, "base") == Ok(ParseVenvs(config).value.0)
    ensures Subscript(config, "venvs").Ok? && Iterate(Subscript(config, "venvs").value).Ok?
    ensures var venvs := Iterate(Subscript(config, "venvs").value).value;
      var (_, regular, networking) := ParseVenvs(config).value;
      (forall v :: v in regular <==> v in venvs && Subscript(v, "type") == Ok(JStr("regular"))) &&
      (forall v :: v in networking <==> v in venvs && Subscript(v, "type") == Ok(JStr("networking"))) &&
      (forall v :: !(v in regular && v in networking)) &&
      |regular| + |networking| <= |venvs|
  {
    var venvs := Iterate(Subscript(config, "venvs").value).value;
    OfTypeDisjoint(venvs, "regular", "networking");
    OfTypeKeeps(venvs, "regular");
    OfTypeKeeps(venvs, "networking");
  }

  /** `__parse_venvs` raises exactly when "base" or "venvs" is missing, the
      venvs cannot be iterated, or some venv has no readable "type". */
  lemma {:induction false} ParseVenvsFails(config: Json)
    ensures ParseVenvs(config).Err? <==>
      Subscript(config, "base").Err? || Subscript(config, "venvs").Err? ||
      Iterate(Subscript(config, "venvs").value).Err? ||
      exists i :: 0 <= i < |Iterate(Subscript(config, "venvs").value).value| &&
        Subscript(Iterate(Subscript(config, "venvs").value).value[i], "type").Err?
  {
    if Subscript(config, "base").Ok? && Subscript(config, "venvs").Ok? &&
       Iterate(Subscript(config, "venvs").value).Ok? {
      var venvs := Iterate(Subscript(config, "venvs").value).value;
      OfTypeRaises(venvs, "regular");
      OfTypeRaises(venvs, "networking");
    }
  }

  // ---------------------------------------------------------------------
  // The steps of a run, as a function of the configuration and the tools.

  /** The map of report titles to outputs built for one venv. */
  function ReportsMap(install: InstallResult, freeze: string, check: string,
                      outdated: string, build: string): seq<(string, string)>
  {
    [(ReportTitles[0], install.report), (ReportTitles[1], install.errors),
     (ReportTitles[2], freeze), (ReportTitles[3], check),
     (ReportTitles[4], outdated), (ReportTitles[5], build)]
  }

  /** `install_packages(venv_path, packages)`: pip installs the packages (the
      `*packages` unpacking raises TypeError on a value that cannot be
      iterated), then the environment is made relocatable. */
  function InstallSteps(venvPath: string, packages: Json, tools: Tools): (seq<Step>, Result<InstallResult>)
  {
    match Iterate(packages)
    case Err(e) => ([], Err(e))
    case Ok(pkgs) => ([InstallPackages(venvPath, pkgs), MakeRelocatable(venvPath)], Ok(tools.install(venvPath, pkgs)))
  }

  /** `__create_base_venv(packages)`: the steps and the error that stops them. */
  function BaseSteps(basePath: string, packages: Json, tools: Tools): (seq<Step>, Option<PyError>)
  {
    var (installed, result) := InstallSteps(basePath, packages, tools);
    match result
    case Err(e) => ([CreateEnvironment(basePath)] + installed, Some(e))
    case Ok(_) =>
      ([CreateEnvironment(basePath)] + installed +
       [WriteFile(basePath + "/bin/activate", PatchActivate(tools.activateScript(basePath), basePath))], None)
  }

  /** `__create_from_base(venv_path, packages)`: copy the base, then install into the copy. */
  function FromBaseSteps(venvsPath: string, path: string, packages: Json, tools: Tools): (seq<Step>, Result<InstallResult>)
  {
    var (installed, result) := InstallSteps(path, packages, tools);
    ([CopyTree(BasePath(venvsPath), path)] + installed, result)
  }

  /** What `__generate_venvs` does for a venv once it is installed: audit,
      pack, and save the report of the six outputs. */
  function FinishSteps(venvsPath: string, name: string, install: InstallResult, tools: Tools, generatedAt: string): seq<Step>
  {
    var path := venvsPath + "/" + name;
    var reports := ReportsMap(install, tools.freeze(path), tools.check(path), tools.outdated(path),
                              tools.packer(venvsPath, name));
    [Audit(path), Pack(venvsPath, name), SaveReport(venvsPath + "/reports", name, reports, install.exitcode, generatedAt)]
  }

  /** What `__generate_venvs` does for a venv once it has its name and its
      packages: copy the base, install, audit, pack, report. */
  function BuildSteps(venvsPath: string, name: Json, packages: Json, tools: Tools, generatedAt: string): (seq<Step>, Option<PyError>)
  {
    var (copied, result) := FromBaseSteps(venvsPath, venvsPath + "/" + Str(name), packages, tools);
    match result
    case Err(e) => (copied, Some(e))
    case Ok(install) => (copied + FinishSteps(venvsPath, Str(name), install, tools, generatedAt), None)
  }

  /** One turn of the loop in `__generate_venvs`: the name is read first (for
      the path), then the packages. */
  function VenvSteps(venvsPath: string, venv: Json, tools: Tools, generatedAt: string): (seq<Step>, Option<PyError>)
  {
    match Subscript(venv, "name")
    case Err(e) => ([], Some(e))
    case Ok(name) =>
      match Subscript(venv, "packages")
      case Err(e) => ([], Some(e))
      case Ok(packages) => BuildSteps(venvsPath, name, packages, tools, generatedAt)
  }

  /** The outcome of one turn of a loop: the steps it took and the error that ended it. */
  type Turn = Json -> (seq<Step>, Option<PyError>)

  /** The turn `__generate_venvs` takes for each venv. */
  function VenvTurn(venvsPath: string, tools: Tools, generatedAt: string): Turn
  {
    venv => VenvSteps(venvsPath, venv, tools, generatedAt)
  }

  /** A loop over `venvs` that stops at the first error: the steps of every
      turn taken, in list order, and the error that ended the loop. */
  function GenerateSteps(venvs: seq<Json>, turn: Turn): (seq<Step>, Option<PyError>)
    decreases |venvs|
  {
    if |venvs| == 0 then ([], None)
    else
      var (first, err) := turn(venvs[0]);
      if err.Some? then (first, err)
      else
        var (rest, err') := GenerateSteps(venvs[1..], turn);
        (first + rest, err')
  }

  /** `run()` after the configuration has been read. */
  function RunSteps(venvsPath: string, config: Json, tools: Tools, generatedAt: string): (seq<Step>, Option<PyError>)
  {
    match ParseVenvs(config)
    case Err(e) => ([], Some(e))
    case Ok((base, regular, networking)) =>
      var (b, errB) := BaseSteps(BasePath(venvsPath), base, tools);
      if errB.Some? then (b, errB)
      else
        var (r, errR) := GenerateSteps(regular, VenvTurn(venvsPath, tools, generatedAt));
        if errR.Some? then (b + r, errR)
        else
          var (n, errN) := GenerateSteps(networking, VenvTurn(venvsPath, tools, generatedAt));
          (b + r + n, errN)
  }

  /** The steps of a list followed by one more venv, when the list went through. */
  lemma {:induction false} GenerateStepsAppend(venvs: seq<Json>, venv: Json, turn: Turn)
    requires GenerateSteps(venvs, turn).1 == None
    ensures GenerateSteps(venvs + [venv], turn) ==
      (GenerateSteps(venvs, turn).0 + turn(venv).0, turn(venv).1)
    decreases |venvs|
  {
    if |venvs| > 0 {
      assert (venvs + [venv])[0] == venvs[0];
      assert (venvs + [venv])[1..] == venvs[1..] + [venv];
      GenerateStepsAppend(venvs[1..], venv, turn);
      var first, mid, last := turn(venvs[0]).0, GenerateSteps(venvs[1..], turn).0, turn(venv).0;
      assert first + (mid + last) == (first + mid) + last;
    } else {
      assert venvs + [venv] == [venv];
      assert [venv][1..] == [];
      assert turn(venv).0 + [] == turn(venv).0 && [] + turn(venv).0 == turn(venv).0;
    }
  }

  /** After an error, later venvs add nothing. */
  lemma {:induction false} GenerateStepsStops(venvs: seq<Json>, more: seq<Json>, turn: Turn)
    requires GenerateSteps(venvs, turn).1.Some?
    ensures GenerateSteps(venvs + more, turn) == GenerateSteps(venvs, turn)
    decreases |venvs|
  {
    assert |venvs| > 0;
    assert (venvs + more)[0] == venvs[0];
    if turn(venvs[0]).1.None? {
      assert (venvs + more)[1..] == venvs[1..] + more;
      GenerateStepsStops(venvs[1..], more, turn);
    }
  }

  /** One more turn of the loop over `venvs`, after `i` turns without error. */
  lemma {:induction false} GenerateStepsNext(venvs: seq<Json>, i: nat, turn: Turn)
    requires i < |venvs| && GenerateSteps(venvs[..i], turn).1 == None
    ensures GenerateSteps(venvs[..i + 1], turn) ==
      (GenerateSteps(venvs[..i], turn).0 + turn(venvs[i]).0, turn(venvs[i]).1)
  {
    var done, next := venvs[..i], venvs[..i + 1];
    assert next == done + [venvs[i]];
    GenerateStepsAppend(done, venvs[i], turn);
  }

  /** A loop over `venvs` that failed in its first `i` turns has failed for good. */
  lemma {:induction false} GenerateStepsFailed(venvs: seq<Json>, i: nat, turn: Turn)
    requires i <= |venvs| && GenerateSteps(venvs[..i], turn).1.Some?
    ensures GenerateSteps(venvs, turn) == GenerateSteps(venvs[..i], turn)
  {
    var done, more := venvs[..i], venvs[i..];
    GenerateStepsStops(done, more, turn);
    assert done + more == venvs;
  }

  lemma {:induction false} AppendAssoc(a: seq<Step>, b: seq<Step>, c: seq<Step>)
    ensures a + b + c == a + (b + c)
  {
  }

  // ---------------------------------------------------------------------
  // What a run does, proved on the step functions.

  /** The patched activate script: every occurrence of the hard-coded line,
      found left to right without overlap, is replaced by the fix; the text
      between occurrences is kept as it is; a script without the line comes
      back unchanged. */
  lemma {:induction false} PatchActivateSpec(content: string, basePath: string)
    ensures var line := ActivationLine(basePath);
      var pieces := Strings.Split(content, line);
      PatchActivate(content, basePath) == Strings.Join(pieces, BashActivationFix) &&
      Strings.Join(pieces, line) == content &&
      Strings.Leftmost(pieces, line) &&
      (!Strings.Occurs(content, line) ==> PatchActivate(content, basePath) == content)
  {
    var line := ActivationLine(basePath);
    Strings.ReplaceIsJoinOfSplit(content, line, BashActivationFix);
    Strings.SplitJoinRoundTrip(content, line);
    Strings.SplitIsLeftmost(content, line);
    if !Strings.Occurs(content, line) {
      Strings.ReplaceWithoutOccurrence(content, line, BashActivationFix);
    }
  }

  /** The base is created, filled and made relocatable, and its activate
      script rewritten with the fix, exactly when its packages can be unpacked. */
  lemma {:induction false} BaseStepsLayout(basePath: string, packages: Json, tools: Tools)
    ensures BaseSteps(basePath, packages, tools).1.None? <==> Iterate(packages).Ok?
    ensures var steps := BaseSteps(basePath, packages, tools).0;
      |steps| >= 1 && steps[0] == CreateEnvironment(basePath) &&
      (forall k :: 0 <= k < |steps| ==> !steps[k].CopyTree?)
    ensures Iterate(packages).Err? ==>
      BaseSteps(basePath, packages, tools) == ([CreateEnvironment(basePath)], Some(TypeError))
    ensures Iterate(packages).Ok? ==>
      var steps := BaseSteps(basePath, packages, tools).0;
      |steps| == 4 &&
      steps[1] == InstallPackages(basePath, Iterate(packages).value) &&
      steps[2] == MakeRelocatable(basePath) &&
      steps[3] == WriteFile(basePath + "/bin/activate", PatchActivate(tools.activateScript(basePath), basePath))
  {
    if Iterate(packages).Err? {
      assert [CreateEnvironment(basePath)] + [] == [CreateEnvironment(basePath)];
    }
  }

  /** The path a venv's report is saved to: the reports directory of the
      venvs holds a second `reports` directory. */
  lemma {:induction false} ReportPath(venvsPath: string, name: string, reports: seq<(string, string)>,
                                      exitcode: int, generatedAt: string)
    ensures SavedDocument(SaveReport(venvsPath + "/reports", name, reports, exitcode, generatedAt)).path ==
      venvsPath + "/reports/reports/" + name + ".md"
  {
    var dir := venvsPath + "/reports";
    assert dir + "/reports" + "/" + name + ".md" == venvsPath + "/reports/reports/" + name + ".md";
  }

  /** A venv whose name and packages can be read and whose packages can be
      unpacked is built in six steps: copied from the base, filled, made
      relocatable, audited, packed and reported on, with the six report titles
      in order, each over its own tool's output, and the exit code of the
      installation. */
  lemma {:induction false} VenvStepsBuilt(venvsPath: string, venv: Json, tools: Tools, generatedAt: string)
    requires Subscript(venv, "name").Ok? && Subscript(venv, "packages").Ok?
    requires Iterate(Subscript(venv, "packages").value).Ok?
    ensures var (steps, err) := VenvSteps(venvsPath, venv, tools, generatedAt);
      var name := Str(Subscript(venv, "name").value);
      var path := venvsPath + "/" + name;
      var pkgs := Iterate(Subscript(venv, "packages").value).value;
      err == None && |steps| == 6 &&
      steps[0] == CopyTree(BasePath(venvsPath), path) &&
      steps[1] == InstallPackages(path, pkgs) &&
      steps[2] == MakeRelocatable(path) &&
      steps[3] == Audit(path) &&
      steps[4] == Pack(venvsPath, name) &&
      steps[5].SaveReport? && steps[5].venvName == name &&
      SavedDocument(steps[5]).path == venvsPath + "/reports/reports/" + name + ".md" &&
      |steps[5].reports| == |ReportTitles| &&
      (forall k :: 0 <= k < |ReportTitles| ==> steps[5].reports[k].0 == ReportTitles[k]) &&
      steps[5].reports[0].1 == tools.install(path, pkgs).report &&
      steps[5].reports[1].1 == tools.install(path, pkgs).errors &&
      steps[5].reports[2].1 == tools.freeze(path) &&
      steps[5].reports[3].1 == tools.check(path) &&
      steps[5].reports[4].1 == tools.outdated(path) &&
      steps[5].reports[5].1 == tools.packer(venvsPath, name) &&
      steps[5].exitcode == tools.install(path, pkgs).exitcode
  {
    var name := Str(Subscript(venv, "name").value);
    var path := venvsPath + "/" + name;
    var install := tools.install(path, Iterate(Subscript(venv, "packages").value).value);
    var reports := ReportsMap(install, tools.freeze(path), tools.check(path), tools.outdated(path),
                              tools.packer(venvsPath, name));
    ReportPath(venvsPath, name, reports, install.exitcode, generatedAt);
  }

  /** A venv that cannot be read or unpacked stops the loop with the error of
      the first lookup that failed; nothing is built but, at most, the copy of
      the base. */
  lemma {:induction false} VenvStepsFailed(venvsPath: string, venv: Json, tools: Tools, generatedAt: string)
    ensures var (steps, err) := VenvSteps(venvsPath, venv, tools, generatedAt);
      (err.Some? <==> Subscript(venv, "name").Err? || Subscript(venv, "packages").Err? ||
                      Iterate(Subscript(venv, "packages").value).Err?) &&
      (Subscript(venv, "name").Err? ==> steps == [] && err == Some(Subscript(venv, "name").error)) &&
      (Subscript(venv, "name").Ok? && Subscript(venv, "packages").Err? ==>
        steps == [] && err == Some(Subscript(venv, "packages").error)) &&
      (Subscript(venv, "name").Ok? && Subscript(venv, "packages").Ok? &&
       Iterate(Subscript(venv, "packages").value).Err? ==>
        steps == [CopyTree(BasePath(venvsPath), venvsPath + "/" + Str(Subscript(venv, "name").value))] &&
        err == Some(TypeError))
  {
  }

  /** Every copy a turn makes copies the base. */
  lemma {:induction false} VenvStepsCopyBase(venvsPath: string, venv: Json, tools: Tools, generatedAt: string)
    ensures var steps := VenvSteps(venvsPath, venv, tools, generatedAt).0;
      forall k :: 0 <= k < |steps| && steps[k].CopyTree? ==> steps[k].src == BasePath(venvsPath)
  {
    if Subscript(venv, "name").Ok? && Subscript(venv, "packages").Ok? &&
       Iterate(Subscript(venv, "packages").value).Ok? {
      VenvStepsBuilt(venvsPath, venv, tools, generatedAt);
    } else {
      VenvStepsFailed(venvsPath, venv, tools, generatedAt);
    }
  }

  /** The steps of a loop are the steps of its turns: each step comes from the
      turn of some venv, and when no turn failed, every step of every turn is
      there. The loop fails exactly when some turn fails. */
  lemma {:induction false} GenerateStepsTurns(venvs: seq<Json>, turn: Turn)
    ensures var (steps, err) := GenerateSteps(venvs, turn);
      (err.None? <==> forall i :: 0 <= i < |venvs| ==> turn(venvs[i]).1.None?) &&
      (forall s :: s in steps ==> exists i :: 0 <= i < |venvs| && s in turn(venvs[i]).0) &&
      (err.None? ==> forall i, s :: 0 <= i < |venvs| && s in turn(venvs[i]).0 ==> s in steps)
    decreases |venvs|
  {
    if |venvs| > 0 {
      var rest := venvs[1..];
      GenerateStepsTurns(rest, turn);
      assert forall i :: 1 <= i < |venvs| ==> venvs[i] == rest[i - 1];
      var (steps, err) := GenerateSteps(venvs, turn);
      if turn(venvs[0]).1.None? {
        var (more, err') := GenerateSteps(rest, turn);
        assert steps == turn(venvs[0]).0 + more;
        forall s | s in steps ensures exists i :: 0 <= i < |venvs| && s in turn(venvs[i]).0 {
          if s !in turn(venvs[0]).0 {
            var i :| 0 <= i < |rest| && s in turn(rest[i]).0;
            assert s in turn(venvs[i + 1]).0;
          }
        }
        if err.None? {
          forall i, s | 0 <= i < |venvs| && s in turn(venvs[i]).0 ensures s in steps {
            if i > 0 {
              assert s in turn(rest[i - 1]).0;
            }
          }
        }
      }
    }
  }

  /** Every copy in a loop over venvs copies the base. */
  lemma {:induction false} GenerateStepsCopyBase(venvsPath: string, venvs: seq<Json>, tools: Tools, generatedAt: string)
    ensures var steps := GenerateSteps(venvs, VenvTurn(venvsPath, tools, generatedAt)).0;
      forall s :: s in steps && s.CopyTree? ==> s.src == BasePath(venvsPath)
  {
    var turn := VenvTurn(venvsPath, tools, generatedAt);
    GenerateStepsTurns(venvs, turn);
    forall s | s in GenerateSteps(venvs, turn).0 && s.CopyTree? ensures s.src == BasePath(venvsPath) {
      var i :| 0 <= i < |venvs| && s in turn(venvs[i]).0;
      VenvStepsCopyBase(venvsPath, venvs[i], tools, generatedAt);
      var steps := VenvSteps(venvsPath, venvs[i], tools, generatedAt).0;
      assert s in steps;
      var k :| 0 <= k < |steps| && steps[k] == s;
    }
  }

  /** `run()` on a configuration it can parse: the base first, then the
      regular venvs, then the networking venvs, each loop starting only when
      everything before it went through; a configuration it cannot parse
      does nothing and raises. */
  lemma {:induction false} RunLayout(venvsPath: string, config: Json, tools: Tools, generatedAt: string)
    ensures ParseVenvs(config).Err? ==> RunSteps(venvsPath, config, tools, generatedAt) == ([], Some(ParseVenvs(config).error))
    ensures ParseVenvs(config).Ok? ==>
      var (base, regular, networking) := ParseVenvs(config).value;
      var turn := VenvTurn(venvsPath, tools, generatedAt);
      var (b, errB) := BaseSteps(BasePath(venvsPath), base, tools);
      var (r, errR) := GenerateSteps(regular, turn);
      var (steps, err) := RunSteps(venvsPath, config, tools, generatedAt);
      (errB.Some? ==> steps == b && err == errB) &&
      (errB.None? && errR.Some? ==> steps == b + r && err == errR) &&
      (errB.None? && errR.None? ==>
        steps == b + r + GenerateSteps(networking, turn).0 && err == GenerateSteps(networking, turn).1) &&
      (err.None? <==> errB.None? && errR.None? && GenerateSteps(networking, turn).1.None?)
  {
  }

  /** The base is created first and patched before any venv is copied from
      it, and every venv is a copy of the base. */
  lemma {:induction false} RunBaseFirst(venvsPath: string, config: Json, tools: Tools, generatedAt: string)
    requires ParseVenvs(config).Ok?
    ensures var steps := RunSteps(venvsPath, config, tools, generatedAt).0;
      var basePath := BasePath(venvsPath);
      |steps| >= 1 && steps[0] == CreateEnvironment(basePath) &&
      (forall s :: s in steps && s.CopyTree? ==> s.src == basePath) &&
      ((exists s :: s in steps && s.CopyTree?) ==>
        |steps| >= 4 && steps[3] == WriteFile(basePath + "/bin/activate",
          PatchActivate(tools.activateScript(basePath), basePath)))
    ensures var steps := RunSteps(venvsPath, config, tools, generatedAt).0;
      forall k :: 0 <= k < |steps| && steps[k].CopyTree? ==> 3 < k
  {
    var (base, regular, networking) := ParseVenvs(config).value;
    var basePath := BasePath(venvsPath);
    var turn := VenvTurn(venvsPath, tools, generatedAt);
    var (b, errB) := BaseSteps(basePath, base, tools);
    var r := GenerateSteps(regular, turn).0;
    var n := GenerateSteps(networking, turn).0;
    var steps := RunSteps(venvsPath, config, tools, generatedAt).0;
    BaseStepsLayout(basePath, base, tools);
    GenerateStepsCopyBase(venvsPath, regular, tools, generatedAt);
    GenerateStepsCopyBase(venvsPath, networking, tools, generatedAt);
    RunLayout(venvsPath, config, tools, generatedAt);
    assert steps[0] == b[0];
    if errB.Some? {
      assert steps == b;
    } else {
      assert steps == b + r || steps == b + r + n;
      assert forall s :: s in steps ==> s in b || s in r || s in n;
      assert steps[3] == b[3];
    }
    assert |b| <= |steps| && steps[..|b|] == b;
    forall k | 0 <= k < |b| ensures !steps[k].CopyTree? {
      assert steps[k] == b[k];
    }
  }

  /** A run that went through built and reported on every venv of either type. */
  lemma {:induction false} RunReportsEveryVenv(venvsPath: string, config: Json, tools: Tools, generatedAt: string)
    requires ParseVenvs(config).Ok? && RunSteps(venvsPath, config, tools, generatedAt).1.None?
    ensures var (_, regular, networking) := ParseVenvs(config).value;
      var steps := RunSteps(venvsPath, config, tools, generatedAt).0;
      forall v :: v in regular + networking ==>
        Subscript(v, "name").Ok? &&
        var name := Str(Subscript(v, "name").value);
        Pack(venvsPath, name) in steps &&
        exists s :: s in steps && s.SaveReport? && s.venvName == name &&
          SavedDocument(s).path == venvsPath + "/reports/reports/" + name + ".md"
  {
    var (base, regular, networking) := ParseVenvs(config).value;
    var turn := VenvTurn(venvsPath, tools, generatedAt);
    var b := BaseSteps(BasePath(venvsPath), base, tools).0;
    var r := GenerateSteps(regular, turn).0;
    var n := GenerateSteps(networking, turn).0;
    var steps := RunSteps(venvsPath, config, tools, generatedAt).0;
    RunLayout(venvsPath, config, tools, generatedAt);
    assert steps == b + r + n;
    GenerateStepsTurns(regular, turn);
    GenerateStepsTurns(networking, turn);
    forall v | v in regular + networking
      ensures Subscript(v, "name").Ok?
      ensures var name := Str(Subscript(v, "name").value);
        Pack(venvsPath, name) in steps &&
        exists s :: s in steps && s.SaveReport? && s.venvName == name &&
          SavedDocument(s).path == venvsPath + "/reports/reports/" + name + ".md"
    {
      var vs := if v in regular then regular else networking;
      var i :| 0 <= i < |vs| && vs[i] == v;
      assert turn(vs[i]).1.None?;
      VenvReported(venvsPath, v, tools, generatedAt);
      var own := VenvSteps(venvsPath, v, tools, generatedAt).0;
      assert forall s :: s in own ==> s in turn(vs[i]).0;
    }
  }

  /** A turn that went through packs the venv and saves its report. */
  lemma {:induction false} VenvReported(venvsPath: string, venv: Json, tools: Tools, generatedAt: string)
    requires VenvSteps(venvsPath, venv, tools, generatedAt).1.None?
    ensures Subscript(venv, "name").Ok?
    ensures var steps := VenvSteps(venvsPath, venv, tools, generatedAt).0;
      var name := Str(Subscript(venv, "name").value);
      Pack(venvsPath, name) in steps &&
      exists s :: s in steps && s.SaveReport? && s.venvName == name &&
        SavedDocument(s).path == venvsPath + "/reports/reports/" + name + ".md"
  {
    VenvStepsFailed(venvsPath, venv, tools, generatedAt);
    VenvStepsBuilt(venvsPath, venv, tools, generatedAt);
    var steps := VenvSteps(venvsPath, venv, tools, generatedAt).0;
    assert steps[4] in steps && steps[5] in steps;
  }

  // ---------------------------------------------------------------------
  // The generator object.

  class VenvCtl {
    var configFile: string
    var venvsPath: string
    var baseVenvPath: string
    /** The side effects performed so far, oldest first. */
    var trace: seq<Step>

    ghost predicate Valid()
      reads this
    {
      baseVenvPath == BasePath(venvsPath)
    }

    /** `__init__`: the environments live in `<cwd>/python-venvs`, the base in its `base` directory. */
    constructor (configFile: string, cwd: string)
      ensures Valid()
      ensures this.configFile == configFile
      ensures venvsPath == cwd + "/python-venvs" && baseVenvPath == venvsPath + "/base"
      ensures trace == []
    {
      this.configFile := configFile;
      venvsPath := VenvsPath(cwd);
      baseVenvPath := BasePath(VenvsPath(cwd));
      trace := [];
    }

    /** `install_packages(venv_path, packages)`: install, then make relocatable. */
    method InstallPackagesInto(venvPath: string, packages: Json, tools: Tools) returns (result: Result<InstallResult>)
      modifies this`trace
      ensures trace == old(trace) + InstallSteps(venvPath, packages, tools).0
      ensures result == InstallSteps(venvPath, packages, tools).1
    {
      var pkgs := Iterate(packages);
      if pkgs.Err? {
        return Err(pkgs.error);
      }
      result := Ok(tools.install(venvPath, pkgs.value));
      trace := trace + [InstallPackages(venvPath, pkgs.value), MakeRelocatable(venvPath)];
    }

    /** `__create_base_venv(packages)`: create the base, install into it,
        make it relocatable and patch its activate script. */
    method CreateBaseVenv(packages: Json, tools: Tools) returns (err: Option<PyError>)
      requires Valid()
      ensures Valid()
      modifies this`trace
      ensures trace == old(trace) + BaseSteps(baseVenvPath, packages, tools).0
      ensures err == BaseSteps(baseVenvPath, packages, tools).1
    {
      trace := trace + [CreateEnvironment(baseVenvPath)];
      var result := InstallPackagesInto(baseVenvPath, packages, tools);
      if result.Err? {
        return Some(result.error);
      }
      var content := tools.activateScript(baseVenvPath);
      content := Strings.Replace(content, ActivationLine(baseVenvPath), BashActivationFix);
      trace := trace + [WriteFile(baseVenvPath + "/bin/activate", content)];
      err := None;
    }

    /** `__create_from_base(venv_path, packages)`. */
    method CreateFromBase(path: string, packages: Json, tools: Tools) returns (result: Result<InstallResult>)
      requires Valid()
      ensures Valid()
      modifies this`trace
      ensures trace == old(trace) + FromBaseSteps(venvsPath, path, packages, tools).0
      ensures result == FromBaseSteps(venvsPath, path, packages, tools).1
    {
      trace := trace + [CopyTree(baseVenvPath, path)];
      result := InstallPackagesInto(path, packages, tools);
    }

    /** `venv_audit(venv_path)`: pip freeze, pip check and the outdated packages. */
    method VenvAudit(path: string, tools: Tools) returns (freeze: string, check: string, outdated: string)
      modifies this`trace
      ensures trace == old(trace) + [Audit(path)]
      ensures freeze == tools.freeze(path) && check == tools.check(path) && outdated == tools.outdated(path)
    {
      freeze, check, outdated := tools.freeze(path), tools.check(path), tools.outdated(path);
      trace := trace + [Audit(path)];
    }

    /** The body of `__generate_venvs`'s loop after the venv's name and packages are read. */
    method BuildVenv(name: Json, packages: Json, tools: Tools, generatedAt: string) returns (err: Option<PyError>)
      requires Valid()
      ensures Valid()
      modifies this`trace
      ensures trace == old(trace) + BuildSteps(venvsPath, name, packages, tools, generatedAt).0
      ensures err == BuildSteps(venvsPath, name, packages, tools, generatedAt).1
    {
      var path := venvsPath + "/" + Str(name);
      var result := CreateFromBase(path, packages, tools);
      if result.Err? {
        return Some(result.error);
      }
      ghost var copied := trace;
      var install := result.value;
      var freeze, check, outdated := VenvAudit(path, tools);
      var build := tools.packer(venvsPath, Str(name));
      trace := trace + [Pack(venvsPath, Str(name))];
      var reports := ReportsMap(install, freeze, check, outdated, build);
      var doc := Reports.GenerateReports(venvsPath + "/reports", Str(name), reports, install.exitcode, generatedAt);
      var step := SaveReport(venvsPath + "/reports", Str(name), reports, install.exitcode, generatedAt);
      assert doc == SavedDocument(step);
      trace := trace + [step];
      assert trace == copied + FinishSteps(venvsPath, Str(name), install, tools, generatedAt);
      err := None;
    }

    /** One venv of `__generate_venvs`: read its name and its packages, then build it. */
    method GenerateVenv(venv: Json, tools: Tools, generatedAt: string) returns (err: Option<PyError>)
      requires Valid()
      ensures Valid()
      modifies this`trace
      ensures trace == old(trace) + VenvTurn(venvsPath, tools, generatedAt)(venv).0
      ensures err == VenvTurn(venvsPath, tools, generatedAt)(venv).1
    {
      var name := Subscript(venv, "name");
      if name.Err? {
        return Some(name.error);
      }
      var packages := Subscript(venv, "packages");
      if packages.Err? {
        return Some(packages.error);
      }
      err := BuildVenv(name.value, packages.value, tools, generatedAt);
    }

    /** `__generate_venvs(venvs)`: the venvs in list order; an error ends the loop. */
    method GenerateVenvs(venvs: seq<Json>, tools: Tools, generatedAt: string) returns (err: Option<PyError>)
      requires Valid()
      ensures Valid()
      modifies this`trace
      ensures trace == old(trace) + GenerateSteps(venvs, VenvTurn(venvsPath, tools, generatedAt)).0
      ensures err == GenerateSteps(venvs, VenvTurn(venvsPath, tools, generatedAt)).1
    {
      err := None;
      ghost var turn := VenvTurn(venvsPath, tools, generatedAt);
      var i := 0;
      while i < |venvs|
        invariant 0 <= i <= |venvs|
        invariant trace == old(trace) + GenerateSteps(venvs[..i], turn).0
        invariant GenerateSteps(venvs[..i], turn).1 == None
        invariant err == None
      {
        ghost var done := GenerateSteps(venvs[..i], turn).0;
        GenerateStepsNext(venvs, i, turn);
        err := GenerateVenv(venvs[i], tools, generatedAt);
        AppendAssoc(old(trace), done, turn(venvs[i]).0);
        if err.Some? {
          GenerateStepsFailed(venvs, i + 1, turn);
          return;
        }
        i := i + 1;
      }
      assert venvs[..i] == venvs;
    }

    /** `run()` on the parsed configuration: parse, create the base, then the
        regular venvs, then the networking venvs. */
    method Run(config: Json, tools: Tools, generatedAt: string) returns (err: Option<PyError>)
      requires Valid()
      ensures Valid()
      modifies this`trace
      ensures trace == old(trace) + RunSteps(venvsPath, config, tools, generatedAt).0
      ensures err == RunSteps(venvsPath, config, tools, generatedAt).1
    {
      var parsed := ParseVenvs(config);
      if parsed.Err? {
        return Some(parsed.error);
      }
      var (base, regular, networking) := parsed.value;
      ghost var turn := VenvTurn(venvsPath, tools, generatedAt);
      ghost var b := BaseSteps(baseVenvPath, base, tools);
      ghost var r := GenerateSteps(regular, turn);
      ghost var n := GenerateSteps(networking, turn);
      assert RunSteps(venvsPath, config, tools, generatedAt) ==
        if b.1.Some? then b else if r.1.Some? then (b.0 + r.0, r.1) else (b.0 + r.0 + n.0, n.1);
      err := CreateBaseVenv(base, tools);
      if err.Some? {
        return;
      }
      err := GenerateVenvs(regular, tools, generatedAt);
      AppendAssoc(old(trace), b.0, r.0);
      if err.Some? {
        return;
      }
      err := GenerateVenvs(networking, tools, generatedAt);
      AppendAssoc(old(trace), b.0 + r.0, n.0);
    }
  }
}

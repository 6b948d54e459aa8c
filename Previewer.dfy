/**
 * previewer.py: starting a live preview server for a set of generated files
 * inside a sandbox. `detect_server_type` classifies the files;
 * `start_live_preview` settles the server type, installs the dependencies
 * that type needs (npm with one retry, poetry with pip as the fallback, or
 * pip), derives the start command, launches it in the background and asks
 * the sandbox for the public host of the port.
 *
 * The files are a dictionary whose iteration order matters (the FastAPI
 * entry file is the first suitable key), so they are an ordered list of
 * (name, content) pairs with distinct names.
 */
module Previewer {
  import opened Wrappers
  import opened Text
  import opened ShellWords
  import opened Sandbox

  // ---------------------------------------------------------------------------
  // The files dictionary

  predicate DistinctNames(files: seq<(string, string)>) {
    forall i, j | 0 <= i < j < |files| :: files[i].0 != files[j].0
  }

  /** `Dict[str, str]` in insertion order. */
  type Files = files: seq<(string, string)> | DistinctNames(files)

  /** `name in files` */
  function HasName(files: seq<(string, string)>, name: string): (r: bool)
    ensures r <==> exists i | 0 <= i < |files| :: files[i].0 == name
  {
    if files == [] then false
    else files[0].0 == name || HasName(files[1..], name)
  }

  /** `files.get(name, default)` */
  function Get(files: seq<(string, string)>, name: string, default: string): (r: string)
    ensures (forall i | 0 <= i < |files| :: files[i].0 != name) ==> r == default
    ensures forall i | 0 <= i < |files| && files[i].0 == name && forall j | 0 <= j < i :: files[j].0 != name
              :: r == files[i].1
  {
    if files == [] then default
    else if files[0].0 == name then files[0].1
    else
      var r := Get(files[1..], name, default);
      assert forall i | 1 <= i < |files| :: files[i] == files[1..][i - 1];
      r
  }

  // ---------------------------------------------------------------------------
  // detect_server_type

  datatype ServerType = Static | NodeJs | FastApi

  /** The name `start_live_preview` uses for each server type. */
  function TypeName(t: ServerType): string {
    match t
    case Static => "static"
    case NodeJs => "nodejs"
    case FastApi => "fastapi"
  }

  const SupportedTypes: seq<string> := ["static", "nodejs", "fastapi"]

  /** A `.py` file with content that mentions FastAPI or uvicorn, in any letter case. */
  predicate IsFastApiSource(name: string, content: string) {
    EndsWith(name, ".py") && content != []
    && (Contains(Lower(content), "fastapi") || Contains(Lower(content), "uvicorn"))
  }

  /** The scan over `files.items()` that returns 'fastapi' at the first FastAPI source. */
  function ScanForFastApi(files: seq<(string, string)>): (r: bool)
    ensures r <==> exists i | 0 <= i < |files| :: IsFastApiSource(files[i].0, files[i].1)
  {
    if files == [] then false
    else if IsFastApiSource(files[0].0, files[0].1) then true
    else
      var r := ScanForFastApi(files[1..]);
      assert forall i | 1 <= i < |files| :: files[i] == files[1..][i - 1];
      r
  }

  /** `name.endswith(tuple(suffixes))` */
  function EndsWithAny(name: string, suffixes: seq<string>): (r: bool)
    ensures r <==> exists k | 0 <= k < |suffixes| :: EndsWith(name, suffixes[k])
  {
    if suffixes == [] then false
    else EndsWith(name, suffixes[0]) || EndsWithAny(name, suffixes[1..])
  }

  /** Some file name ends with one of the suffixes. */
  function AnyNameEndsWith(files: seq<(string, string)>, suffixes: seq<string>): (r: bool)
    ensures r <==> exists i | 0 <= i < |files| :: EndsWithAny(files[i].0, suffixes)
  {
    if files == [] then false
    else EndsWithAny(files[0].0, suffixes) || AnyNameEndsWith(files[1..], suffixes)
  }

  const HtmlExtensions: seq<string> := [".html", ".htm"]
  const WebExtensions: seq<string> := [".css", ".js", ".jsx", ".ts", ".tsx"]

  /**
   * `detect_server_type`: the first rule that applies, in order: a FastAPI
   * source, then a 'package.json', then an HTML page, then another web
   * asset; no type when none applies.
   */
  function DetectServerType(files: Files): (r: Option<ServerType>)
    ensures files == [] ==> r.None?
    ensures r == Some(FastApi) <==> exists i | 0 <= i < |files| :: IsFastApiSource(files[i].0, files[i].1)
    ensures r == Some(NodeJs) <==>
              (forall i | 0 <= i < |files| :: !IsFastApiSource(files[i].0, files[i].1))
              && exists i | 0 <= i < |files| :: files[i].0 == "package.json"
    ensures r == Some(Static) <==>
              (forall i | 0 <= i < |files| :: !IsFastApiSource(files[i].0, files[i].1) && files[i].0 != "package.json")
              && exists i | 0 <= i < |files| ::
                   EndsWithAny(files[i].0, HtmlExtensions) || EndsWithAny(files[i].0, WebExtensions)
    ensures r.None? <==>
              forall i | 0 <= i < |files| ::
                && !IsFastApiSource(files[i].0, files[i].1) && files[i].0 != "package.json"
                && !EndsWithAny(files[i].0, HtmlExtensions) && !EndsWithAny(files[i].0, WebExtensions)
  {
    if files == [] then None
    else if ScanForFastApi(files) then Some(FastApi)
    else if HasName(files, "package.json") then Some(NodeJs)
    else if AnyNameEndsWith(files, HtmlExtensions) then Some(Static)
    else if AnyNameEndsWith(files, WebExtensions) then Some(Static)
    else None
  }

  /**
   * An instance of the order in `DetectServerType`'s contract: a FastAPI
   * source decides the type even next to a 'package.json', and the match
   * ignores letter case.
   */
  lemma FastApiBeforePackageJson()
    ensures DetectServerType([("package.json", "{}"), ("main.py", "FastAPI")]) == Some(FastApi)
  {
    var files: Files := [("package.json", "{}"), ("main.py", "FastAPI")];
    assert EndsWith("main.py", ".py") by { assert "main.py"[4..] == ".py"; }
    var lowered := Lower("FastAPI");
    assert lowered == "fastapi" by {
      assert LowerChar('F') == 'f' && LowerChar('A') == 'a' && LowerChar('P') == 'p' && LowerChar('I') == 'i';
    }
    ContainsWitness(lowered, "fastapi", 0);
    assert IsFastApiSource(files[1].0, files[1].1);
    assert ScanForFastApi(files);
  }

  // ---------------------------------------------------------------------------
  // Settling the server type

  /** The server type a supported name stands for. */
  function ParseType(name: string): (r: Option<ServerType>)
    ensures r.Some? <==> name in SupportedTypes
    ensures r.Some? ==> TypeName(r.value) == name
  {
    if name == "static" then Some(Static)
    else if name == "nodejs" then Some(NodeJs)
    else if name == "fastapi" then Some(FastApi)
    else None
  }

  lemma ParseTypeName(t: ServerType)
    ensures ParseType(TypeName(t)) == Some(t)
  {
  }

  /** The type name `start_live_preview` goes on with: the detected one for "auto". */
  function ResolvedName(files: Files, previewType: string): string {
    if previewType == "auto" then
      (match DetectServerType(files) case Some(t) => TypeName(t) case None => "static")
    else previewType
  }

  /**
   * The type `start_live_preview` goes on with: 'auto' becomes the detected
   * type, or 'static' when nothing is detected; any other name must be one of
   * the supported ones.
   */
  function ResolveType(files: Files, previewType: string): (r: Option<ServerType>)
    ensures previewType == "auto" ==> r.Some?
    ensures previewType == "auto" && DetectServerType(files).Some? ==> r == DetectServerType(files)
    ensures previewType == "auto" && DetectServerType(files).None? ==> r == Some(Static)
    ensures previewType != "auto" ==> (r.Some? <==> previewType in SupportedTypes)
    ensures previewType != "auto" && r.Some? ==> TypeName(r.value) == previewType
  {
    var name := ResolvedName(files, previewType);
    ParseTypeName(Static);
    ParseTypeName(NodeJs);
    ParseTypeName(FastApi);
    ParseType(name)
  }

  // ---------------------------------------------------------------------------
  // Installing dependencies

  function RequirementsCommand(workingDir: string): string {
    "cd " + workingDir + " && pip install -r requirements.txt"
  }

  /** The packages installed when there is no requirements file, in order. */
  const BasicDependencies: seq<string> := ["fastapi", "uvicorn[standard]"]

  function PipInstallCommand(workingDir: string, dep: string): string {
    "cd " + workingDir + " && pip install " + dep
  }

  /** One `pip install` per basic dependency. */
  function BasicDependencyCommands(workingDir: string): (cmds: seq<string>)
    ensures |cmds| == |BasicDependencies|
    ensures forall i | 0 <= i < |cmds| :: cmds[i] == PipInstallCommand(workingDir, BasicDependencies[i])
  {
    [PipInstallCommand(workingDir, BasicDependencies[0]), PipInstallCommand(workingDir, BasicDependencies[1])]
  }

  /**
   * `_install_with_pip`: what it returns (or the message of the exception an
   * install command raises) and the requests it makes. As written it
   * returns None on every path, failed installs included.
   */
  function PipInstall(s: Script, workingDir: string, files: Files): (r: (Result<Option<string>, string>, seq<Request>))
    ensures r.0.Ok? ==> r.0.value.None?
    ensures forall i | 0 <= i < |r.1| :: r.1[i].Command? && !r.1[i].background
  {
    if HasName(files, "requirements.txt") then
      var cmd := RequirementsCommand(workingDir);
      var issued := [Command(cmd, None, Some(120), false)];
      match s.run(cmd)
      case Raised(m) => (Err(m), issued)
      case Completed(_, _) => (Ok(None), issued)
    else BasicInstall(s, workingDir)
  }

  /**
   * The loop over `basic_deps`: it stops at the first install that does not
   * succeed, and only an exception raised by the SDK is reported.
   */
  function BasicInstall(s: Script, workingDir: string): (r: (Result<Option<string>, string>, seq<Request>))
    ensures r.0.Ok? ==> r.0.value.None?
    ensures forall i | 0 <= i < |r.1| :: r.1[i].Command? && !r.1[i].background
  {
    var cmds := BasicDependencyCommands(workingDir);
    var k := FirstFailure(s.run, cmds);
    var issued := Commands(Attempted(s.run, cmds), Some(60));
    if k < |cmds| && s.run(cmds[k]).Raised? then (Err(s.run(cmds[k]).message), issued)
    else (Ok(None), issued)
  }

  /**
   * Without a requirements file, 'fastapi' is installed before
   * 'uvicorn[standard]', and the second is attempted only when the first
   * succeeds; with one, a single `pip install -r requirements.txt` runs.
   */
  lemma PipInstallOrder(s: Script, workingDir: string, files: Files)
    ensures var issued := PipInstall(s, workingDir, files).1;
      var cmds := BasicDependencyCommands(workingDir);
      && (HasName(files, "requirements.txt") ==>
            issued == [Command(RequirementsCommand(workingDir), None, Some(120), false)])
      && (!HasName(files, "requirements.txt") ==>
            && 1 <= |issued| <= 2
            && issued[0] == Command(cmds[0], None, Some(60), false)
            && (|issued| == 2 <==> s.run(cmds[0]).Succeeded())
            && (|issued| == 2 ==> issued[1] == Command(cmds[1], None, Some(60), false)))
  {
  }

  /** `_install_with_pip` against the session. */
  method InstallWithPip(sb: Session, workingDir: string, files: Files) returns (r: Result<Option<string>, string>)
    modifies sb
    ensures r == PipInstall(sb.script, workingDir, files).0
    ensures sb.log == old(sb.log) + PipInstall(sb.script, workingDir, files).1
  {
    if HasName(files, "requirements.txt") {
      var installResult := sb.Run(RequirementsCommand(workingDir), None, Some(120));
      if installResult.Raised? {
        return Err(installResult.message);
      }
      if installResult.exitCode != 0 {
        return Ok(None);
      }
    } else {
      r := InstallBasicDependencies(sb, workingDir);
      if r.Err? {
        return r;
      }
    }
    return Ok(None);
  }

  /** The loop over `basic_deps` against the session. */
  method InstallBasicDependencies(sb: Session, workingDir: string) returns (r: Result<Option<string>, string>)
    modifies sb
    ensures r == BasicInstall(sb.script, workingDir).0
    ensures sb.log == old(sb.log) + BasicInstall(sb.script, workingDir).1
  {
    var basicDeps := BasicDependencies;
    ghost var cmds := BasicDependencyCommands(workingDir);
    var i := 0;
    while i < |basicDeps|
      invariant 0 <= i <= |basicDeps|
      invariant i <= FirstFailure(sb.script.run, cmds)
      invariant sb.log == old(sb.log) + Commands(cmds[..i], Some(60))
    {
      var dep := basicDeps[i];
      var installResult := sb.Run(PipInstallCommand(workingDir, dep), None, Some(60));
      assert cmds[..i + 1] == cmds[..i] + [cmds[i]];
      if installResult.Raised? {
        BasicInstallStopsAt(sb.script, workingDir, i);
        return Err(installResult.message);
      }
      if installResult.exitCode != 0 {
        BasicInstallStopsAt(sb.script, workingDir, i);
        return Ok(None);
      }
      i := i + 1;
    }
    BasicInstallCompletes(sb.script, workingDir);
    return Ok(None);
  }

  /** The basic install ends at the first dependency that does not install. */
  lemma BasicInstallStopsAt(s: Script, workingDir: string, i: nat)
    requires i < 2 && i <= FirstFailure(s.run, BasicDependencyCommands(workingDir))
    requires !s.run(BasicDependencyCommands(workingDir)[i]).Succeeded()
    ensures var reply := s.run(BasicDependencyCommands(workingDir)[i]);
      BasicInstall(s, workingDir)
        == (if reply.Raised? then Err(reply.message) else Ok(None),
            Commands(BasicDependencyCommands(workingDir)[..i + 1], Some(60)))
  {
  }

  /** The basic install reports nothing when both dependencies install. */
  lemma BasicInstallCompletes(s: Script, workingDir: string)
    requires FirstFailure(s.run, BasicDependencyCommands(workingDir)) == 2
    ensures BasicInstall(s, workingDir) == (Ok(None), Commands(BasicDependencyCommands(workingDir), Some(60)))
  {
  }

  /** What the install stage leaves `start_live_preview` to do: go on, or return a value. */
  datatype InstallOutcome = Continue | Return(url: Option<string>)

  function NpmInstallCommand(workingDir: string): string {
    "cd " + workingDir + " && npm install"
  }

  function NpmRetryCommand(workingDir: string): string {
    "cd " + workingDir + " && npm install --no-optional"
  }

  function PoetryInstallCommand(workingDir: string): string {
    "cd " + workingDir + " && poetry install"
  }

  /** How `start_live_preview` reacts to what `_install_with_pip` did. */
  function AfterPip(pip: (Result<Option<string>, string>, seq<Request>), before: seq<Request>)
    : (r: (InstallOutcome, seq<Request>))
  {
    match pip.0
    case Err(_) => (Return(None), before + pip.1)
    case Ok(None) => (Continue, before + pip.1)
    case Ok(Some(v)) => (Return(Some(v)), before + pip.1)
  }

  /** The dependency stage of `start_live_preview` for a settled server type. */
  function InstallDependencies(s: Script, files: Files, t: ServerType, workingDir: string)
    : (r: (InstallOutcome, seq<Request>))
    ensures forall i | 0 <= i < |r.1| :: r.1[i].Command? && !r.1[i].background
  {
    match t
    case Static => (Continue, [])
    case NodeJs =>
      var first := NpmInstallCommand(workingDir);
      var issued := [Command(first, None, Some(60), false)];
      var reply := s.run(first);
      if reply.Raised? then (Return(None), issued)
      else if reply.exitCode == 0 then (Continue, issued)
      else
        var retry := NpmRetryCommand(workingDir);
        var retried := issued + [Command(retry, None, Some(60), false)];
        (if s.run(retry).Succeeded() then Continue else Return(None), retried)
    case FastApi =>
      if HasName(files, "poetry.lock") then
        var poetry := PoetryInstallCommand(workingDir);
        var issued := [Command(poetry, None, Some(120), false)];
        var reply := s.run(poetry);
        if reply.Raised? then (Return(None), issued)
        else if reply.exitCode != 0 then AfterPip(PipInstall(s, workingDir, files), issued)
        else (Continue, issued)
      else AfterPip(PipInstall(s, workingDir, files), [])
  }

  /**
   * npm: 'npm install' is retried exactly once, as 'npm install
   * --no-optional', and only after it exits non-zero; the preview goes on
   * exactly when one of the two succeeds.
   */
  lemma NpmRetriedOnce(s: Script, files: Files, workingDir: string)
    ensures var (outcome, issued) := InstallDependencies(s, files, NodeJs, workingDir);
      var first, retry := NpmInstallCommand(workingDir), NpmRetryCommand(workingDir);
      && (s.run(first).Succeeded() ==> issued == [Command(first, None, Some(60), false)] && outcome == Continue)
      && (s.run(first).Raised? ==> issued == [Command(first, None, Some(60), false)] && outcome == Return(None))
      && (s.run(first).Completed? && s.run(first).exitCode != 0 ==>
            issued == [Command(first, None, Some(60), false), Command(retry, None, Some(60), false)]
            && (outcome == Continue <==> s.run(retry).Succeeded()))
      && (outcome.Return? ==> outcome.url.None?)
  {
  }

  /**
   * The loop over `basic_deps` reports an exception exactly when one of the
   * installs it attempted raised one; a non-zero exit is not reported.
   */
  lemma BasicInstallRaisesIff(s: Script, workingDir: string)
    ensures var r := BasicInstall(s, workingDir);
      r.0.Ok? <==> forall i | 0 <= i < |r.1| :: s.run(r.1[i].text).Completed?
  {
    var cmds := BasicDependencyCommands(workingDir);
    var k := FirstFailure(s.run, cmds);
    var attempted := Attempted(s.run, cmds);
    var r := BasicInstall(s, workingDir);
    assert r.1 == Commands(attempted, Some(60));
    assert forall i | 0 <= i < |r.1| :: r.1[i].text == attempted[i] == cmds[i];
    if k < |cmds| {
      assert r.1[k].text == cmds[k];
    }
  }

  /**
   * `_install_with_pip` reports an exception exactly when one of the install
   * commands it issued raised one.
   */
  lemma PipInstallRaisesIff(s: Script, workingDir: string, files: Files)
    ensures var r := PipInstall(s, workingDir, files);
      r.0.Ok? <==> forall i | 0 <= i < |r.1| :: s.run(r.1[i].text).Completed?
  {
    if HasName(files, "requirements.txt") {
      var r := PipInstall(s, workingDir, files);
      assert r.1 == [Command(RequirementsCommand(workingDir), None, Some(120), false)];
      assert r.1[0].text == RequirementsCommand(workingDir);
    } else {
      BasicInstallRaisesIff(s, workingDir);
    }
  }

  /**
   * pip: `_install_with_pip` never reports a failed install, so for a FastAPI
   * project the preview goes on exactly when none of the install commands
   * issued (poetry, then pip) raised an exception in the SDK; a non-zero exit
   * of poetry or pip never stops it.
   */
  lemma PipFailureNeverStopsPreview(s: Script, files: Files, workingDir: string)
    ensures var r := InstallDependencies(s, files, FastApi, workingDir);
      r.0 == Continue <==> forall i | 0 <= i < |r.1| :: s.run(r.1[i].text).Completed?
  {
    var pip := PipInstall(s, workingDir, files);
    PipInstallRaisesIff(s, workingDir, files);
    var r := InstallDependencies(s, files, FastApi, workingDir);
    if HasName(files, "poetry.lock") {
      var poetry := PoetryInstallCommand(workingDir);
      var issued := [Command(poetry, None, Some(120), false)];
      assert r.1[0].text == poetry;
      if s.run(poetry).Completed? && s.run(poetry).exitCode != 0 {
        assert r == AfterPip(pip, issued);
        assert r.1 == issued + pip.1;
        assert forall i | 0 <= i < |pip.1| :: r.1[i + 1] == pip.1[i];
      }
    } else {
      assert r == AfterPip(pip, []);
      assert r.1 == pip.1;
    }
  }

  // ---------------------------------------------------------------------------
  // The start command

  const EntryCandidates: seq<string> := ["main.py", "app.py", "server.py"]

  /**
   * `next((f for f in files.keys() if f in [...]), 'main.py')`: the first
   * name in the dictionary's order that is one of the candidates, not the
   * first candidate present.
   */
  function EntryFile(files: seq<(string, string)>): (r: string)
    ensures r in EntryCandidates
  {
    if files == [] then "main.py"
    else if files[0].0 in EntryCandidates then files[0].0
    else EntryFile(files[1..])
  }

  /**
   * The entry file is the first name in dictionary order among the
   * candidates; without any candidate it is 'main.py'.
   */
  lemma {:induction false} EntryFileIsFirstCandidate(files: seq<(string, string)>)
    ensures (forall i | 0 <= i < |files| :: files[i].0 !in EntryCandidates) ==> EntryFile(files) == "main.py"
    ensures forall i | 0 <= i < |files| && files[i].0 in EntryCandidates
                       && (forall j | 0 <= j < i :: files[j].0 !in EntryCandidates)
              :: EntryFile(files) == files[i].0
    decreases |files|
  {
    if files != [] {
      EntryFileIsFirstCandidate(files[1..]);
      assert forall i | 1 <= i < |files| :: files[i] == files[1..][i - 1];
    }
  }

  /**
   * An instance of `EntryFileIsFirstCandidate`: with 'app.py' listed before
   * 'main.py', the entry file is 'app.py'.
   */
  lemma EntryFileFollowsDictionaryOrder()
    ensures EntryFile([("app.py", ""), ("main.py", "")]) == "app.py"
  {
  }

  function StaticCommand(port: int): string {
    "python -m http.server " + IntToString(port)
  }

  function FastApiCommand(entry: string, port: int): string {
    "fastapi dev " + entry + " --host 0.0.0.0 --port " + IntToString(port)
  }

  function PoetryFastApiCommand(entry: string, port: int): string {
    "poetry run fastapi dev " + entry + " " + "--host 0.0.0.0 --port " + IntToString(port)
  }

  /** The server command `start_live_preview` derives for a settled type. */
  function StartCommand(files: Files, t: ServerType, port: int): string {
    match t
    case Static => StaticCommand(port)
    case NodeJs => if Contains(Get(files, "package.json", ""), "\"dev\"") then "npm run dev" else "npm start"
    case FastApi =>
      if HasName(files, "poetry.lock") then PoetryFastApiCommand(EntryFile(files), port)
      else FastApiCommand(EntryFile(files), port)
  }

  /** With a poetry lock file the FastAPI command is the plain one run through poetry. */
  lemma PoetryRunsTheSameCommand(entry: string, port: int)
    ensures PoetryFastApiCommand(entry, port) == "poetry run " + FastApiCommand(entry, port)
  {
  }

  /** The text of an integer is a shell word by itself. */
  lemma IntegerIsPlain(i: int)
    ensures IntToString(i) != [] && IsPlainText(IntToString(i))
  {
    var r := IntToString(i);
    forall k | 0 <= k < |r| ensures r[k] != ' ' && r[k] != '\'' && r[k] != '\\' {
      assert IsDigit(r[k]) || r[k] == '-';
    }
  }

  lemma SpacedBare2(a: string, b: string)
    ensures Spaced([Bare(a), Bare(b)]) == a + " " + b + " "
  {
    SpacedSplit([Bare(a)], [Bare(b)], [Bare(a), Bare(b)]);
    SpacedWord(a);
    SpacedWord(b);
  }

  lemma SpacedBare3(a: string, b: string, c: string)
    ensures Spaced([Bare(a), Bare(b), Bare(c)]) == a + " " + b + " " + c + " "
  {
    SpacedSplit([Bare(a)], [Bare(b), Bare(c)], [Bare(a), Bare(b), Bare(c)]);
    SpacedWord(a);
    SpacedBare2(b, c);
  }

  /** The static server is Python's http.server, bound to the preview port. */
  lemma StaticCommandWords(port: int)
    ensures Words(StaticCommand(port)) == Some(["python", "-m", "http.server", IntToString(port)])
    ensures ParseInt(IntToString(port)) == Some(port)
  {
    IntegerIsPlain(port);
    StaticLineWords(IntToString(port));
    IntToStringRoundTrip(port);
  }

  lemma StaticLineWords(digits: string)
    requires digits != [] && IsPlainText(digits)
    ensures Words("python -m http.server " + digits) == Some(["python", "-m", "http.server", digits])
  {
    var ts := [Bare("python"), Bare("-m"), Bare("http.server")];
    StaticPrefix();
    WordsOfSpacedLine(ts, digits);
    TextsBare3("python", "-m", "http.server");
    assert Texts(ts) + [digits] == ["python", "-m", "http.server", digits];
  }

  lemma StaticPrefix()
    ensures Spaced([Bare("python"), Bare("-m"), Bare("http.server")]) == "python -m http.server "
  {
    SpacedBare3("python", "-m", "http.server");
    assert "python -m http.server " == "python" + " " + "-m" + " " + "http.server" + " ";
  }

  lemma TextsBare3(a: string, b: string, c: string)
    ensures Texts([Bare(a), Bare(b), Bare(c)]) == [a, b, c]
  {
    TextsAppend([Bare(a)], [Bare(b), Bare(c)]);
    TextsPair(Bare(b), Bare(c));
    assert [Bare(a)][1..] == [];
    assert [Bare(a)] + [Bare(b), Bare(c)] == [Bare(a), Bare(b), Bare(c)];
  }

  function FastApiTokens(entry: string): seq<Token> {
    [Bare("fastapi"), Bare("dev")] + [Bare(entry)] + [Bare("--host"), Bare("0.0.0.0"), Bare("--port")]
  }

  /** The FastAPI command line with the port's digits left abstract. */
  lemma FastApiLineIsSpaced(entry: string, digits: string)
    ensures "fastapi dev " + entry + " --host 0.0.0.0 --port " + digits == Spaced(FastApiTokens(entry)) + digits
  {
    SpacedBare2("fastapi", "dev");
    SpacedWord(entry);
    SpacedBare3("--host", "0.0.0.0", "--port");
    OptionLiterals();
    Assemble([Bare("fastapi"), Bare("dev")], [Bare(entry)], [Bare("--host"), Bare("0.0.0.0"), Bare("--port")],
             "fastapi dev ", entry + " ", "--host 0.0.0.0 --port ");
    Regroup("fastapi dev ", entry, "--host 0.0.0.0 --port ", digits);
  }

  lemma OptionLiterals()
    ensures "fastapi dev " == "fastapi" + " " + "dev" + " "
    ensures "--host 0.0.0.0 --port " == "--host" + " " + "0.0.0.0" + " " + "--port" + " "
    ensures " --host 0.0.0.0 --port " == " " + "--host 0.0.0.0 --port "
  {
  }

  /** Regrouping the pieces of the FastAPI line, kept apart from its string literals. */
  lemma Regroup(a: string, e: string, b: string, d: string)
    ensures a + e + (" " + b) + d == a + (e + " ") + b + d
  {
  }

  lemma FastApiTexts(entry: string)
    ensures Texts(FastApiTokens(entry)) == ["fastapi", "dev", entry, "--host", "0.0.0.0", "--port"]
  {
    var t1, t2, t3 := [Bare("fastapi"), Bare("dev")], [Bare(entry)], [Bare("--host"), Bare("0.0.0.0"), Bare("--port")];
    TextsAppend(t1 + t2, t3);
    TextsAppend(t1, t2);
    TextsPair(Bare("fastapi"), Bare("dev"));
    assert Texts(t2) == [entry] by { assert t2[1..] == []; }
    TextsBare3("--host", "0.0.0.0", "--port");
  }

  /** The FastAPI server runs the entry file, listening on every interface at the preview port. */
  lemma FastApiCommandWords(entry: string, port: int)
    requires entry in EntryCandidates
    ensures Words(FastApiCommand(entry, port))
         == Some(["fastapi", "dev", entry, "--host", "0.0.0.0", "--port", IntToString(port)])
  {
    IntegerIsPlain(port);
    FastApiLineWords(entry, IntToString(port));
  }

  lemma FastApiLineWords(entry: string, digits: string)
    requires entry in EntryCandidates && digits != [] && IsPlainText(digits)
    ensures Words("fastapi dev " + entry + " --host 0.0.0.0 --port " + digits)
         == Some(["fastapi", "dev", entry, "--host", "0.0.0.0", "--port", digits])
  {
    var ts := FastApiTokens(entry);
    FastApiLineIsSpaced(entry, digits);
    FastApiTokensSpellThemselves(entry);
    WordsOfSpacedLine(ts, digits);
    FastApiTexts(entry);
    assert Texts(ts) + [digits] == ["fastapi", "dev", entry, "--host", "0.0.0.0", "--port", digits];
  }

  lemma FastApiTokensSpellThemselves(entry: string)
    requires entry in EntryCandidates
    ensures forall i | 0 <= i < |FastApiTokens(entry)| :: SpellsItself(FastApiTokens(entry)[i])
  {
    assert IsPlainText(entry) && entry != [];
  }

  // ---------------------------------------------------------------------------
  // Launching the server

  /** `f'cd {working_dir} && {command}'` */
  function LaunchLine(workingDir: string, command: string): string {
    "cd " + workingDir + " && " + command
  }

  /** The background launch and the host lookup: the preview URL, if any, and the requests made. */
  function Launch(s: Script, workingDir: string, command: string, port: int): (r: (Option<string>, seq<Request>))
  {
    var line := LaunchLine(workingDir, command);
    var started := [Command(line, None, None, true)];
    match s.run(line)
    case Raised(_) => (None, started)
    case Completed(_, _) =>
      var looked := started + [HostLookup(port)];
      match s.host(port)
      case Err(_) => (None, looked)
      case Ok(host) => (Some("https://" + host), looked)
  }

  /** `start_live_preview(sandbox, files, preview_type, preview_port, working_dir)`: the URL, if any, and the requests made. */
  function Preview(s: Script, files: Files, previewType: string, port: int, workingDir: string)
    : (r: (Option<string>, seq<Request>))
  {
    match ResolveType(files, previewType)
    case None => (None, [])
    case Some(t) =>
      var installed := InstallDependencies(s, files, t, workingDir);
      match installed.0
      case Return(url) => (url, installed.1)
      case Continue =>
        var launched := Launch(s, workingDir, StartCommand(files, t, port), port);
        (launched.0, installed.1 + launched.1)
  }

  /** The background commands among the requests, in order. */
  function BackgroundCommands(log: seq<Request>): seq<string> {
    if log == [] then []
    else BackgroundCommands(log[..|log| - 1])
         + (if log[|log| - 1].Command? && log[|log| - 1].background then [log[|log| - 1].text] else [])
  }

  lemma {:induction false} BackgroundCommandsAppend(a: seq<Request>, b: seq<Request>)
    ensures BackgroundCommands(a + b) == BackgroundCommands(a) + BackgroundCommands(b)
    decreases |b|
  {
    if b == [] {
      assert a + b == a;
    } else {
      assert (a + b)[..|a + b| - 1] == a + b[..|b| - 1];
      BackgroundCommandsAppend(a, b[..|b| - 1]);
    }
  }

  lemma {:induction false} NoBackgroundCommands(log: seq<Request>)
    requires forall i | 0 <= i < |log| :: log[i].Command? && !log[i].background
    ensures BackgroundCommands(log) == []
    decreases |log|
  {
    if log != [] {
      NoBackgroundCommands(log[..|log| - 1]);
    }
  }

  /**
   * An unsupported type ends the preview before any request; a supported
   * one whose install stage gives up issues no background command; otherwise
   * exactly one background command runs, 'cd <dir> && <start command>', and
   * the URL is 'https://' followed by the host the sandbox reports for the
   * port, or none when the launch or the lookup raises.
   */
  lemma LaunchesOnceAfterInstall(s: Script, files: Files, previewType: string, port: int, workingDir: string)
    ensures var (url, issued) := Preview(s, files, previewType, port, workingDir);
      && (ResolveType(files, previewType).None? ==> url.None? && issued == [])
      && (ResolveType(files, previewType).Some? ==>
            var t := ResolveType(files, previewType).value;
            var line := LaunchLine(workingDir, StartCommand(files, t, port));
            && (InstallDependencies(s, files, t, workingDir).0.Return? ==> BackgroundCommands(issued) == [])
            && (InstallDependencies(s, files, t, workingDir).0.Continue? ==>
                  && BackgroundCommands(issued) == [line]
                  && (url.Some? <==> s.run(line).Completed? && s.host(port).Ok?)
                  && (url.Some? ==> url.value == "https://" + s.host(port).value
                                    && issued[|issued| - 1] == HostLookup(port))))
  {
    if ResolveType(files, previewType).Some? {
      var t := ResolveType(files, previewType).value;
      var installed := InstallDependencies(s, files, t, workingDir);
      NoBackgroundCommands(installed.1);
      if installed.0.Continue? {
        var launched := Launch(s, workingDir, StartCommand(files, t, port), port);
        BackgroundCommandsAppend(installed.1, launched.1);
        LaunchIsInBackground(s, workingDir, StartCommand(files, t, port), port);
      }
    }
  }

  lemma LaunchIsInBackground(s: Script, workingDir: string, command: string, port: int)
    ensures BackgroundCommands(Launch(s, workingDir, command, port).1) == [LaunchLine(workingDir, command)]
  {
    var bg := Command(LaunchLine(workingDir, command), None, None, true);
    assert [bg][..0] == [];
    assert BackgroundCommands([bg]) == [LaunchLine(workingDir, command)];
    assert [bg, HostLookup(port)][..1] == [bg];
  }

  /** `Preview` once the type is settled: the install stage, then (unless it returned) the launch. */
  lemma PreviewSteps(s: Script, files: Files, previewType: string, port: int, workingDir: string, t: ServerType)
    requires ParseType(ResolvedName(files, previewType)) == Some(t)
    ensures var installed := InstallDependencies(s, files, t, workingDir);
      var launched := Launch(s, workingDir, StartCommand(files, t, port), port);
      Preview(s, files, previewType, port, workingDir)
        == if installed.0.Return? then (installed.0.url, installed.1) else (launched.0, installed.1 + launched.1)
  {
  }

  /** `start_live_preview` against the session. */
  method StartLivePreview(sb: Session, files: Files, previewType: string, previewPort: int, workingDir: string)
    returns (url: Option<string>)
    modifies sb
    ensures url == Preview(sb.script, files, previewType, previewPort, workingDir).0
    ensures sb.log == old(sb.log) + Preview(sb.script, files, previewType, previewPort, workingDir).1
  {
    var kind := ResolveKind(files, previewType);
    if kind !in SupportedTypes {
      assert ResolveType(files, previewType) == None;
      return None;
    }
    var t := ParseType(kind).value;
    PreviewSteps(sb.script, files, previewType, previewPort, workingDir, t);

    var outcome, installed := InstallStage(sb, files, t, workingDir);
    if outcome.Return? {
      return outcome.url;
    }

    var command := DeriveCommand(files, kind, t, previewPort);
    url := LaunchServer(sb, workingDir, command, previewPort);
  }

  /** The opening of `start_live_preview`: "auto" becomes the detected type's name, or "static". */
  method ResolveKind(files: Files, previewType: string) returns (kind: string)
    ensures kind == ResolvedName(files, previewType)
    ensures kind in SupportedTypes <==> ResolveType(files, previewType).Some?
  {
    kind := previewType;
    if kind == "auto" {
      var detectedType := DetectServerType(files);
      if detectedType.Some? {
        kind := TypeName(detectedType.value);
      } else {
        kind := "static";
      }
    }
  }

  /** The branch of `start_live_preview` that picks the server command for a supported type name. */
  method DeriveCommand(files: Files, kind: string, ghost t: ServerType, previewPort: int) returns (command: string)
    requires ParseType(kind) == Some(t)
    ensures command == StartCommand(files, t, previewPort)
  {
    if kind == "static" {
      command := "python -m http.server " + IntToString(previewPort);
    } else if kind == "nodejs" {
      var packageJsonContent := Get(files, "package.json", "");
      if Contains(packageJsonContent, "\"dev\"") {
        command := "npm run dev";
      } else {
        command := "npm start";
      }
    } else {
      var mainFile := EntryFile(files);
      if HasName(files, "poetry.lock") {
        command := "poetry run fastapi dev " + mainFile + " " + "--host 0.0.0.0 --port " + IntToString(previewPort);
      } else {
        command := "fastapi dev " + mainFile + " --host 0.0.0.0 --port " + IntToString(previewPort);
      }
    }
  }

  /** The dependency stage of `start_live_preview` against the session. */
  method InstallStage(sb: Session, files: Files, t: ServerType, workingDir: string)
    returns (outcome: InstallOutcome, ghost issued: seq<Request>)
    modifies sb
    ensures (outcome, issued) == InstallDependencies(sb.script, files, t, workingDir)
    ensures sb.log == old(sb.log) + issued
  {
    if t == NodeJs {
      outcome, issued := NpmStage(sb, files, workingDir);
    } else if t == FastApi {
      outcome, issued := FastApiStage(sb, files, workingDir);
    } else {
      outcome, issued := Continue, [];
    }
  }

  /** The Node.js branch of the install stage: 'npm install', retried once. */
  method NpmStage(sb: Session, files: Files, workingDir: string)
    returns (outcome: InstallOutcome, ghost issued: seq<Request>)
    modifies sb
    ensures (outcome, issued) == InstallDependencies(sb.script, files, NodeJs, workingDir)
    ensures sb.log == old(sb.log) + issued
  {
    outcome := Continue;
    var installResult := sb.Run(NpmInstallCommand(workingDir), None, Some(60));
    issued := [Command(NpmInstallCommand(workingDir), None, Some(60), false)];
    if installResult.Raised? {
      return Return(None), issued;
    }
    if installResult.exitCode != 0 {
      installResult := sb.Run(NpmRetryCommand(workingDir), None, Some(60));
      issued := issued + [Command(NpmRetryCommand(workingDir), None, Some(60), false)];
      if installResult.Raised? || installResult.exitCode != 0 {
        return Return(None), issued;
      }
    }
  }

  /** The FastAPI branch of the install stage: poetry when locked, falling back to pip. */
  method FastApiStage(sb: Session, files: Files, workingDir: string)
    returns (outcome: InstallOutcome, ghost issued: seq<Request>)
    modifies sb
    ensures (outcome, issued) == InstallDependencies(sb.script, files, FastApi, workingDir)
    ensures sb.log == old(sb.log) + issued
  {
    FastApiInstallSteps(sb.script, files, workingDir);
    outcome := Continue;
    if HasName(files, "poetry.lock") {
      var installResult := sb.Run(PoetryInstallCommand(workingDir), None, Some(120));
      issued := [Command(PoetryInstallCommand(workingDir), None, Some(120), false)];
      if installResult.Raised? {
        return Return(None), issued;
      }
      if installResult.exitCode != 0 {
        outcome, issued := PipStage(sb, files, workingDir, issued);
      }
    } else {
      outcome, issued := PipStage(sb, files, workingDir, []);
    }
  }

  /** The FastAPI install stage, one step after another. */
  lemma FastApiInstallSteps(s: Script, files: Files, workingDir: string)
    ensures var poetry := PoetryInstallCommand(workingDir);
      var issued := [Command(poetry, None, Some(120), false)];
      InstallDependencies(s, files, FastApi, workingDir)
        == if !HasName(files, "poetry.lock") then AfterPip(PipInstall(s, workingDir, files), [])
           else if s.run(poetry).Raised? then (Return(None), issued)
           else if s.run(poetry).exitCode != 0 then AfterPip(PipInstall(s, workingDir, files), issued)
           else (Continue, issued)
  {
  }

  /** `_install_with_pip` inside the FastAPI branch: its error or value ends the preview. */
  method PipStage(sb: Session, files: Files, workingDir: string, ghost before: seq<Request>)
    returns (outcome: InstallOutcome, ghost issued: seq<Request>)
    modifies sb
    ensures (outcome, issued) == AfterPip(PipInstall(sb.script, workingDir, files), before)
    ensures sb.log == old(sb.log) + PipInstall(sb.script, workingDir, files).1
  {
    var pipResult := InstallWithPip(sb, workingDir, files);
    issued := before + PipInstall(sb.script, workingDir, files).1;
    match pipResult {
      case Err(_) => return Return(None), issued;
      case Ok(value) =>
        if value.Some? {
          return Return(value), issued;
        }
        return Continue, issued;
    }
  }

  /** The background launch and the host lookup against the session. */
  method LaunchServer(sb: Session, workingDir: string, command: string, previewPort: int) returns (url: Option<string>)
    modifies sb
    ensures url == Launch(sb.script, workingDir, command, previewPort).0
    ensures sb.log == old(sb.log) + Launch(sb.script, workingDir, command, previewPort).1
  {
    var started := sb.RunInBackground(LaunchLine(workingDir, command));
    if started.Raised? {
      return None;
    }
    var host := sb.GetHost(previewPort);
    if host.Err? {
      return None;
    }
    var previewUrl := "https://" + host.value;
    return Some(previewUrl);
  }
}

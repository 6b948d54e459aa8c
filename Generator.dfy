/**
 * generator.py: `E2BAiderClient.generate_code` and its two steps. The prompt
 * travels to aider through a file written into the project directory, so the
 * aider command line holds only the model, the key, the optional API base and
 * that file's path; the tool's output is streamed to two callbacks and
 * combined afterwards; the generated files are harvested with `find` and read
 * one by one, leaving out aider's own bookkeeping files.
 */
module Generator {
  import opened Wrappers
  import opened Text
  import opened ShellWords
  import opened Sandbox
  import opened AiderClient

  // ---------------------------------------------------------------------------
  // Running aider

  const PromptFileName: string := ".aider_prompt.txt"

  /** `f'{project_dir}/.aider_prompt.txt'` */
  function PromptFile(projectDir: string): string {
    projectDir + "/.aider_prompt.txt"
  }

  /** The option naming the prompt file, and the two flags that end the command. */
  function MessageFileTail(promptFile: string): string {
    "--message-file '" + promptFile + "' " + "--no-git " + "--yes"
  }

  /** The aider command line of `_run_aider_prompt`, piece by piece as it is built. */
  function AiderCommand(model: string, apiKey: string, apiBase: Option<string>, promptFile: string): string {
    CommandHead(model, apiKey, apiBase) + MessageFileTail(promptFile)
  }

  /** The words aider is meant to receive. */
  function AiderArguments(model: string, apiKey: string, apiBase: Option<string>, promptFile: string): seq<string> {
    HeadArguments(model, apiKey, apiBase) + ["--message-file", promptFile, "--no-git", "--yes"]
  }

  /** The tokens of the command up to its last word, "--yes". */
  function AiderTokens(model: string, apiKey: string, apiBase: Option<string>, promptFile: string): seq<Token> {
    HeadTokens(model, apiKey, apiBase) + TailTokens(promptFile)
  }

  function TailTokens(promptFile: string): seq<Token> {
    [Bare("--message-file"), SingleQuoted(promptFile), Bare("--no-git")]
  }

  lemma FilePiece(promptFile: string)
    ensures Spaced(TailTokens(promptFile)) + "--yes" == MessageFileTail(promptFile)
  {
    SpacedSplit([Bare("--message-file"), SingleQuoted(promptFile)], [Bare("--no-git")], TailTokens(promptFile));
    SpacedWord("--no-git");
    SpacedOption("--message-file", SingleQuoted(promptFile), promptFile);
  }

  lemma AiderCommandIsSpaced(model: string, apiKey: string, apiBase: Option<string>, promptFile: string)
    ensures AiderCommand(model, apiKey, apiBase, promptFile) == Spaced(AiderTokens(model, apiKey, apiBase, promptFile)) + "--yes"
  {
    var head, tail := HeadTokens(model, apiKey, apiBase), TailTokens(promptFile);
    HeadIsSpaced(model, apiKey, apiBase);
    FilePiece(promptFile);
    SpacedAppend(head, tail);
    assert Spaced(head) + (Spaced(tail) + "--yes") == (Spaced(head) + Spaced(tail)) + "--yes";
  }

  /**
   * When the model, the key, the API base and the prompt file's path hold no
   * single quote, the shell hands aider exactly the intended arguments: each
   * quoted value arrives as one argument, whatever blanks it holds, and the
   * API base option is there exactly when a base is configured. The prompt
   * text itself is not on the command line at all.
   */
  lemma AiderCommandArguments(model: string, apiKey: string, apiBase: Option<string>, promptFile: string)
    requires '\'' !in model && '\'' !in apiKey && '\'' !in promptFile
    requires Truthy(apiBase) ==> '\'' !in apiBase.value
    ensures Words(AiderCommand(model, apiKey, apiBase, promptFile))
         == Some(AiderArguments(model, apiKey, apiBase, promptFile))
  {
    var head, tail := HeadTokens(model, apiKey, apiBase), TailTokens(promptFile);
    var ts := AiderTokens(model, apiKey, apiBase, promptFile);
    HeadSpellsItself(model, apiKey, apiBase);
    OptionWordsArePlain();
    assert forall i | 0 <= i < |ts| :: SpellsItself(ts[i]) by {
      forall i | 0 <= i < |ts| ensures SpellsItself(ts[i]) {
        if i >= |head| {
          assert ts[i] == tail[i - |head|];
        }
      }
    }
    AiderCommandIsSpaced(model, apiKey, apiBase, promptFile);
    WordsOfSpacedLine(ts, "--yes");
    HeadTexts(model, apiKey, apiBase);
    TextsAppend(head, tail);
    assert Texts(tail) == ["--message-file", promptFile, "--no-git"] by {
      assert tail[1..] == [SingleQuoted(promptFile), Bare("--no-git")];
      TextsPair(SingleQuoted(promptFile), Bare("--no-git"));
    }
    var hs := HeadArguments(model, apiKey, apiBase);
    assert Texts(ts) + ["--yes"] == hs + ["--message-file", promptFile, "--no-git", "--yes"];
  }

  /**
   * `_run_aider_prompt`: the combined output of the tool (or the message of
   * the exception that ends the step) and the requests it makes. A non-zero
   * exit code of the tool is not an error.
   */
  function RunAider(c: Client, s: Script, prompt: string, projectDir: string, model: string, timeout: int)
    : (r: (Result<string, string>, seq<Request>))
  {
    var promptFile := PromptFile(projectDir);
    var written := [FileWrite(promptFile, prompt)];
    match s.write(promptFile)
    case Some(e) => (Err("Failed to write prompt file: " + e), written)
    case None =>
      var cmd := AiderCommand(model, c.openaiApiKey, c.openaiApiBase, promptFile);
      var issued := written + [Command(cmd, Some(projectDir), Some(timeout), false)];
      var reply := s.run(cmd);
      match reply
      case Raised(m) => (Err(m), issued)
      case Completed(code, _) => (Ok(CombinedOutput(reply.Stdout(), reply.Stderr(), code)), issued)
  }

  /**
   * The aider step fails only when the prompt file cannot be written or the
   * SDK raises; otherwise it reports the tool's exit code, whatever it is, on
   * the output's last line. The command runs in the project directory with
   * the caller's timeout, and the prompt goes into the prompt file.
   */
  lemma AiderExitCodeIsNotAnError(c: Client, s: Script, prompt: string, projectDir: string, model: string, timeout: int)
    ensures var (r, issued) := RunAider(c, s, prompt, projectDir, model, timeout);
      var cmd := AiderCommand(model, c.openaiApiKey, c.openaiApiBase, PromptFile(projectDir));
      && issued[0] == FileWrite(PromptFile(projectDir), prompt)
      && (r.Ok? <==> s.write(PromptFile(projectDir)).None? && s.run(cmd).Completed?)
      && (r.Ok? ==> issued[1] == Command(cmd, Some(projectDir), Some(timeout), false)
                    && ReportedExitCode(r.value) == Some(s.run(cmd).exitCode))
  {
    var cmd := AiderCommand(model, c.openaiApiKey, c.openaiApiBase, PromptFile(projectDir));
    if s.write(PromptFile(projectDir)).None? && s.run(cmd).Completed? {
      var reply := s.run(cmd);
      ExitCodeIsReported(reply.Stdout(), reply.Stderr(), reply.exitCode);
    }
  }

  /** `_run_aider_prompt` against the session, streaming the output to a pair of buffers. */
  method RunAiderPrompt(c: Client, sb: Session, prompt: string, projectDir: string, model: string, timeout: int)
    returns (r: Result<string, string>)
    modifies sb
    ensures r == RunAider(c, sb.script, prompt, projectDir, model, timeout).0
    ensures sb.log == old(sb.log) + RunAider(c, sb.script, prompt, projectDir, model, timeout).1
  {
    var promptFile := projectDir + "/.aider_prompt.txt";
    var failure := sb.WriteFile(promptFile, prompt);
    if failure.Some? {
      return Err("Failed to write prompt file: " + failure.value);
    }
    var aiderCmd := "aider --model '" + model + "' ";
    aiderCmd := aiderCmd + ("--openai-api-key '" + c.openaiApiKey + "' ");
    if Truthy(c.openaiApiBase) {
      aiderCmd := aiderCmd + ("--openai-api-base '" + c.openaiApiBase.value + "' ");
    } else {
      assert aiderCmd + BaseOption(c.openaiApiBase) == aiderCmd;
    }
    assert aiderCmd == CommandHead(model, c.openaiApiKey, c.openaiApiBase);
    aiderCmd := aiderCmd + ("--message-file '" + promptFile + "' " + "--no-git " + "--yes");
    assert aiderCmd == AiderCommand(model, c.openaiApiKey, c.openaiApiBase, promptFile);
    var collector := new OutputCollector();
    var result := sb.RunStreaming(aiderCmd, Some(projectDir), Some(timeout), collector);
    if result.Raised? {
      return Err(result.message);
    }
    assert collector.stdoutBuffer == [] + StdoutTexts(result.chunks) == StdoutTexts(result.chunks);
    assert collector.stderrBuffer == [] + StderrTexts(result.chunks) == StderrTexts(result.chunks);
    var stdoutContent := Concat(collector.stdoutBuffer);
    var stderrContent := Concat(collector.stderrBuffer);
    return Ok(CombinedOutput(stdoutContent, stderrContent, result.exitCode));
  }

  // ---------------------------------------------------------------------------
  // Harvesting the generated files

  /** `f"find '{project_dir}' -type f"` */
  function FindCommand(projectDir: string): string {
    "find '" + projectDir + "' -type f"
  }

  /** `find_result.stdout.strip().split('\n')` */
  function ListedPaths(stdout: string): seq<string> {
    Split(Strip(stdout), '\n')
  }

  /** `file_path.replace(f'{project_dir}/', '')` */
  function RelativePath(path: string, projectDir: string): string {
    ReplaceAll(path, projectDir + "/", "")
  }

  const SkipFiles: seq<string> := [".aider.input.history", ".aider.chat.history.md"]

  /** aider's own files, which are not reported as generated. */
  predicate Bookkeeping(rel: string) {
    StartsWith(rel, PromptFileName) || rel in SkipFiles
  }

  /** A listed path that is read and reported. */
  predicate Harvested(path: string, projectDir: string) {
    !IsBlank(path) && !Bookkeeping(RelativePath(path, projectDir))
  }

  /** The decoded content of a file, or the note stored in its place when reading it raises. */
  function ReadValue(read: string -> Result<string, string>, path: string): string {
    match read(path)
    case Ok(content) => content
    case Err(m) => "Error reading file: " + m
  }

  /** The files dictionary `_get_generated_files` builds from a list of paths. */
  function HarvestPaths(paths: seq<string>, projectDir: string, read: string -> Result<string, string>)
    : map<string, string>
  {
    if paths == [] then map[]
    else
      var files := HarvestPaths(paths[..|paths| - 1], projectDir, read);
      var p := paths[|paths| - 1];
      if Harvested(p, projectDir) then files[RelativePath(p, projectDir) := ReadValue(read, p)] else files
  }

  /** The reads issued for a list of paths: one per harvested path, in order. */
  function ReadsOf(paths: seq<string>, projectDir: string): seq<Request> {
    if paths == [] then []
    else
      var p := paths[|paths| - 1];
      ReadsOf(paths[..|paths| - 1], projectDir) + (if Harvested(p, projectDir) then [FileRead(p)] else [])
  }

  /**
   * `_get_generated_files`: the files dictionary (or the message of the
   * exception that ends the step) and the requests made. A failing `find`
   * is not an exception: it yields a dictionary with a single "error" entry.
   */
  function Harvest(s: Script, projectDir: string): (r: (Result<map<string, string>, string>, seq<Request>))
  {
    var find := FindCommand(projectDir);
    var issued := [Command(find, None, None, false)];
    var reply := s.run(find);
    match reply
    case Raised(m) => (Err(m), issued)
    case Completed(code, _) =>
      if code != 0 then (Ok(map["error" := "Failed to list files: " + reply.Stderr()]), issued)
      else
        var paths := ListedPaths(reply.Stdout());
        (Ok(HarvestPaths(paths, projectDir, s.read)), issued + ReadsOf(paths, projectDir))
  }

  /** The keys of the dictionary are exactly the relative paths of the harvested paths. */
  lemma {:induction false} HarvestKeys(paths: seq<string>, projectDir: string, read: string -> Result<string, string>, k: string)
    ensures k in HarvestPaths(paths, projectDir, read)
        <==> exists i | 0 <= i < |paths| :: Harvested(paths[i], projectDir) && RelativePath(paths[i], projectDir) == k
    decreases |paths|
  {
    if paths != [] {
      var front := paths[..|paths| - 1];
      HarvestKeys(front, projectDir, read, k);
      assert forall i | 0 <= i < |front| :: front[i] == paths[i];
    }
  }

  /** aider's bookkeeping files never appear among the generated files. */
  lemma NoBookkeepingFiles(paths: seq<string>, projectDir: string, read: string -> Result<string, string>)
    ensures forall k | k in HarvestPaths(paths, projectDir, read) :: !Bookkeeping(k)
  {
    forall k | k in HarvestPaths(paths, projectDir, read)
      ensures !Bookkeeping(k)
    {
      HarvestKeys(paths, projectDir, read, k);
    }
  }

  /**
   * The value under a relative path is what reading the last listed path
   * with that relative path gave: its content, or the note of the exception.
   */
  lemma {:induction false} HarvestValue(paths: seq<string>, projectDir: string, read: string -> Result<string, string>, i: nat)
    requires i < |paths| && Harvested(paths[i], projectDir)
    requires forall j | i < j < |paths| && Harvested(paths[j], projectDir)
               :: RelativePath(paths[j], projectDir) != RelativePath(paths[i], projectDir)
    ensures RelativePath(paths[i], projectDir) in HarvestPaths(paths, projectDir, read)
    ensures HarvestPaths(paths, projectDir, read)[RelativePath(paths[i], projectDir)] == ReadValue(read, paths[i])
    decreases |paths|
  {
    if i < |paths| - 1 {
      var front := paths[..|paths| - 1];
      assert front[i] == paths[i];
      forall j | i < j < |front| && Harvested(front[j], projectDir)
        ensures RelativePath(front[j], projectDir) != RelativePath(front[i], projectDir)
      {
        assert front[j] == paths[j];
      }
      HarvestValue(front, projectDir, read, i);
    }
  }

  /**
   * A failing read affects only its own entry: two sandboxes that answer
   * every read of the paths with some relative path alike give the same entry
   * (or none) under it.
   */
  lemma {:induction false} ReadFailureIsIsolated(paths: seq<string>, projectDir: string,
                                                 read1: string -> Result<string, string>,
                                                 read2: string -> Result<string, string>, k: string)
    requires forall i | 0 <= i < |paths| && RelativePath(paths[i], projectDir) == k :: read1(paths[i]) == read2(paths[i])
    ensures k in HarvestPaths(paths, projectDir, read1) <==> k in HarvestPaths(paths, projectDir, read2)
    ensures k in HarvestPaths(paths, projectDir, read1)
            ==> HarvestPaths(paths, projectDir, read1)[k] == HarvestPaths(paths, projectDir, read2)[k]
    decreases |paths|
  {
    if paths != [] {
      var front := paths[..|paths| - 1];
      assert forall i | 0 <= i < |front| :: front[i] == paths[i];
      ReadFailureIsIsolated(front, projectDir, read1, read2, k);
    }
  }

  /**
   * A path under the project directory is reported under the rest of its
   * path, as long as that rest does not itself contain the project
   * directory's prefix.
   */
  lemma RelativePathOfChild(projectDir: string, rel: string)
    requires !Contains(rel, projectDir + "/")
    ensures RelativePath(projectDir + "/" + rel, projectDir) == rel
  {
    var prefix := projectDir + "/";
    assert projectDir + "/" + rel == prefix + rel;
    ReplaceAllLeading(prefix, rel, "");
    ReplaceAllAbsent(rel, prefix, "");
  }

  /**
   * An instance outside `RelativePathOfChild`'s precondition: the relative
   * path is computed by replacing every occurrence of the directory prefix,
   * not by stripping a leading one, so a file whose path repeats the project
   * directory loses the repetition too.
   */
  lemma RelativePathReplacesEveryOccurrence()
    ensures RelativePath("/p/a/p/b", "/p") == "ab"
  {
    var prefix := "/p/";
    assert "/p" + "/" == prefix;
    assert "/p/a/p/b" == prefix + "a/p/b";
    ReplaceAllLeading(prefix, "a/p/b", "");
    var rest := "a/p/b";
    assert rest[0] == 'a' && !(prefix <= rest);
    assert rest[1..] == prefix + "b";
    assert ReplaceAll(rest, prefix, "") == "a" + ReplaceAll(prefix + "b", prefix, "");
    ReplaceAllLeading(prefix, "b", "");
    assert !(prefix <= "b") && "b"[1..] == [];
    assert ReplaceAll("b", prefix, "") == "b";
  }

  /**
   * The listing step: a `find` that raises ends the attempt; one that exits
   * non-zero yields the single "error" entry; otherwise the dictionary holds
   * the harvested paths, each read once, in listing order.
   */
  lemma HarvestOutcome(s: Script, projectDir: string)
    ensures var (r, issued) := Harvest(s, projectDir);
      var reply := s.run(FindCommand(projectDir));
      && issued[0] == Command(FindCommand(projectDir), None, None, false)
      && (r.Err? <==> reply.Raised?)
      && (reply.Completed? && reply.exitCode != 0 ==>
            r.value.Keys == {"error"} && r.value["error"] == "Failed to list files: " + reply.Stderr())
      && (reply.Succeeded() ==>
            forall k :: k in r.value <==> exists i | 0 <= i < |ListedPaths(reply.Stdout())| ::
              Harvested(ListedPaths(reply.Stdout())[i], projectDir)
              && RelativePath(ListedPaths(reply.Stdout())[i], projectDir) == k)
  {
    var reply := s.run(FindCommand(projectDir));
    if reply.Succeeded() {
      var paths := ListedPaths(reply.Stdout());
      forall k ensures k in HarvestPaths(paths, projectDir, s.read) <==>
        exists i | 0 <= i < |paths| :: Harvested(paths[i], projectDir) && RelativePath(paths[i], projectDir) == k
      {
        HarvestKeys(paths, projectDir, s.read, k);
      }
    }
  }

  /** One more listed path: how the dictionary and the reads grow. */
  lemma HarvestStep(paths: seq<string>, i: nat, projectDir: string, read: string -> Result<string, string>)
    requires i < |paths|
    ensures var p := paths[i];
      && HarvestPaths(paths[..i + 1], projectDir, read)
         == (if Harvested(p, projectDir)
             then HarvestPaths(paths[..i], projectDir, read)[RelativePath(p, projectDir) := ReadValue(read, p)]
             else HarvestPaths(paths[..i], projectDir, read))
      && ReadsOf(paths[..i + 1], projectDir)
         == ReadsOf(paths[..i], projectDir) + (if Harvested(p, projectDir) then [FileRead(p)] else [])
  {
    assert paths[..i + 1][..i] == paths[..i];
  }

  /** The loop of `_get_generated_files`: reads every harvested path into the dictionary. */
  method ReadListedFiles(sb: Session, filePaths: seq<string>, projectDir: string) returns (filesDict: map<string, string>)
    modifies sb
    ensures filesDict == HarvestPaths(filePaths, projectDir, sb.script.read)
    ensures sb.log == old(sb.log) + ReadsOf(filePaths, projectDir)
  {
    filesDict := map[];
    var i := 0;
    while i < |filePaths|
      invariant 0 <= i <= |filePaths|
      invariant filesDict == HarvestPaths(filePaths[..i], projectDir, sb.script.read)
      invariant sb.log == old(sb.log) + ReadsOf(filePaths[..i], projectDir)
    {
      var filePath := filePaths[i];
      HarvestStep(filePaths, i, projectDir, sb.script.read);
      if IsBlank(filePath) {
        i := i + 1;
        continue;
      }
      var relPath := ReplaceAll(filePath, projectDir + "/", "");
      if Bookkeeping(relPath) {
        i := i + 1;
        continue;
      }
      var fileContent := sb.ReadFile(filePath);
      match fileContent {
        case Ok(content) => filesDict := filesDict[relPath := content];
        case Err(e) => filesDict := filesDict[relPath := "Error reading file: " + e];
      }
      i := i + 1;
    }
    assert filePaths[..i] == filePaths;
  }

  /** `Harvest` case by case, as the method below takes the cases. */
  lemma HarvestCases(s: Script, projectDir: string)
    ensures var reply := s.run(FindCommand(projectDir));
      var issued := [Command(FindCommand(projectDir), None, None, false)];
      && (reply.Raised? ==> Harvest(s, projectDir) == (Err(reply.message), issued))
      && (reply.Completed? && reply.exitCode != 0 ==>
            Harvest(s, projectDir) == (Ok(map["error" := "Failed to list files: " + reply.Stderr()]), issued))
      && (reply.Succeeded() ==>
            Harvest(s, projectDir) == (Ok(HarvestPaths(ListedPaths(reply.Stdout()), projectDir, s.read)),
                                       issued + ReadsOf(ListedPaths(reply.Stdout()), projectDir)))
  {
  }

  /** `_get_generated_files` against the session. */
  method GetGeneratedFiles(sb: Session, projectDir: string) returns (r: Result<map<string, string>, string>)
    modifies sb
    ensures r == Harvest(sb.script, projectDir).0
    ensures sb.log == old(sb.log) + Harvest(sb.script, projectDir).1
  {
    HarvestCases(sb.script, projectDir);
    var findResult := sb.Run("find '" + projectDir + "' -type f", None, None);
    if findResult.Raised? {
      return Err(findResult.message);
    }
    if findResult.exitCode != 0 {
      return Ok(map["error" := "Failed to list files: " + findResult.Stderr()]);
    }
    var filePaths := ListedPaths(findResult.Stdout());
    var filesDict := ReadListedFiles(sb, filePaths, projectDir);
    assert sb.log == old(sb.log) + [Command(FindCommand(projectDir), None, None, false)] + ReadsOf(filePaths, projectDir);
    return Ok(filesDict);
  }

  // ---------------------------------------------------------------------------
  // generate_code

  /** `generate_code(prompt, project_dir, aider_model, timeout)`: the result and the requests made. */
  function Generate(c: Client, s: Script, prompt: string, projectDir: string, aiderModel: Option<string>, timeout: int)
    : (r: (GenerationResult, seq<Request>))
    ensures ValidResult(r.0)
  {
    Pipeline(c, s, projectDir,
             RunAider(c, s, prompt, projectDir, ChooseModel(aiderModel, c), timeout),
             Harvest(s, projectDir))
  }

  /**
   * The prompt reaches the sandbox only as the content of the prompt file:
   * for two prompts, every request but that one write is the same, the aider
   * command line included.
   */
  lemma PromptOnlyInPromptFile(c: Client, s: Script, p1: string, p2: string, projectDir: string,
                               aiderModel: Option<string>, timeout: int)
    ensures AgreeExcept(Generate(c, s, p1, projectDir, aiderModel, timeout).1,
                        Generate(c, s, p2, projectDir, aiderModel, timeout).1,
                        FileWrite(PromptFile(projectDir), p1))
  {
    var model := ChooseModel(aiderModel, c);
    var a1 := RunAider(c, s, p1, projectDir, model, timeout);
    var a2 := RunAider(c, s, p2, projectDir, model, timeout);
    assert a1.0 == a2.0;
    assert AgreeExcept(a1.1, a2.1, FileWrite(PromptFile(projectDir), p1));
    PipelineAiderSwap(c, s, projectDir, a1, a2, Harvest(s, projectDir), FileWrite(PromptFile(projectDir), p1));
  }

  /**
   * A tool that exits with an error still yields a successful generation,
   * provided the files can be listed: the output reports the exit code.
   */
  lemma ToolFailureIsNotGenerationFailure(c: Client, s: Script, prompt: string, projectDir: string,
                                          aiderModel: Option<string>, timeout: int)
    requires s.provision.None? && s.run(MkdirCommand(projectDir)).Succeeded()
    requires Truthy(c.aiderTemplateId) || Install(s.run).0.None?
    requires s.write(PromptFile(projectDir)).None?
    requires var cmd := AiderCommand(ChooseModel(aiderModel, c), c.openaiApiKey, c.openaiApiBase, PromptFile(projectDir));
      s.run(cmd).Completed?
    requires s.run(FindCommand(projectDir)).Completed?
    ensures var result := Generate(c, s, prompt, projectDir, aiderModel, timeout).0;
      var cmd := AiderCommand(ChooseModel(aiderModel, c), c.openaiApiKey, c.openaiApiBase, PromptFile(projectDir));
      && result.success && result.errorMessage.None?
      && ReportedExitCode(result.output) == Some(s.run(cmd).exitCode)
  {
    var model := ChooseModel(aiderModel, c);
    AiderExitCodeIsNotAnError(c, s, prompt, projectDir, model, timeout);
    SuccessExactlyWhenStepsComplete(c, s, projectDir, RunAider(c, s, prompt, projectDir, model, timeout), Harvest(s, projectDir));
  }

  /** A `find` that exits non-zero still yields a successful generation, whose files hold only the "error" entry. */
  lemma ListingFailureIsNotGenerationFailure(c: Client, s: Script, prompt: string, projectDir: string,
                                             aiderModel: Option<string>, timeout: int)
    requires s.provision.None? && s.run(MkdirCommand(projectDir)).Succeeded()
    requires Truthy(c.aiderTemplateId) || Install(s.run).0.None?
    requires RunAider(c, s, prompt, projectDir, ChooseModel(aiderModel, c), timeout).0.Ok?
    requires s.run(FindCommand(projectDir)).Completed? && s.run(FindCommand(projectDir)).exitCode != 0
    ensures var result := Generate(c, s, prompt, projectDir, aiderModel, timeout).0;
      && result.success && result.errorMessage.None?
      && result.generatedFiles == map["error" := "Failed to list files: " + s.run(FindCommand(projectDir)).Stderr()]
  {
    var model := ChooseModel(aiderModel, c);
    SuccessExactlyWhenStepsComplete(c, s, projectDir, RunAider(c, s, prompt, projectDir, model, timeout), Harvest(s, projectDir));
  }

  /** `E2BAiderClient.generate_code` against a session. */
  method GenerateCode(c: Client, sb: Session, prompt: string, projectDir: string, aiderModel: Option<string>, timeout: int)
    returns (result: GenerationResult)
    modifies sb
    ensures result == Generate(c, sb.script, prompt, projectDir, aiderModel, timeout).0
    ensures sb.log == old(sb.log) + Generate(c, sb.script, prompt, projectDir, aiderModel, timeout).1
  {
    var model := if Truthy(aiderModel) then aiderModel.value else c.openaiModel;
    ghost var aider := RunAider(c, sb.script, prompt, projectDir, model, timeout);
    ghost var harvest := Harvest(sb.script, projectDir);
    assert model == ChooseModel(aiderModel, c);
    PipelineSteps(c, sb.script, projectDir, aider, harvest);
    var failure := sb.Create(c.e2bApiKey, TemplateFor(c));
    if failure.Some? {
      return Failed(failure.value);
    }
    var mkdirResult := sb.Run("mkdir -p '" + projectDir + "'", None, None);
    if mkdirResult.Raised? {
      return Failed(mkdirResult.message);
    }
    if mkdirResult.exitCode != 0 {
      return Failed("Failed to create project directory: " + mkdirResult.Stderr());
    }
    ghost var setup := [Provision(c.e2bApiKey, TemplateFor(c))] + [Command(MkdirCommand(projectDir), None, None, false)];
    ghost var install := if Truthy(c.aiderTemplateId) then (None, []) else Install(sb.script.run);
    assert sb.log == old(sb.log) + setup;
    ProceedShift(old(sb.log), setup, install, aider, harvest);
    ghost var spec := Proceed(sb.log, install, aider, harvest);
    if !Truthy(c.aiderTemplateId) {
      var installFailure := InstallAider(sb);
      if installFailure.Some? {
        return Failed(installFailure.value);
      }
    } else {
      assert Commands([], None) == [];
      assert sb.log == sb.log + Commands(install.1, None);
    }
    var output := RunAiderPrompt(c, sb, prompt, projectDir, model, timeout);
    if output.Err? {
      return Failed(output.error);
    }
    var files := GetGeneratedFiles(sb, projectDir);
    if files.Err? {
      return Failed(files.error);
    }
    return Succeeded(output.value, files.value);
  }
}

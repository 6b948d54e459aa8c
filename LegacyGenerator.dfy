/**
 * e2b_aider_generator.py, the older variant of the generator: the same
 * pipeline (`E2BAiderClient.generate_code`), but the prompt travels on the
 * aider command line itself, escaped for single quotes; the tool's output is
 * taken from the finished command instead of being streamed; and the
 * generated files are read with `cat`, with no list of files to leave out.
 */
module LegacyGenerator {
  import opened Wrappers
  import opened Text
  import opened ShellWords
  import opened Sandbox
  import opened AiderClient

  // ---------------------------------------------------------------------------
  // Running aider

  /** The option carrying the escaped prompt, and the two flags that end the command. */
  function MessageTail(prompt: string): string {
    "--message '" + EscapeSingleQuotes(prompt) + "' " + "--no-git " + "--yes"
  }

  /** The aider command line of `_run_aider_prompt`, piece by piece as it is built. */
  function AiderCommand(model: string, apiKey: string, apiBase: Option<string>, prompt: string): string {
    CommandHead(model, apiKey, apiBase) + MessageTail(prompt)
  }

  /** The words aider is meant to receive: the prompt is one of them, exactly as given. */
  function AiderArguments(model: string, apiKey: string, apiBase: Option<string>, prompt: string): seq<string> {
    HeadArguments(model, apiKey, apiBase) + ["--message", prompt, "--no-git", "--yes"]
  }

  function TailTokens(prompt: string): seq<Token> {
    [Bare("--message"), EscapedQuoted(prompt), Bare("--no-git")]
  }

  /** The tokens of the command up to its last word, "--yes". */
  function AiderTokens(model: string, apiKey: string, apiBase: Option<string>, prompt: string): seq<Token> {
    HeadTokens(model, apiKey, apiBase) + TailTokens(prompt)
  }

  lemma MessagePiece(prompt: string)
    ensures Spaced(TailTokens(prompt)) + "--yes" == MessageTail(prompt)
  {
    SpacedSplit([Bare("--message"), EscapedQuoted(prompt)], [Bare("--no-git")], TailTokens(prompt));
    SpacedWord("--no-git");
    SpacedOption("--message", EscapedQuoted(prompt), EscapeSingleQuotes(prompt));
  }

  lemma AiderCommandIsSpaced(model: string, apiKey: string, apiBase: Option<string>, prompt: string)
    ensures AiderCommand(model, apiKey, apiBase, prompt) == Spaced(AiderTokens(model, apiKey, apiBase, prompt)) + "--yes"
  {
    var head, tail := HeadTokens(model, apiKey, apiBase), TailTokens(prompt);
    HeadIsSpaced(model, apiKey, apiBase);
    MessagePiece(prompt);
    SpacedAppend(head, tail);
    assert Spaced(head) + (Spaced(tail) + "--yes") == (Spaced(head) + Spaced(tail)) + "--yes";
  }

  /**
   * Whatever the prompt holds (blanks, newlines, single quotes), the shell
   * hands it to aider as the one argument after "--message", unchanged, as
   * long as the model, the key and the API base hold no single quote.
   */
  lemma AiderCommandArguments(model: string, apiKey: string, apiBase: Option<string>, prompt: string)
    requires '\'' !in model && '\'' !in apiKey
    requires Truthy(apiBase) ==> '\'' !in apiBase.value
    ensures Words(AiderCommand(model, apiKey, apiBase, prompt))
         == Some(AiderArguments(model, apiKey, apiBase, prompt))
  {
    var head, tail := HeadTokens(model, apiKey, apiBase), TailTokens(prompt);
    var ts := AiderTokens(model, apiKey, apiBase, prompt);
    HeadSpellsItself(model, apiKey, apiBase);
    OptionWordsArePlain();
    assert forall i | 0 <= i < |ts| :: SpellsItself(ts[i]) by {
      forall i | 0 <= i < |ts| ensures SpellsItself(ts[i]) {
        if i >= |head| {
          assert ts[i] == tail[i - |head|];
        }
      }
    }
    AiderCommandIsSpaced(model, apiKey, apiBase, prompt);
    WordsOfSpacedLine(ts, "--yes");
    HeadTexts(model, apiKey, apiBase);
    TextsAppend(head, tail);
    assert Texts(tail) == ["--message", prompt, "--no-git"] by {
      assert tail[1..] == [EscapedQuoted(prompt), Bare("--no-git")];
      TextsPair(EscapedQuoted(prompt), Bare("--no-git"));
    }
    var hs := HeadArguments(model, apiKey, apiBase);
    assert Texts(ts) + ["--yes"] == hs + ["--message", prompt, "--no-git", "--yes"];
  }

  /**
   * `_run_aider_prompt`: the combined output of the tool (or the message of
   * the exception that ends the step) and the requests it makes. A non-zero
   * exit code of the tool is not an error.
   */
  function RunAider(c: Client, s: Script, prompt: string, projectDir: string, model: string, timeout: int)
    : (r: (Result<string, string>, seq<Request>))
  {
    var cmd := AiderCommand(model, c.openaiApiKey, c.openaiApiBase, prompt);
    var issued := [Command(cmd, Some(projectDir), Some(timeout), false)];
    var reply := s.run(cmd);
    match reply
    case Raised(m) => (Err(m), issued)
    case Completed(code, _) => (Ok(CombinedOutput(reply.Stdout(), reply.Stderr(), code)), issued)
  }

  /**
   * The aider step is one command, run in the project directory with the
   * caller's timeout; it fails only when the SDK raises, and otherwise
   * reports the tool's exit code, whatever it is, on the output's last line.
   */
  lemma AiderExitCodeIsNotAnError(c: Client, s: Script, prompt: string, projectDir: string, model: string, timeout: int)
    ensures var (r, issued) := RunAider(c, s, prompt, projectDir, model, timeout);
      var cmd := AiderCommand(model, c.openaiApiKey, c.openaiApiBase, prompt);
      && issued == [Command(cmd, Some(projectDir), Some(timeout), false)]
      && (r.Ok? <==> s.run(cmd).Completed?)
      && (r.Ok? ==> ReportedExitCode(r.value) == Some(s.run(cmd).exitCode))
      && (r.Err? ==> r.error == s.run(cmd).message)
  {
    var reply := s.run(AiderCommand(model, c.openaiApiKey, c.openaiApiBase, prompt));
    if reply.Completed? {
      ExitCodeIsReported(reply.Stdout(), reply.Stderr(), reply.exitCode);
    }
  }

  /** `_run_aider_prompt` against the session. */
  method RunAiderPrompt(c: Client, sb: Session, prompt: string, projectDir: string, model: string, timeout: int)
    returns (r: Result<string, string>)
    modifies sb
    ensures r == RunAider(c, sb.script, prompt, projectDir, model, timeout).0
    ensures sb.log == old(sb.log) + RunAider(c, sb.script, prompt, projectDir, model, timeout).1
  {
    var escapedPrompt := ReplaceAll(prompt, "'", "'\\''");
    var aiderCmd := "aider --model '" + model + "' ";
    aiderCmd := aiderCmd + ("--openai-api-key '" + c.openaiApiKey + "' ");
    if Truthy(c.openaiApiBase) {
      aiderCmd := aiderCmd + ("--openai-api-base '" + c.openaiApiBase.value + "' ");
    } else {
      assert aiderCmd + BaseOption(c.openaiApiBase) == aiderCmd;
    }
    assert aiderCmd == CommandHead(model, c.openaiApiKey, c.openaiApiBase);
    aiderCmd := aiderCmd + ("--message '" + escapedPrompt + "' " + "--no-git " + "--yes");
    assert aiderCmd == AiderCommand(model, c.openaiApiKey, c.openaiApiBase, prompt);
    var result := sb.Run(aiderCmd, Some(projectDir), Some(timeout));
    if result.Raised? {
      return Err(result.message);
    }
    return Ok(CombinedOutput(result.Stdout(), result.Stderr(), result.exitCode));
  }

  // ---------------------------------------------------------------------------
  // Harvesting the generated files with `cat`

  /** `f"find '{project_dir}' -type f"` */
  function FindCommand(projectDir: string): string {
    "find '" + projectDir + "' -type f"
  }

  /** `find_result.stdout.strip().split('\n')` */
  function ListedPaths(stdout: string): seq<string> {
    Split(Strip(stdout), '\n')
  }

  /** `file_path.replace(f'{project_dir}/', '')` */
  function RelativePath(path: string, projectDir: string): string {
    ReplaceAll(path, projectDir + "/", "")
  }

  /** `f"cat '{file_path}'"` */
  function CatCommand(path: string): string {
    "cat '" + path + "'"
  }

  /** What a finished `cat` leaves in the dictionary: the file's text, or a note with the command's stderr. */
  function CatValue(reply: Reply): string
    requires reply.Completed?
  {
    if reply.exitCode == 0 then reply.Stdout() else "Error reading file: " + reply.Stderr()
  }

  /**
   * The loop of `_get_generated_files` over a list of paths: the dictionary
   * (or the message of the exception a `cat` raises, which ends the loop)
   * and the `cat` commands issued. Every non-blank path is read.
   */
  function CatPaths(paths: seq<string>, projectDir: string, run: string -> Reply)
    : (r: (Result<map<string, string>, string>, seq<Request>))
  {
    if paths == [] then (Ok(map[]), [])
    else
      var before := CatPaths(paths[..|paths| - 1], projectDir, run);
      var p := paths[|paths| - 1];
      if before.0.Err? || IsBlank(p) then before
      else
        var reply := run(CatCommand(p));
        var issued := before.1 + [Command(CatCommand(p), None, None, false)];
        match reply
        case Raised(m) => (Err(m), issued)
        case Completed(_, _) => (Ok(before.0.value[RelativePath(p, projectDir) := CatValue(reply)]), issued)
  }

  /** The `cat` commands for a list of paths, one per non-blank path, in order. */
  function CatsOf(paths: seq<string>): seq<Request> {
    if paths == [] then []
    else
      var p := paths[|paths| - 1];
      CatsOf(paths[..|paths| - 1]) + (if IsBlank(p) then [] else [Command(CatCommand(p), None, None, false)])
  }

  /**
   * A listing is read to its end exactly when no `cat` raises, and then one
   * `cat` is issued per non-blank path; otherwise the loop ends with the
   * message of the first `cat` that raises, right after issuing it.
   */
  lemma {:induction false} CatsIssued(paths: seq<string>, projectDir: string, run: string -> Reply)
    ensures var (r, issued) := CatPaths(paths, projectDir, run);
      && (r.Ok? ==> issued == CatsOf(paths)
                    && forall i | 0 <= i < |paths| && !IsBlank(paths[i]) :: run(CatCommand(paths[i])).Completed?)
      && (r.Err? ==> exists i | 0 <= i < |paths| ::
                       && !IsBlank(paths[i]) && run(CatCommand(paths[i])).Raised?
                       && r.error == run(CatCommand(paths[i])).message
                       && issued == CatsOf(paths[..i + 1]))
    decreases |paths|
  {
    if paths != [] {
      var front := paths[..|paths| - 1];
      var p := paths[|paths| - 1];
      CatsIssued(front, projectDir, run);
      var (r, issued) := CatPaths(paths, projectDir, run);
      var before := CatPaths(front, projectDir, run);
      assert forall i | 0 <= i < |front| :: front[i] == paths[i];
      if before.0.Err? {
        var i :| 0 <= i < |front| && !IsBlank(front[i]) && run(CatCommand(front[i])).Raised?
                 && before.0.error == run(CatCommand(front[i])).message && before.1 == CatsOf(front[..i + 1]);
        assert front[..i + 1] == paths[..i + 1];
      } else if !IsBlank(p) && run(CatCommand(p)).Raised? {
        assert paths[..|paths| - 1 + 1] == paths;
      }
    }
  }

  /**
   * This harvester leaves nothing out: once the loop finishes, the keys are
   * exactly the relative paths of the non-blank listed paths, aider's own
   * bookkeeping files included.
   */
  lemma {:induction false} CatKeys(paths: seq<string>, projectDir: string, run: string -> Reply, k: string)
    requires CatPaths(paths, projectDir, run).0.Ok?
    ensures k in CatPaths(paths, projectDir, run).0.value
        <==> exists i | 0 <= i < |paths| :: !IsBlank(paths[i]) && RelativePath(paths[i], projectDir) == k
    decreases |paths|
  {
    if paths != [] {
      var front := paths[..|paths| - 1];
      CatKeys(front, projectDir, run, k);
      assert forall i | 0 <= i < |front| :: front[i] == paths[i];
    }
  }

  /**
   * The value under a relative path is what the `cat` of the last listed path
   * with that relative path gave: its output on exit code 0, else the note
   * with its stderr.
   */
  lemma {:induction false} CatValueOf(paths: seq<string>, projectDir: string, run: string -> Reply, i: nat)
    requires CatPaths(paths, projectDir, run).0.Ok?
    requires i < |paths| && !IsBlank(paths[i])
    requires forall j | i < j < |paths| && !IsBlank(paths[j])
               :: RelativePath(paths[j], projectDir) != RelativePath(paths[i], projectDir)
    ensures run(CatCommand(paths[i])).Completed?
    ensures RelativePath(paths[i], projectDir) in CatPaths(paths, projectDir, run).0.value
    ensures CatPaths(paths, projectDir, run).0.value[RelativePath(paths[i], projectDir)] == CatValue(run(CatCommand(paths[i])))
    decreases |paths|
  {
    var front := paths[..|paths| - 1];
    if i < |paths| - 1 {
      assert front[i] == paths[i];
      forall j | i < j < |front| && !IsBlank(front[j])
        ensures RelativePath(front[j], projectDir) != RelativePath(front[i], projectDir)
      {
        assert front[j] == paths[j];
      }
      CatValueOf(front, projectDir, run, i);
    }
  }

  /**
   * `_get_generated_files`: the files dictionary (or the message of the
   * exception that ends the step) and the requests made. A failing `find`
   * is not an exception: it yields a dictionary with a single "error" entry.
   */
  function Harvest(s: Script, projectDir: string): (r: (Result<map<string, string>, string>, seq<Request>))
  {
    var find := FindCommand(projectDir);
    var issued := [Command(find, None, None, false)];
    var reply := s.run(find);
    match reply
    case Raised(m) => (Err(m), issued)
    case Completed(code, _) =>
      if code != 0 then (Ok(map["error" := "Failed to list files: " + reply.Stderr()]), issued)
      else
        var cats := CatPaths(ListedPaths(reply.Stdout()), projectDir, s.run);
        (cats.0, issued + cats.1)
  }

  /**
   * The listing step: a `find` that exits non-zero yields the single "error"
   * entry; one that succeeds is followed by one `cat` per non-blank listed
   * path, and the step raises exactly when `find` or one of those `cat`s
   * raises. A `cat` that merely exits non-zero does not end the step.
   */
  lemma HarvestOutcome(s: Script, projectDir: string)
    ensures var (r, issued) := Harvest(s, projectDir);
      var reply := s.run(FindCommand(projectDir));
      && issued[0] == Command(FindCommand(projectDir), None, None, false)
      && (reply.Completed? && reply.exitCode != 0 ==>
            r == Ok(map["error" := "Failed to list files: " + reply.Stderr()]) && |issued| == 1)
      && (reply.Succeeded() ==>
            var paths := ListedPaths(reply.Stdout());
            && (r.Err? <==> exists i | 0 <= i < |paths| :: !IsBlank(paths[i]) && s.run(CatCommand(paths[i])).Raised?)
            && (r.Ok? ==> issued[1..] == CatsOf(paths)))
      && (reply.Raised? ==> r == Err(reply.message) && |issued| == 1)
  {
    var reply := s.run(FindCommand(projectDir));
    if reply.Succeeded() {
      CatsIssued(ListedPaths(reply.Stdout()), projectDir, s.run);
    }
  }

  /** A `cat` that raised ends the loop: nothing is added or issued for the paths after it. */
  lemma {:induction false} CatErrorSticks(paths: seq<string>, j: nat, projectDir: string, run: string -> Reply)
    requires j <= |paths| && CatPaths(paths[..j], projectDir, run).0.Err?
    ensures CatPaths(paths, projectDir, run) == CatPaths(paths[..j], projectDir, run)
    decreases |paths| - j
  {
    if j < |paths| {
      var front := paths[..|paths| - 1];
      assert front[..j] == paths[..j];
      CatErrorSticks(front, j, projectDir, run);
    } else {
      assert paths[..j] == paths;
    }
  }

  /** One more listed path, while no `cat` has raised. */
  lemma CatStep(paths: seq<string>, i: nat, projectDir: string, run: string -> Reply)
    requires i < |paths| && CatPaths(paths[..i], projectDir, run).0.Ok?
    ensures var p, before := paths[i], CatPaths(paths[..i], projectDir, run);
      var cmd := Command(CatCommand(p), None, None, false);
      var reply := run(CatCommand(p));
      && (IsBlank(p) ==> CatPaths(paths[..i + 1], projectDir, run) == before)
      && (!IsBlank(p) && reply.Raised? ==>
            CatPaths(paths[..i + 1], projectDir, run) == (Err(reply.message), before.1 + [cmd]))
      && (!IsBlank(p) && reply.Completed? ==>
            CatPaths(paths[..i + 1], projectDir, run)
            == (Ok(before.0.value[RelativePath(p, projectDir) := CatValue(reply)]), before.1 + [cmd]))
  {
    assert paths[..i + 1][..i] == paths[..i];
  }

  /** The loop of `_get_generated_files`: one `cat` per non-blank path, until one raises. */
  method ReadListedFiles(sb: Session, filePaths: seq<string>, projectDir: string)
    returns (r: Result<map<string, string>, string>)
    modifies sb
    ensures r == CatPaths(filePaths, projectDir, sb.script.run).0
    ensures sb.log == old(sb.log) + CatPaths(filePaths, projectDir, sb.script.run).1
  {
    var filesDict := map[];
    var i := 0;
    while i < |filePaths|
      invariant 0 <= i <= |filePaths|
      invariant CatPaths(filePaths[..i], projectDir, sb.script.run).0 == Ok(filesDict)
      invariant sb.log == old(sb.log) + CatPaths(filePaths[..i], projectDir, sb.script.run).1
    {
      var filePath := filePaths[i];
      CatStep(filePaths, i, projectDir, sb.script.run);
      if IsBlank(filePath) {
        i := i + 1;
        continue;
      }
      var relPath := ReplaceAll(filePath, projectDir + "/", "");
      var catResult := sb.Run("cat '" + filePath + "'", None, None);
      if catResult.Raised? {
        CatErrorSticks(filePaths, i + 1, projectDir, sb.script.run);
        return Err(catResult.message);
      }
      if catResult.exitCode == 0 {
        filesDict := filesDict[relPath := catResult.Stdout()];
      } else {
        filesDict := filesDict[relPath := "Error reading file: " + catResult.Stderr()];
      }
      i := i + 1;
    }
    assert filePaths[..i] == filePaths;
    return Ok(filesDict);
  }

  /** `Harvest` case by case, as the method below takes the cases. */
  lemma HarvestCases(s: Script, projectDir: string)
    ensures var reply := s.run(FindCommand(projectDir));
      var issued := [Command(FindCommand(projectDir), None, None, false)];
      && (reply.Raised? ==> Harvest(s, projectDir) == (Err(reply.message), issued))
      && (reply.Completed? && reply.exitCode != 0 ==>
            Harvest(s, projectDir) == (Ok(map["error" := "Failed to list files: " + reply.Stderr()]), issued))
      && (reply.Succeeded() ==>
            Harvest(s, projectDir) == (CatPaths(ListedPaths(reply.Stdout()), projectDir, s.run).0,
                                       issued + CatPaths(ListedPaths(reply.Stdout()), projectDir, s.run).1))
  {
  }

  /** `_get_generated_files` against the session. */
  method GetGeneratedFiles(sb: Session, projectDir: string) returns (r: Result<map<string, string>, string>)
    modifies sb
    ensures r == Harvest(sb.script, projectDir).0
    ensures sb.log == old(sb.log) + Harvest(sb.script, projectDir).1
  {
    HarvestCases(sb.script, projectDir);
    var findResult := sb.Run("find '" + projectDir + "' -type f", None, None);
    if findResult.Raised? {
      return Err(findResult.message);
    }
    if findResult.exitCode != 0 {
      return Ok(map["error" := "Failed to list files: " + findResult.Stderr()]);
    }
    var filePaths := ListedPaths(findResult.Stdout());
    r := ReadListedFiles(sb, filePaths, projectDir);
    assert sb.log == old(sb.log) + [Command(FindCommand(projectDir), None, None, false)]
                     + CatPaths(filePaths, projectDir, sb.script.run).1;
  }

  // ---------------------------------------------------------------------------
  // generate_code

  /** `generate_code(prompt, project_dir, aider_model, timeout)`: the result and the requests made. */
  function Generate(c: Client, s: Script, prompt: string, projectDir: string, aiderModel: Option<string>, timeout: int)
    : (r: (GenerationResult, seq<Request>))
    ensures ValidResult(r.0)
  {
    Pipeline(c, s, projectDir,
             RunAider(c, s, prompt, projectDir, ChooseModel(aiderModel, c), timeout),
             Harvest(s, projectDir))
  }

  /**
   * A tool that exits with an error still yields a successful generation,
   * provided the files can be listed and read without the SDK raising: the
   * output reports the exit code.
   */
  lemma ToolFailureIsNotGenerationFailure(c: Client, s: Script, prompt: string, projectDir: string,
                                          aiderModel: Option<string>, timeout: int)
    requires s.provision.None? && s.run(MkdirCommand(projectDir)).Succeeded()
    requires Truthy(c.aiderTemplateId) || Install(s.run).0.None?
    requires s.run(AiderCommand(ChooseModel(aiderModel, c), c.openaiApiKey, c.openaiApiBase, prompt)).Completed?
    requires Harvest(s, projectDir).0.Ok?
    ensures var result := Generate(c, s, prompt, projectDir, aiderModel, timeout).0;
      var cmd := AiderCommand(ChooseModel(aiderModel, c), c.openaiApiKey, c.openaiApiBase, prompt);
      && result.success && result.errorMessage.None?
      && ReportedExitCode(result.output) == Some(s.run(cmd).exitCode)
      && result.generatedFiles == Harvest(s, projectDir).0.value
  {
    var model := ChooseModel(aiderModel, c);
    AiderExitCodeIsNotAnError(c, s, prompt, projectDir, model, timeout);
    SuccessExactlyWhenStepsComplete(c, s, projectDir, RunAider(c, s, prompt, projectDir, model, timeout), Harvest(s, projectDir));
  }

  /** A `find` that exits non-zero still yields a successful generation, whose files hold only the "error" entry. */
  lemma ListingFailureIsNotGenerationFailure(c: Client, s: Script, prompt: string, projectDir: string,
                                             aiderModel: Option<string>, timeout: int)
    requires s.provision.None? && s.run(MkdirCommand(projectDir)).Succeeded()
    requires Truthy(c.aiderTemplateId) || Install(s.run).0.None?
    requires s.run(AiderCommand(ChooseModel(aiderModel, c), c.openaiApiKey, c.openaiApiBase, prompt)).Completed?
    requires s.run(FindCommand(projectDir)).Completed? && s.run(FindCommand(projectDir)).exitCode != 0
    ensures var result := Generate(c, s, prompt, projectDir, aiderModel, timeout).0;
      && result.success && result.errorMessage.None?
      && result.generatedFiles == map["error" := "Failed to list files: " + s.run(FindCommand(projectDir)).Stderr()]
  {
    var model := ChooseModel(aiderModel, c);
    SuccessExactlyWhenStepsComplete(c, s, projectDir, RunAider(c, s, prompt, projectDir, model, timeout), Harvest(s, projectDir));
  }

  /**
   * A `cat` that raises (a timeout, a lost connection) is not isolated the
   * way a non-zero exit is: it ends the whole generation as a failure
   * carrying that exception's message.
   */
  lemma RaisingReadFailsGeneration(c: Client, s: Script, prompt: string, projectDir: string,
                                   aiderModel: Option<string>, timeout: int, i: nat)
    requires s.provision.None? && s.run(MkdirCommand(projectDir)).Succeeded()
    requires Truthy(c.aiderTemplateId) || Install(s.run).0.None?
    requires s.run(AiderCommand(ChooseModel(aiderModel, c), c.openaiApiKey, c.openaiApiBase, prompt)).Completed?
    requires s.run(FindCommand(projectDir)).Succeeded()
    requires var paths := ListedPaths(s.run(FindCommand(projectDir)).Stdout());
      i < |paths| && !IsBlank(paths[i]) && s.run(CatCommand(paths[i])).Raised?
    ensures var result := Generate(c, s, prompt, projectDir, aiderModel, timeout).0;
      && !result.success && result.generatedFiles == map[] && result.errorMessage.Some?
  {
    var model := ChooseModel(aiderModel, c);
    HarvestOutcome(s, projectDir);
    SuccessExactlyWhenStepsComplete(c, s, projectDir, RunAider(c, s, prompt, projectDir, model, timeout), Harvest(s, projectDir));
  }

  /** `E2BAiderClient.generate_code` of e2b_aider_generator.py against a session. */
  method GenerateCode(c: Client, sb: Session, prompt: string, projectDir: string, aiderModel: Option<string>, timeout: int)
    returns (result: GenerationResult)
    modifies sb
    ensures result == Generate(c, sb.script, prompt, projectDir, aiderModel, timeout).0
    ensures sb.log == old(sb.log) + Generate(c, sb.script, prompt, projectDir, aiderModel, timeout).1
  {
    var model := if Truthy(aiderModel) then aiderModel.value else c.openaiModel;
    ghost var aider := RunAider(c, sb.script, prompt, projectDir, model, timeout);
    ghost var harvest := Harvest(sb.script, projectDir);
    assert model == ChooseModel(aiderModel, c);
    PipelineSteps(c, sb.script, projectDir, aider, harvest);
    var failure := sb.Create(c.e2bApiKey, TemplateFor(c));
    if failure.Some? {
      return Failed(failure.value);
    }
    var mkdirResult := sb.Run("mkdir -p '" + projectDir + "'", None, None);
    if mkdirResult.Raised? {
      return Failed(mkdirResult.message);
    }
    if mkdirResult.exitCode != 0 {
      return Failed("Failed to create project directory: " + mkdirResult.Stderr());
    }
    ghost var setup := [Provision(c.e2bApiKey, TemplateFor(c))] + [Command(MkdirCommand(projectDir), None, None, false)];
    ghost var install := if Truthy(c.aiderTemplateId) then (None, []) else Install(sb.script.run);
    assert sb.log == old(sb.log) + setup;
    ProceedShift(old(sb.log), setup, install, aider, harvest);
    ghost var spec := Proceed(sb.log, install, aider, harvest);
    if !Truthy(c.aiderTemplateId) {
      var installFailure := InstallAider(sb);
      if installFailure.Some? {
        return Failed(installFailure.value);
      }
    } else {
      assert Commands([], None) == [];
      assert sb.log == sb.log + Commands(install.1, None);
    }
    var output := RunAiderPrompt(c, sb, prompt, projectDir, model, timeout);
    if output.Err? {
      return Failed(output.error);
    }
    var files := GetGeneratedFiles(sb, projectDir);
    if files.Err? {
      return Failed(files.error);
    }
    return Succeeded(output.value, files.value);
  }
}

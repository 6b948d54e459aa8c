/**
 * What generator.py and e2b_aider_generator.py share, line for line: the
 * client's configuration (`E2BAiderClient.__init__`), the result record
 * (`CodeGenerationResult`), the aider installation sequence (`_install_aider`),
 * the project-directory command and the format of the combined output.
 *
 * The client's fields are set once, in `__init__`, and never changed
 * afterwards, so the client is a value here: `NewClient` builds it or reports
 * the `ValueError` that `__init__` raises.
 */
module AiderClient {
  import opened Wrappers
  import opened Text
  import opened Sandbox
  import opened ShellWords

  /** The process environment, as the `os.getenv` lookups see it. */
  type Env = map<string, string>

  /** `os.getenv(name)` */
  function GetEnv(env: Env, name: string): Option<string> {
    if name in env then Some(env[name]) else None
  }

  /** `explicit or os.getenv(name)`: an empty or absent argument gives way to the environment. */
  function OrEnv(explicit: Option<string>, env: Env, name: string): Option<string> {
    if Truthy(explicit) then explicit else GetEnv(env, name)
  }

  /** The arguments of `E2BAiderClient(...)`. */
  datatype ClientArgs = ClientArgs(
    e2bApiKey: Option<string>,
    openaiApiKey: Option<string>,
    openaiApiBase: Option<string>,
    openaiModel: Option<string>,
    sandboxTemplate: string,
    aiderTemplateId: Option<string>)

  /** A configured `E2BAiderClient`. */
  datatype Client = Client(
    e2bApiKey: string,
    openaiApiKey: string,
    openaiApiBase: Option<string>,
    openaiModel: string,
    sandboxTemplate: string,
    aiderTemplateId: Option<string>)

  const DefaultModel: string := "gpt-4"
  const IsRequired: string := " environment variable is required"
  const MissingE2bKey: string := "E2B_API_KEY" + IsRequired
  const MissingOpenaiKey: string := "OPENAI_API_KEY" + IsRequired

  /** `E2BAiderClient.__init__`, up to the SDK import: the client, or the `ValueError` message. */
  function NewClient(args: ClientArgs, env: Env): (r: Result<Client, string>)
    ensures r.Ok? <==> Truthy(OrEnv(args.e2bApiKey, env, "E2B_API_KEY"))
                       && Truthy(OrEnv(args.openaiApiKey, env, "OPENAI_API_KEY"))
    ensures r.Ok? ==> r.value.e2bApiKey != [] && r.value.openaiApiKey != []
  {
    var e2bKey := OrEnv(args.e2bApiKey, env, "E2B_API_KEY");
    var openaiKey := OrEnv(args.openaiApiKey, env, "OPENAI_API_KEY");
    var base := OrEnv(args.openaiApiBase, env, "OPENAI_API_BASE");
    var model :=
      if Truthy(args.openaiModel) then args.openaiModel.value
      else if "OPENAI_MODEL" in env then env["OPENAI_MODEL"]
      else DefaultModel;
    var template := OrEnv(args.aiderTemplateId, env, "AIDER_TEMPLATE_ID");
    if !Truthy(e2bKey) then Err(MissingE2bKey)
    else if !Truthy(openaiKey) then Err(MissingOpenaiKey)
    else Ok(Client(e2bKey.value, openaiKey.value, base, model, args.sandboxTemplate, template))
  }

  /** A non-empty explicit argument wins over the environment, for every configurable field. */
  lemma ExplicitArgumentWins(args: ClientArgs, env: Env)
    requires NewClient(args, env).Ok?
    ensures var c := NewClient(args, env).value;
      && (Truthy(args.e2bApiKey) ==> c.e2bApiKey == args.e2bApiKey.value)
      && (Truthy(args.openaiApiKey) ==> c.openaiApiKey == args.openaiApiKey.value)
      && (Truthy(args.openaiApiBase) ==> c.openaiApiBase == args.openaiApiBase)
      && (Truthy(args.openaiModel) ==> c.openaiModel == args.openaiModel.value)
      && (Truthy(args.aiderTemplateId) ==> c.aiderTemplateId == args.aiderTemplateId)
  {
  }

  /** An empty or absent argument falls back to the environment; the model falls back to "gpt-4". */
  lemma EmptyArgumentFallsBack(args: ClientArgs, env: Env)
    requires NewClient(args, env).Ok?
    ensures var c := NewClient(args, env).value;
      && (!Truthy(args.e2bApiKey) ==> "E2B_API_KEY" in env && c.e2bApiKey == env["E2B_API_KEY"])
      && (!Truthy(args.openaiApiKey) ==> "OPENAI_API_KEY" in env && c.openaiApiKey == env["OPENAI_API_KEY"])
      && (!Truthy(args.openaiApiBase) ==> c.openaiApiBase == GetEnv(env, "OPENAI_API_BASE"))
      && (!Truthy(args.aiderTemplateId) ==> c.aiderTemplateId == GetEnv(env, "AIDER_TEMPLATE_ID"))
      && (!Truthy(args.openaiModel) && "OPENAI_MODEL" in env ==> c.openaiModel == env["OPENAI_MODEL"])
      && (!Truthy(args.openaiModel) && "OPENAI_MODEL" !in env ==> c.openaiModel == "gpt-4")
  {
  }

  /**
   * A missing E2B key is reported before the OpenAI key is looked at, and the
   * message names the variable that is missing.
   */
  lemma MissingKeyIsReported(args: ClientArgs, env: Env)
    requires !Truthy(OrEnv(args.e2bApiKey, env, "E2B_API_KEY"))
          || !Truthy(OrEnv(args.openaiApiKey, env, "OPENAI_API_KEY"))
    ensures var r := NewClient(args, env);
      && r.Err?
      && (!Truthy(OrEnv(args.e2bApiKey, env, "E2B_API_KEY")) ==> r.error == MissingE2bKey && Contains(r.error, "E2B_API_KEY"))
      && (Truthy(OrEnv(args.e2bApiKey, env, "E2B_API_KEY")) ==> Contains(r.error, "OPENAI_API_KEY"))
  {
    MessagesNameVariables();
  }

  lemma MessagesNameVariables()
    ensures Contains(MissingE2bKey, "E2B_API_KEY") && Contains(MissingOpenaiKey, "OPENAI_API_KEY")
  {
    ContainsWitness(MissingE2bKey, "E2B_API_KEY", 0);
    ContainsWitness(MissingOpenaiKey, "OPENAI_API_KEY", 0);
  }

  /** The template the session is created from: `aider_template_id` when it is set. */
  function TemplateFor(c: Client): Option<string> {
    if Truthy(c.aiderTemplateId) then c.aiderTemplateId else None
  }

  /** `aider_model or self.openai_model` */
  function ChooseModel(aiderModel: Option<string>, c: Client): string {
    if Truthy(aiderModel) then aiderModel.value else c.openaiModel
  }

  // ---------------------------------------------------------------------------
  // The result record

  /** `CodeGenerationResult`, without `execution_time`. */
  datatype GenerationResult = GenerationResult(
    success: bool,
    output: string,
    generatedFiles: map<string, string>,
    errorMessage: Option<string>)

  /** The record `generate_code` returns from its `except` branch. */
  function Failed(message: string): GenerationResult {
    GenerationResult(false, "", map[], Some(message))
  }

  /** The record `generate_code` returns when every step went through. */
  function Succeeded(output: string, files: map<string, string>): GenerationResult {
    GenerationResult(true, output, files, None)
  }

  /** A failure carries a message and nothing else; a success carries no message. */
  predicate ValidResult(r: GenerationResult) {
    && (r.success ==> r.errorMessage.None?)
    && (!r.success ==> r.output == [] && r.generatedFiles == map[] && r.errorMessage.Some?)
  }

  // ---------------------------------------------------------------------------
  // The aider run's combined output

  /** `f'STDOUT:\n{out}\nSTDERR:\n{err}\nReturn code: {code}'` */
  function CombinedOutput(out: string, err: string, exitCode: int): string {
    "STDOUT:\n" + out + "\nSTDERR:\n" + err + "\nReturn code: " + IntToString(exitCode)
  }

  /** The text after the last newline. */
  function LastLine(s: string): (r: string)
    ensures '\n' !in r
  {
    if s == [] || s[|s| - 1] == '\n' then [] else LastLine(s[..|s| - 1]) + [s[|s| - 1]]
  }

  lemma {:induction false} LastLineAfterNewline(a: string, b: string)
    requires '\n' !in b
    ensures LastLine(a + "\n" + b) == b
    decreases |b|
  {
    var s := a + "\n" + b;
    if b != [] {
      assert s[..|s| - 1] == a + "\n" + b[..|b| - 1];
      LastLineAfterNewline(a, b[..|b| - 1]);
      assert b[..|b| - 1] + [b[|b| - 1]] == b;
    }
  }

  /** The exit code an output reports on its last line, if it has one. */
  function ReportedExitCode(output: string): Option<int> {
    var line := LastLine(output);
    if StartsWith(line, "Return code: ") then ParseInt(line[|"Return code: "|..]) else None
  }

  /** Whatever the tool printed, the combined output reports the tool's exit code on its last line. */
  lemma ExitCodeIsReported(out: string, err: string, exitCode: int)
    ensures ReportedExitCode(CombinedOutput(out, err, exitCode)) == Some(exitCode)
  {
    var digits := IntToString(exitCode);
    assert '\n' !in digits;
    var line := "Return code: " + digits;
    var o := CombinedOutput(out, err, exitCode);
    assert o == ("STDOUT:\n" + out + "\nSTDERR:\n" + err) + "\n" + line;
    LastLineAfterNewline("STDOUT:\n" + out + "\nSTDERR:\n" + err, line);
    assert line[|"Return code: "|..] == digits;
    IntToStringRoundTrip(exitCode);
  }

  // ---------------------------------------------------------------------------
  // The head of the aider command line

  /** The piece the command gains for an API base: nothing unless one is configured. */
  function BaseOption(apiBase: Option<string>): string {
    if Truthy(apiBase) then "--openai-api-base '" + apiBase.value + "' " else ""
  }

  /**
   * The aider command line up to the option carrying the prompt, as both
   * `_run_aider_prompt`s build it: the model, the key, then the API base when
   * one is configured, each value in single quotes.
   */
  function CommandHead(model: string, apiKey: string, apiBase: Option<string>): string {
    ("aider --model '" + model + "' ") + ("--openai-api-key '" + apiKey + "' ") + BaseOption(apiBase)
  }

  /** The words aider is meant to receive from the head. */
  function HeadArguments(model: string, apiKey: string, apiBase: Option<string>): seq<string> {
    ["aider", "--model", model, "--openai-api-key", apiKey]
    + (if Truthy(apiBase) then ["--openai-api-base", apiBase.value] else [])
  }

  /** The head as tokens, in the three pieces it is built from. */
  function HeadTokens(model: string, apiKey: string, apiBase: Option<string>): seq<Token> {
    [Bare("aider"), Bare("--model"), SingleQuoted(model)]
    + [Bare("--openai-api-key"), SingleQuoted(apiKey)]
    + BaseTokens(apiBase)
  }

  function BaseTokens(apiBase: Option<string>): seq<Token> {
    if Truthy(apiBase) then [Bare("--openai-api-base"), SingleQuoted(apiBase.value)] else []
  }

  /** The option words of both command lines, which the shell reads as they are. */
  lemma OptionWordsArePlain()
    ensures IsPlainText("aider") && IsPlainText("--model") && IsPlainText("--openai-api-key")
    ensures IsPlainText("--openai-api-base") && IsPlainText("--message-file") && IsPlainText("--message")
    ensures IsPlainText("--no-git") && IsPlainText("--yes")
  {
  }

  /** An option followed by its quoted value, then a blank. */
  lemma SpacedOption(name: string, value: Token, quoted: string)
    requires Spell(value) == "'" + quoted + "'"
    ensures Spaced([Bare(name), value]) == name + " '" + quoted + "' "
  {
    var ts := [Bare(name), value];
    assert ts[1..] == [value] && ts[1..][1..] == [];
    assert Spaced(ts[1..]) == "'" + quoted + "'" + " " + [];
    assert Spaced(ts) == name + " " + ("'" + quoted + "'" + " " + []);
    assert " '" == " " + "'" && "' " == "'" + " ";
  }

  lemma ModelPiece(model: string)
    ensures Spaced([Bare("aider"), Bare("--model"), SingleQuoted(model)]) == "aider --model '" + model + "' "
  {
    WordThenOption("aider", "--model", SingleQuoted(model), model);
    assert "aider --model '" == "aider" + " " + "--model" + " '";
  }

  /** A bare word followed by an option whose value is quoted. */
  lemma WordThenOption(word: string, name: string, value: Token, quoted: string)
    requires Spell(value) == "'" + quoted + "'"
    ensures Spaced([Bare(word), Bare(name), value]) == (word + " " + name + " '") + quoted + "' "
  {
    SpacedSplit([Bare(word)], [Bare(name), value], [Bare(word), Bare(name), value]);
    SpacedWord(word);
    SpacedOption(name, value, quoted);
    assert (word + " ") + (name + " '" + quoted + "' ") == (word + " " + name + " '") + quoted + "' ";
  }

  lemma BasePiece(apiBase: Option<string>)
    ensures Spaced(BaseTokens(apiBase)) == BaseOption(apiBase)
  {
    if Truthy(apiBase) {
      SpacedOption("--openai-api-base", SingleQuoted(apiBase.value), apiBase.value);
    }
  }

  /** The head is its tokens, each followed by a blank. */
  lemma HeadIsSpaced(model: string, apiKey: string, apiBase: Option<string>)
    ensures Spaced(HeadTokens(model, apiKey, apiBase)) == CommandHead(model, apiKey, apiBase)
  {
    ModelPiece(model);
    SpacedOption("--openai-api-key", SingleQuoted(apiKey), apiKey);
    BasePiece(apiBase);
    Assemble([Bare("aider"), Bare("--model"), SingleQuoted(model)],
             [Bare("--openai-api-key"), SingleQuoted(apiKey)],
             BaseTokens(apiBase),
             "aider --model '" + model + "' ", "--openai-api-key '" + apiKey + "' ", BaseOption(apiBase));
  }

  /** The head's tokens stand for the head's intended words. */
  lemma HeadTexts(model: string, apiKey: string, apiBase: Option<string>)
    ensures Texts(HeadTokens(model, apiKey, apiBase)) == HeadArguments(model, apiKey, apiBase)
  {
    var t1 := [Bare("aider"), Bare("--model"), SingleQuoted(model)];
    var t2 := [Bare("--openai-api-key"), SingleQuoted(apiKey)];
    var t3 := BaseTokens(apiBase);
    TextsAppend(t1 + t2, t3);
    TextsAppend(t1, t2);
    assert Texts(t1) == ["aider", "--model", model] by {
      assert t1[1..] == [Bare("--model"), SingleQuoted(model)];
      TextsPair(Bare("--model"), SingleQuoted(model));
    }
    TextsPair(Bare("--openai-api-key"), SingleQuoted(apiKey));
    if Truthy(apiBase) {
      TextsPair(Bare("--openai-api-base"), SingleQuoted(apiBase.value));
    }
  }

  /** With no single quote in the model, the key or the API base, the shell reads each head token back as its text. */
  lemma HeadSpellsItself(model: string, apiKey: string, apiBase: Option<string>)
    requires '\'' !in model && '\'' !in apiKey
    requires Truthy(apiBase) ==> '\'' !in apiBase.value
    ensures forall i | 0 <= i < |HeadTokens(model, apiKey, apiBase)| :: SpellsItself(HeadTokens(model, apiKey, apiBase)[i])
  {
    OptionWordsArePlain();
  }

  // ---------------------------------------------------------------------------
  // Installing aider

  const InstallCommands: seq<string> := ["pip install aider-chat", "pip install openai"]
  const VerifyCommand: string := "which aider"

  function InstallErrorMessage(cmd: string, stderr: string): string {
    "Failed to install aider with command \"" + cmd + "\": " + stderr
  }

  function MissingAiderMessage(stderr: string): string {
    "Aider not found after installation: " + stderr
  }

  /** The message of the exception that a failing install command raises. */
  function InstallFailure(cmd: string, reply: Reply): string
    requires !reply.Succeeded()
  {
    match reply
    case Raised(m) => m
    case Completed(_, _) => InstallErrorMessage(cmd, reply.Stderr())
  }

  /** `_install_aider`: the exception it raises (if any) and the commands it issues, in order. */
  function Install(run: string -> Reply): (r: (Option<string>, seq<string>))
  {
    var k := FirstFailure(run, InstallCommands);
    if k < |InstallCommands| then
      (Some(InstallFailure(InstallCommands[k], run(InstallCommands[k]))), InstallCommands[..k + 1])
    else
      var verify := run(VerifyCommand);
      var issued := InstallCommands + [VerifyCommand];
      match verify
      case Raised(m) => (Some(m), issued)
      case Completed(code, _) =>
        (if code != 0 then Some(MissingAiderMessage(verify.Stderr())) else None, issued)
  }

  /**
   * The install sequence runs 'pip install aider-chat', 'pip install openai'
   * and 'which aider' in that order and stops at the first that fails; it
   * reports no error exactly when all three succeed, and a failing pip command
   * is named in the error.
   */
  lemma InstallStopsAtFirstFailure(run: string -> Reply)
    ensures var (failure, issued) := Install(run);
      var all := ["pip install aider-chat", "pip install openai", "which aider"];
      && issued <= all && issued != []
      && (failure.None? <==> (issued == all && forall i | 0 <= i < 3 :: run(all[i]).Succeeded()))
      && (failure.Some? ==> !run(issued[|issued| - 1]).Succeeded()
                            && forall i | 0 <= i < |issued| - 1 :: run(issued[i]).Succeeded())
      && ((failure.Some? && |issued| < 3 && run(issued[|issued| - 1]).Completed?)
          ==> Contains(failure.value, issued[|issued| - 1]))
  {
    var (failure, issued) := Install(run);
    var all := ["pip install aider-chat", "pip install openai", "which aider"];
    assert InstallCommands + [VerifyCommand] == all;
    var k := FirstFailure(run, InstallCommands);
    if k < |InstallCommands| {
      var cmd := InstallCommands[k];
      assert issued == InstallCommands[..k + 1] && issued[k] == cmd;
      assert issued <= all;
      assert issued[|issued| - 1] == cmd;
      if run(cmd).Completed? {
        var head := "Failed to install aider with command \"";
        var rest := "\": " + run(cmd).Stderr();
        ContainsMiddle(head, cmd, rest);
        assert failure.value == head + cmd + rest;
      }
    } else {
      assert issued == all;
      assert forall i | 0 <= i < 2 :: run(all[i]).Succeeded();
      assert all[2] == VerifyCommand;
      assert failure.None? <==> run(VerifyCommand).Succeeded();
    }
  }

  /** The install ends at the first pip command that does not succeed. */
  lemma InstallEndsAt(run: string -> Reply, i: nat)
    requires i < |InstallCommands| && i <= FirstFailure(run, InstallCommands)
    requires !run(InstallCommands[i]).Succeeded()
    ensures Install(run) == (Some(InstallFailure(InstallCommands[i], run(InstallCommands[i]))), InstallCommands[..i + 1])
  {
  }

  /** When both pip commands succeed, 'which aider' decides. */
  lemma InstallReachesVerify(run: string -> Reply)
    requires FirstFailure(run, InstallCommands) == |InstallCommands|
    ensures Commands(Install(run).1, None)
         == Commands(InstallCommands[..|InstallCommands|], None) + [Command(VerifyCommand, None, None, false)]
    ensures Install(run).0 == match run(VerifyCommand)
      case Raised(m) => Some(m)
      case Completed(code, _) =>
        if code != 0 then Some(MissingAiderMessage(run(VerifyCommand).Stderr())) else None
  {
    var all := InstallCommands + [VerifyCommand];
    assert all[..|all| - 1] == InstallCommands[..|InstallCommands|];
  }

  /** `_install_aider` against the session. */
  method InstallAider(sb: Session) returns (failure: Option<string>)
    modifies sb
    ensures failure == Install(sb.script.run).0
    ensures sb.log == old(sb.log) + Commands(Install(sb.script.run).1, None)
  {
    failure := PipInstalls(sb, InstallCommands);
    if failure.Some? {
      InstallEndsAt(sb.script.run, FirstFailure(sb.script.run, InstallCommands));
      return failure;
    }
    InstallReachesVerify(sb.script.run);
    failure := VerifyAider(sb);
  }

  /** The pip commands of `_install_aider`, in order, up to the first that fails. */
  method PipInstalls(sb: Session, cmds: seq<string>) returns (failure: Option<string>)
    modifies sb
    ensures failure.Some? <==> FirstFailure(sb.script.run, cmds) < |cmds|
    ensures failure.Some? ==> var k := FirstFailure(sb.script.run, cmds);
      failure.value == InstallFailure(cmds[k], sb.script.run(cmds[k]))
      && sb.log == old(sb.log) + Commands(cmds[..k + 1], None)
    ensures failure.None? ==> sb.log == old(sb.log) + Commands(cmds[..|cmds|], None)
  {
    var i := 0;
    while i < |cmds|
      invariant 0 <= i <= |cmds|
      invariant i <= FirstFailure(sb.script.run, cmds)
      invariant sb.log == old(sb.log) + Commands(cmds[..i], None)
    {
      var cmd := cmds[i];
      failure := RunInstallCommand(sb, cmd);
      assert cmds[..i + 1] == cmds[..i] + [cmd];
      LogSnoc(old(sb.log), cmds[..i], cmd, None);
      if failure.Some? {
        FirstFailureAt(sb.script.run, cmds, i);
        return failure;
      }
      i := i + 1;
    }
    return None;
  }

  /** One pip command of `_install_aider`: an exception when it raises or exits non-zero. */
  method RunInstallCommand(sb: Session, cmd: string) returns (failure: Option<string>)
    modifies sb
    ensures failure.None? <==> sb.script.run(cmd).Succeeded()
    ensures failure.Some? ==> failure.value == InstallFailure(cmd, sb.script.run(cmd))
    ensures sb.log == old(sb.log) + [Command(cmd, None, None, false)]
  {
    var result := sb.Run(cmd, None, None);
    if result.Raised? {
      return Some(result.message);
    }
    if result.exitCode != 0 {
      return Some(InstallErrorMessage(cmd, result.Stderr()));
    }
    return None;
  }

  /** The closing 'which aider' check of `_install_aider`. */
  method VerifyAider(sb: Session) returns (failure: Option<string>)
    modifies sb
    ensures failure == match sb.script.run(VerifyCommand)
      case Raised(m) => Some(m)
      case Completed(code, _) =>
        if code != 0 then Some(MissingAiderMessage(sb.script.run(VerifyCommand).Stderr())) else None
    ensures sb.log == old(sb.log) + [Command(VerifyCommand, None, None, false)]
  {
    var verify := sb.Run(VerifyCommand, None, None);
    if verify.Raised? {
      return Some(verify.message);
    }
    if verify.exitCode != 0 {
      return Some(MissingAiderMessage(verify.Stderr()));
    }
    return None;
  }

  // ---------------------------------------------------------------------------
  // The pipeline of `generate_code`

  /** `f"mkdir -p '{project_dir}'"` */
  function MkdirCommand(projectDir: string): string {
    "mkdir -p '" + projectDir + "'"
  }

  /**
   * `generate_code` of either generator file, given what its aider step and its
   * harvest step would do (their outcome and the requests they make): create
   * the session, make the project directory, install aider unless a template
   * provides it, run aider, harvest the files. Every raised exception becomes a
   * failed result carrying its message, and nothing runs after it.
   */
  function Pipeline(
    c: Client, s: Script, projectDir: string,
    aider: (Result<string, string>, seq<Request>),
    harvest: (Result<map<string, string>, string>, seq<Request>)): (r: (GenerationResult, seq<Request>))
    ensures ValidResult(r.0)
    ensures |r.1| >= 1 && r.1[0] == Provision(c.e2bApiKey, TemplateFor(c))
  {
    var created := [Provision(c.e2bApiKey, TemplateFor(c))];
    if s.provision.Some? then (Failed(s.provision.value), created)
    else
      var mkdir := MkdirCommand(projectDir);
      var afterMkdir := created + [Command(mkdir, None, None, false)];
      var reply := s.run(mkdir);
      if reply.Raised? then (Failed(reply.message), afterMkdir)
      else if reply.exitCode != 0 then (Failed("Failed to create project directory: " + reply.Stderr()), afterMkdir)
      else
        var install := if Truthy(c.aiderTemplateId) then (None, []) else Install(s.run);
        Proceed(afterMkdir, install, aider, harvest)
  }

  /**
   * The steps of `generate_code` once the project directory exists: the
   * install (when it runs), aider, the harvest; `issued` is what was
   * requested before them.
   */
  function Proceed(
    issued: seq<Request>,
    install: (Option<string>, seq<string>),
    aider: (Result<string, string>, seq<Request>),
    harvest: (Result<map<string, string>, string>, seq<Request>)): (r: (GenerationResult, seq<Request>))
    ensures ValidResult(r.0)
    ensures issued <= r.1
  {
    var afterInstall := issued + Commands(install.1, None);
    if install.0.Some? then (Failed(install.0.value), afterInstall)
    else
      var afterAider := afterInstall + aider.1;
      if aider.0.Err? then (Failed(aider.0.error), afterAider)
      else
        var afterHarvest := afterAider + harvest.1;
        if harvest.0.Err? then (Failed(harvest.0.error), afterHarvest)
        else (Succeeded(aider.0.value, harvest.0.value), afterHarvest)
  }

  /** `Pipeline` step by step, as `generate_code` takes the steps. */
  lemma PipelineSteps(c: Client, s: Script, projectDir: string,
                      aider: (Result<string, string>, seq<Request>),
                      harvest: (Result<map<string, string>, string>, seq<Request>))
    ensures var r := Pipeline(c, s, projectDir, aider, harvest);
      var created := [Provision(c.e2bApiKey, TemplateFor(c))];
      var afterMkdir := created + [Command(MkdirCommand(projectDir), None, None, false)];
      var reply := s.run(MkdirCommand(projectDir));
      && (s.provision.Some? ==> r == (Failed(s.provision.value), created))
      && (s.provision.None? && reply.Raised? ==> r == (Failed(reply.message), afterMkdir))
      && (s.provision.None? && reply.Completed? && reply.exitCode != 0 ==>
            r == (Failed("Failed to create project directory: " + reply.Stderr()), afterMkdir))
      && (s.provision.None? && reply.Succeeded() ==>
            r == Proceed(afterMkdir, if Truthy(c.aiderTemplateId) then (None, []) else Install(s.run), aider, harvest))
  {
  }

  /** Requests made before the later steps only shift their log. */
  lemma ProceedShift(prior: seq<Request>, issued: seq<Request>,
                     install: (Option<string>, seq<string>),
                     aider: (Result<string, string>, seq<Request>),
                     harvest: (Result<map<string, string>, string>, seq<Request>))
    ensures Proceed(prior + issued, install, aider, harvest)
         == (Proceed(issued, install, aider, harvest).0, prior + Proceed(issued, install, aider, harvest).1)
  {
    var cmds := Commands(install.1, None);
    assert prior + issued + cmds == prior + (issued + cmds);
    assert prior + issued + cmds + aider.1 == prior + (issued + cmds + aider.1);
    assert prior + issued + cmds + aider.1 + harvest.1 == prior + (issued + cmds + aider.1 + harvest.1);
  }

  /** Two logs that agree everywhere except where the first holds `w`. */
  predicate AgreeExcept(l1: seq<Request>, l2: seq<Request>, w: Request) {
    |l1| == |l2| && forall i | 0 <= i < |l1| :: l1[i] == l2[i] || l1[i] == w
  }

  lemma AgreeExceptFramed(x: seq<Request>, y1: seq<Request>, y2: seq<Request>, z: seq<Request>, w: Request)
    requires AgreeExcept(y1, y2, w)
    ensures AgreeExcept(x + y1 + z, x + y2 + z, w)
  {
    var l1, l2 := x + y1 + z, x + y2 + z;
    forall i | 0 <= i < |l1|
      ensures l1[i] == l2[i] || l1[i] == w
    {
      if |x| <= i < |x| + |y1| {
        assert l1[i] == y1[i - |x|] && l2[i] == y2[i - |x|];
      }
    }
  }

  /**
   * Two aider steps with the same outcome whose requests differ only where
   * the first makes request `w` lead to the same result and to logs that
   * differ only there.
   */
  lemma PipelineAiderSwap(c: Client, s: Script, projectDir: string,
                          a1: (Result<string, string>, seq<Request>),
                          a2: (Result<string, string>, seq<Request>),
                          harvest: (Result<map<string, string>, string>, seq<Request>), w: Request)
    requires a1.0 == a2.0 && AgreeExcept(a1.1, a2.1, w)
    ensures Pipeline(c, s, projectDir, a1, harvest).0 == Pipeline(c, s, projectDir, a2, harvest).0
    ensures AgreeExcept(Pipeline(c, s, projectDir, a1, harvest).1, Pipeline(c, s, projectDir, a2, harvest).1, w)
  {
    PipelineSteps(c, s, projectDir, a1, harvest);
    PipelineSteps(c, s, projectDir, a2, harvest);
    var l := Pipeline(c, s, projectDir, a1, harvest).1;
    if s.provision.None? && s.run(MkdirCommand(projectDir)).Succeeded() {
      var afterMkdir := [Provision(c.e2bApiKey, TemplateFor(c))] + [Command(MkdirCommand(projectDir), None, None, false)];
      var install := if Truthy(c.aiderTemplateId) then (None, []) else Install(s.run);
      var afterInstall := afterMkdir + Commands(install.1, None);
      if install.0.None? {
        var tail := if a1.0.Ok? then harvest.1 else [];
        AgreeExceptFramed(afterInstall, a1.1, a2.1, tail, w);
        assert a1.0.Ok? ==> afterInstall + a1.1 + tail == afterInstall + a1.1 + harvest.1;
        assert a1.0.Err? ==> afterInstall + a1.1 + tail == afterInstall + a1.1;
        assert a1.0.Err? ==> afterInstall + a2.1 + tail == afterInstall + a2.1;
      }
    }
  }

  /**
   * A project directory that cannot be made ends the attempt: the result is a
   * failure with an empty output and no files, and no command follows the
   * mkdir command.
   */
  lemma MkdirFailureStops(c: Client, s: Script, projectDir: string,
                          aider: (Result<string, string>, seq<Request>),
                          harvest: (Result<map<string, string>, string>, seq<Request>))
    requires s.provision.None? && !s.run(MkdirCommand(projectDir)).Succeeded()
    ensures var (result, issued) := Pipeline(c, s, projectDir, aider, harvest);
      && !result.success && result.output == [] && result.generatedFiles == map[]
      && result.errorMessage.Some?
      && issued == [Provision(c.e2bApiKey, TemplateFor(c)), Command(MkdirCommand(projectDir), None, None, false)]
      && (s.run(MkdirCommand(projectDir)).Completed? ==>
            result.errorMessage.value
              == "Failed to create project directory: " + s.run(MkdirCommand(projectDir)).Stderr())
  {
  }

  /**
   * The install sequence runs exactly when no aider template is configured:
   * with one, the aider step follows the mkdir command directly; without one,
   * 'pip install aider-chat' is the command after mkdir.
   */
  lemma InstallSkippedExactlyWithTemplate(c: Client, s: Script, projectDir: string,
                                          aider: (Result<string, string>, seq<Request>),
                                          harvest: (Result<map<string, string>, string>, seq<Request>))
    requires s.provision.None? && s.run(MkdirCommand(projectDir)).Succeeded()
    ensures var issued := Pipeline(c, s, projectDir, aider, harvest).1;
      var prefix := [Provision(c.e2bApiKey, TemplateFor(c)), Command(MkdirCommand(projectDir), None, None, false)];
      && |issued| >= 2 && issued[..2] == prefix
      && (Truthy(c.aiderTemplateId) ==> issued[2..] == aider.1 + (if aider.0.Ok? then harvest.1 else []))
      && (!Truthy(c.aiderTemplateId) ==> |issued| >= 3 && issued[2] == Command("pip install aider-chat", None, None, false))
  {
    PipelineSteps(c, s, projectDir, aider, harvest);
    var prefix := [Provision(c.e2bApiKey, TemplateFor(c))] + [Command(MkdirCommand(projectDir), None, None, false)];
    if Truthy(c.aiderTemplateId) {
      ProceedWithoutInstall(prefix, aider, harvest);
    } else {
      InstallStopsAtFirstFailure(s.run);
      ProceedInstallFirst(prefix, Install(s.run), aider, harvest);
    }
  }

  /** With no install step the log after `issued` is aider's, then the harvest's when aider succeeded. */
  lemma ProceedWithoutInstall(issued: seq<Request>,
                              aider: (Result<string, string>, seq<Request>),
                              harvest: (Result<map<string, string>, string>, seq<Request>))
    ensures var log := Proceed(issued, (None, []), aider, harvest).1;
      && |log| >= |issued| && log[..|issued|] == issued
      && log[|issued|..] == aider.1 + (if aider.0.Ok? then harvest.1 else [])
  {
    assert Commands([], None) == [];
    var log := Proceed(issued, (None, []), aider, harvest).1;
    if aider.0.Ok? {
      assert log == issued + aider.1 + harvest.1;
      assert log[|issued|..] == aider.1 + harvest.1;
    } else {
      assert log == issued + aider.1;
    }
  }

  /** An install step that issues anything issues its first command right after `issued`. */
  lemma ProceedInstallFirst(issued: seq<Request>,
                            install: (Option<string>, seq<string>),
                            aider: (Result<string, string>, seq<Request>),
                            harvest: (Result<map<string, string>, string>, seq<Request>))
    requires install.1 != []
    ensures var log := Proceed(issued, install, aider, harvest).1;
      |log| > |issued| && log[|issued|] == Command(install.1[0], None, None, false)
  {
    var cmds := Commands(install.1, None);
    var log := Proceed(issued, install, aider, harvest).1;
    assert log[..|issued| + |cmds|] == issued + cmds;
  }

  /**
   * A failing install command ends the attempt with that command's error and
   * nothing runs after it: aider is never started.
   */
  lemma InstallFailureStops(c: Client, s: Script, projectDir: string,
                            aider: (Result<string, string>, seq<Request>),
                            harvest: (Result<map<string, string>, string>, seq<Request>))
    requires s.provision.None? && s.run(MkdirCommand(projectDir)).Succeeded()
    requires !Truthy(c.aiderTemplateId) && Install(s.run).0.Some?
    ensures var (result, issued) := Pipeline(c, s, projectDir, aider, harvest);
      && result == Failed(Install(s.run).0.value)
      && issued == [Provision(c.e2bApiKey, TemplateFor(c)), Command(MkdirCommand(projectDir), None, None, false)]
                   + Commands(Install(s.run).1, None)
  {
  }

  /**
   * Once the session is set up, the attempt succeeds exactly when the aider
   * step and the harvest step both complete without raising; the output is
   * the aider step's and the files are the harvest's.
   */
  lemma SuccessExactlyWhenStepsComplete(c: Client, s: Script, projectDir: string,
                                        aider: (Result<string, string>, seq<Request>),
                                        harvest: (Result<map<string, string>, string>, seq<Request>))
    requires s.provision.None? && s.run(MkdirCommand(projectDir)).Succeeded()
    requires Truthy(c.aiderTemplateId) || Install(s.run).0.None?
    ensures var result := Pipeline(c, s, projectDir, aider, harvest).0;
      && (result.success <==> aider.0.Ok? && harvest.0.Ok?)
      && (result.success ==> result == Succeeded(aider.0.value, harvest.0.value))
  {
  }
}

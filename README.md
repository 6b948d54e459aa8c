# e2b-aider-generator-previewer in Dafny

A verified model of the core of a small Python tool that generates code with
the aider coding assistant inside a remote E2B sandbox, collects the files
aider wrote, and can start a live preview server for them in a sandbox.

The modules:

- `Wrappers`: Option and Result. `Err(message)` stands for a raised Python exception whose `str()` is `message`.
- `Text`: the Python string operations the code relies on: `in`, `startswith`, `endswith`, `lower`, `replace`, `strip`, `split`, `''.join`, `str(int)`.
- `ShellWords`: how a POSIX shell splits the generated command lines into program arguments. It covers blanks, single quotes and the backslash escape (sections 2.2.1 and 2.2.2 of the POSIX.1-2017 Shell Command Language). It also holds the `'\''` escaping of e2b_aider_generator.py.
- `Sandbox`: the E2B SDK as a scripted interface.
  - A `Script` fixes in advance what the sandbox answers: the reply to each command, the content of each file, whether a write raises, and the host for a port.
  - The class `Session` answers from its script and appends every request it receives to its `log`.
  - `OutputCollector` holds the two streaming callbacks and their buffers.
- `AiderClient`: the parts generator.py and e2b_aider_generator.py share line for line:
  - the configuration resolved by `E2BAiderClient.__init__`;
  - the `CodeGenerationResult` record;
  - `_install_aider`;
  - the control flow of `generate_code`;
  - the combined-output format.
- `Generator`: generator.py.
  - The prompt is written to a file, and aider is told to read it.
  - The output streams through callbacks.
  - `find` lists the files, which are read one by one, leaving out aider's bookkeeping files.
- `LegacyGenerator`: e2b_aider_generator.py.
  - The prompt goes on the command line, escaped for single quotes.
  - The files are read with `cat`, and no file is left out.
- `Previewer`: previewer.py.
  - `detect_server_type` classifies the files.
  - `_install_with_pip` installs Python dependencies.
  - `start_live_preview` settles the type, installs dependencies, derives the start command, launches it in the background and builds the URL.

Every step that works step by step in the source is a method on a `Session`. Each such method is proved against a pure function that returns two things: what the step returns (or the message it raises) and the exact list of requests it makes. The properties are lemmas about those functions.

Where the code and the intent it documents differ, the model follows the code:

- `_install_with_pip` returns `None` on every path. A failing `pip` therefore never stops the preview; only an exception raised by the SDK does.
- The FastAPI entry file is the first key, in the dictionary's order, among `main.py`, `app.py` and `server.py`. It is not the first name of that list that is present.
- A file's relative path removes every occurrence of `<project_dir>/` from the path, not only a leading one.
- A command that times out makes the SDK raise. Raising is not the same as a non-zero exit: an aider run that raises fails the generation, while a non-zero exit does not.
- In e2b_aider_generator.py, a `cat` that exits non-zero is isolated to its own entry. A `cat` that raises ends the whole generation.

## Model

| member | source | states |
|---|---|---|
| AiderClient.NewClient | generator.py:59-69 | the client is built exactly when both API keys resolve to non-empty strings, and then both keys are non-empty |
| AiderClient.ExplicitArgumentWins | generator.py:59-64 | a non-empty explicit argument is the configured value for every configurable field |
| AiderClient.EmptyArgumentFallsBack | generator.py:59-64 | an empty or absent argument takes the environment's value; the model defaults to "gpt-4" when the environment has none |
| AiderClient.MissingKeyIsReported | generator.py:66-69 | a missing key is an error; a missing E2B key is reported first, by a message naming E2B_API_KEY; otherwise the message names OPENAI_API_KEY |
| AiderClient.MessagesNameVariables | generator.py:67-69 | each ValueError message contains the name of the variable it concerns |
| AiderClient.TemplateFor | generator.py:76-81 | the template the sandbox is created from: the configured template id when it is non-empty, else none |
| AiderClient.ChooseModel | generator.py:108 | `aider_model or self.openai_model`: the argument when it is non-empty, else the configured model |
| AiderClient.CombinedOutput | generator.py:240-246 | the output text: "STDOUT:\n", stdout, "\nSTDERR:\n", stderr, "\nReturn code: " and the exit code; its properties are in ExitCodeIsReported |
| AiderClient.ExitCodeIsReported | generator.py:241-246 | whatever stdout and stderr hold, the last line of the combined output reads back as the exact exit code |
| AiderClient.LastLine | generator.py:243-246 | the text after the last newline holds no newline |
| AiderClient.LastLineAfterNewline | generator.py:243-246 | the last line of a text ending in a newline and a newline-free line is that line |
| AiderClient.HeadIsSpaced | generator.py:190-197 | the command head built by `+=` is the model, key and optional API-base tokens, each followed by one blank |
| AiderClient.HeadTexts | generator.py:190-197 | the head's tokens stand for the words aider, --model, the model, --openai-api-key, the key, and --openai-api-base with the base only when a base is configured |
| AiderClient.HeadSpellsItself | generator.py:190-197 | with no single quote in the model, the key or the base, the shell reads every head token back as its own text |
| AiderClient.OptionWordsArePlain | generator.py:190-204 | the option words of the aider command need no quoting |
| AiderClient.Install | generator.py:157-176 | `_install_aider` as a function of the command replies: the exception it raises, if any, and the commands it issues; its properties are in InstallStopsAtFirstFailure, InstallEndsAt and InstallReachesVerify |
| AiderClient.InstallStopsAtFirstFailure | generator.py:157-176 | the install runs the two pip commands and then 'which aider', in that order, and stops at the first that fails; it reports no error exactly when all three succeed; a failing pip command is named in the error |
| AiderClient.InstallEndsAt | generator.py:164-169 | the install ends with the error of the first failing pip command, after issuing the commands up to it |
| AiderClient.InstallReachesVerify | generator.py:171-176 | when both pip commands succeed, 'which aider' is issued next and its reply alone decides the error |
| AiderClient.InstallAider | generator.py:157-176 | `_install_aider` on a session returns the install's error and appends exactly the install's commands to the log |
| AiderClient.PipInstalls | generator.py:164-169 | the pip loop fails exactly when some command fails; the error then belongs to the first failing command, and the log gains the commands up to it |
| AiderClient.RunInstallCommand | generator.py:165-169 | one pip command is an error exactly when it does not succeed, and it logs one request |
| AiderClient.VerifyAider | generator.py:171-176 | the 'which aider' check raises on a non-zero exit with the 'Aider not found after installation' message |
| AiderClient.Pipeline | generator.py:111-155 | `generate_code` always gives a well-formed result: a failure carries a message, an empty output and no files, and a success carries no message; the first request is always the session's creation |
| AiderClient.Proceed | generator.py:120-139 | the steps after mkdir give a well-formed result and only extend the log |
| AiderClient.PipelineSteps | generator.py:111-122 | a provisioning failure, a raising mkdir and a non-zero mkdir each end the attempt with their own message; otherwise the later steps run |
| AiderClient.ProceedShift | generator.py:120-139 | requests made earlier only shift the later steps' log and do not change their result |
| AiderClient.PipelineAiderSwap | generator.py:124-139 | two aider steps with the same outcome lead to the same result, and to logs that differ only where their requests differ |
| AiderClient.MkdirFailureStops | generator.py:114-118 | a failing mkdir yields success=false, empty output, no files and an error message; no request follows it; on a non-zero exit the message is 'Failed to create project directory: ' + stderr |
| AiderClient.InstallSkippedExactlyWithTemplate | generator.py:120-122 | with an aider template, aider's requests follow mkdir directly; without one, 'pip install aider-chat' is the command after mkdir |
| AiderClient.ProceedWithoutInstall | generator.py:124-130 | with no install step the log continues with aider's requests, then the harvest's when aider succeeded |
| AiderClient.ProceedInstallFirst | generator.py:120-122 | an install step issues its first command right after the earlier requests |
| AiderClient.InstallFailureStops | generator.py:121-122 | a failing install ends the generation with the install's message, and aider is never started |
| AiderClient.SuccessExactlyWhenStepsComplete | generator.py:124-139 | once set up, generation succeeds exactly when the aider step and the harvest complete without raising; the output is aider's and the files are the harvest's |
| Generator.FilePiece | generator.py:200-204 | the command tail is the --message-file option with its quoted path, then --no-git and --yes |
| Generator.AiderCommandIsSpaced | generator.py:190-204 | the aider command is its tokens each followed by a blank, ending with --yes |
| Generator.AiderCommandArguments | generator.py:183-204 | aider receives exactly the model, the key, the API base when one is configured, --message-file with the prompt file's path, --no-git and --yes; the prompt text is not on the command line |
| Generator.RunAider | generator.py:178-247 | `_run_aider_prompt`: the combined output, or the message of the exception that ends the step, and the requests made; its properties are in AiderExitCodeIsNotAnError and PromptOnlyInPromptFile |
| Generator.AiderExitCodeIsNotAnError | generator.py:178-247 | the aider step fails only when the prompt file cannot be written or the SDK raises; otherwise its output reports the tool's exit code, whatever it is; the prompt is written first and aider runs in the project directory with the caller's timeout |
| Generator.RunAiderPrompt | generator.py:178-247 | `_run_aider_prompt` on a session, with the chunks streamed through the callbacks, returns the aider step's outcome and logs its requests |
| Generator.HarvestPaths | generator.py:259-277 | the files dictionary built from the listed paths: one entry per harvested path, keyed by its relative path; its properties are in HarvestKeys, HarvestValue and ReadFailureIsIsolated |
| Generator.Harvest | generator.py:249-279 | `_get_generated_files`: the dictionary, or the message of the exception that ends the step, and the requests made; its properties are in HarvestOutcome and HarvestCases |
| Generator.HarvestKeys | generator.py:258-277 | the files dictionary's keys are exactly the relative paths of the non-blank, non-bookkeeping listed paths |
| Generator.NoBookkeepingFiles | generator.py:267-270 | no key starts with '.aider_prompt.txt' or is '.aider.input.history' or '.aider.chat.history.md' |
| Generator.HarvestValue | generator.py:272-277 | the value under a path's key is the file's content, or 'Error reading file: ' + the message when reading raises |
| Generator.ReadFailureIsIsolated | generator.py:273-277 | the entry under a key depends only on the reads of the paths with that key, so a failing read affects no other entry |
| Generator.RelativePathOfChild | generator.py:264-265 | a file under the project directory is keyed by the rest of its path, as long as that rest does not repeat the directory prefix |
| Generator.RelativePathReplacesEveryOccurrence | generator.py:265 | relative paths drop every occurrence of the directory prefix, not just a leading one |
| Generator.HarvestOutcome | generator.py:249-279 | a raising find ends the generation; a find exiting non-zero gives the single entry 'error' = 'Failed to list files: ' + stderr; otherwise the keys are the harvested listed paths |
| Generator.HarvestStep | generator.py:260-277 | each listed path adds at most one entry and at most one read, and only when it is harvested |
| Generator.HarvestCases | generator.py:249-279 | the harvest case by case: find raises, find exits non-zero, or find succeeds and the listed paths are read |
| Generator.ReadListedFiles | generator.py:256-279 | the loop over the listed paths builds the files dictionary and issues one read per harvested path, in order |
| Generator.GetGeneratedFiles | generator.py:249-279 | `_get_generated_files` on a session returns the harvest and logs its requests |
| Generator.Generate | generator.py:88-155 | generation gives a well-formed result |
| Generator.PromptOnlyInPromptFile | generator.py:183-204 | the prompt reaches the sandbox only as the content of the one write to the prompt file: for two prompts every other request, the aider command line included, is the same |
| Generator.ToolFailureIsNotGenerationFailure | generator.py:236-246 | a tool exiting with any code still yields success with no error message, and the output reports that code |
| Generator.ListingFailureIsNotGenerationFailure | generator.py:252-254 | a find exiting non-zero still yields success, whose files are only the 'error' entry |
| Generator.GenerateCode | generator.py:88-155 | `generate_code` on a session returns the modelled result and makes exactly the modelled requests |
| LegacyGenerator.MessagePiece | e2b_aider_generator.py:187-192 | the command tail is --message with the escaped, quoted prompt, then --no-git and --yes |
| LegacyGenerator.AiderCommandIsSpaced | e2b_aider_generator.py:177-192 | the aider command is its tokens each followed by a blank, ending with --yes |
| LegacyGenerator.AiderCommandArguments | e2b_aider_generator.py:174-192 | whatever characters the prompt holds, quotes, blanks and newlines included (NUL aside, see Left out), aider receives it unchanged as the one argument after --message, among exactly the intended arguments |
| LegacyGenerator.RunAider | e2b_aider_generator.py:170-211 | `_run_aider_prompt`: the combined output, or the message of the exception that ends the step, and its one command; its properties are in AiderExitCodeIsNotAnError |
| LegacyGenerator.AiderExitCodeIsNotAnError | e2b_aider_generator.py:196-211 | the aider step is one command in the project directory with the caller's timeout; it fails only when the SDK raises, and otherwise reports the tool's exit code |
| LegacyGenerator.RunAiderPrompt | e2b_aider_generator.py:170-211 | `_run_aider_prompt` on a session returns the aider step's outcome and logs its one command |
| LegacyGenerator.CatPaths | e2b_aider_generator.py:224-236 | the cat loop over the listed paths: the dictionary, or the message of the first cat that raises, and the cats issued; its properties are in CatsIssued, CatKeys, CatValueOf and CatErrorSticks |
| LegacyGenerator.Harvest | e2b_aider_generator.py:213-238 | `_get_generated_files`: the dictionary, or the message of the exception that ends the step, and the requests made; its properties are in HarvestOutcome and HarvestCases |
| LegacyGenerator.CatsIssued | e2b_aider_generator.py:224-236 | the loop completes exactly when no cat raises, issuing one cat per non-blank path; otherwise it ends with the message of the cat that raised, right after issuing it |
| LegacyGenerator.CatKeys | e2b_aider_generator.py:224-236 | nothing is left out: the keys are the relative paths of every non-blank listed path, bookkeeping files included |
| LegacyGenerator.CatValueOf | e2b_aider_generator.py:232-236 | the value under a key is cat's stdout on exit 0, else 'Error reading file: ' + stderr |
| LegacyGenerator.HarvestOutcome | e2b_aider_generator.py:213-238 | a find exiting non-zero gives the single 'error' entry; after a successful find the harvest raises exactly when some cat raises |
| LegacyGenerator.CatErrorSticks | e2b_aider_generator.py:232-236 | after a cat raises, nothing is added or issued for the later paths |
| LegacyGenerator.CatStep | e2b_aider_generator.py:224-236 | each listed path adds at most one cat and one entry |
| LegacyGenerator.ReadListedFiles | e2b_aider_generator.py:220-238 | the cat loop on a session returns the modelled dictionary or error and logs the modelled cats |
| LegacyGenerator.HarvestCases | e2b_aider_generator.py:213-238 | the harvest case by case: find raises, find exits non-zero, or the cat loop runs |
| LegacyGenerator.GetGeneratedFiles | e2b_aider_generator.py:213-238 | `_get_generated_files` on a session returns the harvest and logs its requests |
| LegacyGenerator.Generate | e2b_aider_generator.py:86-147 | generation gives a well-formed result |
| LegacyGenerator.ToolFailureIsNotGenerationFailure | e2b_aider_generator.py:202-210 | a tool exiting with any code still yields success, reporting the code, with the harvest's files |
| LegacyGenerator.ListingFailureIsNotGenerationFailure | e2b_aider_generator.py:216-218 | a find exiting non-zero still yields success, whose files are only the 'error' entry |
| LegacyGenerator.RaisingReadFailsGeneration | e2b_aider_generator.py:232-236 | a cat that raises fails the whole generation, with no files and an error message |
| LegacyGenerator.GenerateCode | e2b_aider_generator.py:86-147 | `generate_code` on a session returns the modelled result and makes exactly the modelled requests |
| Previewer.HasName | previewer.py:42 | `name in files` holds exactly when some entry has that name |
| Previewer.Get | previewer.py:181 | `files.get(name, '')` is the entry's content, or '' when no entry has that name |
| Previewer.IsFastApiSource | previewer.py:36-39 | a file is a FastAPI source when its name ends in .py, its content is non-empty, and the lowered content contains fastapi or uvicorn; used by ScanForFastApi and DetectServerType |
| Previewer.ScanForFastApi | previewer.py:34-39 | the scan finds FastAPI exactly when some .py file has non-empty content mentioning fastapi or uvicorn, in any letter case |
| Previewer.EndsWithAny | previewer.py:46 | a name ends with the tuple of suffixes exactly when it ends with one of them |
| Previewer.AnyNameEndsWith | previewer.py:46-53 | some file name ends with one of the suffixes |
| Previewer.DetectServerType | previewer.py:18-55 | no files gives None; the first rule that applies decides: a FastAPI .py source gives fastapi, even next to package.json; then a file named exactly package.json gives nodejs; then an .html/.htm or .css/.js/.jsx/.ts/.tsx name gives static; otherwise None |
| Previewer.FastApiBeforePackageJson | previewer.py:34-43 | a 'FastAPI' mention in main.py wins over a package.json |
| Previewer.ParseType | previewer.py:130-134 | a type name is accepted exactly when it is static, nodejs or fastapi |
| Previewer.ParseTypeName | previewer.py:130-134 | every server type's name is accepted as that type |
| Previewer.ResolveType | previewer.py:119-134 | 'auto' becomes the detected type, or static when nothing is detected; any other name is kept exactly when it is supported |
| Previewer.ResolveKind | previewer.py:119-128 | the reassignment of `preview_type` gives the settled name, which is supported exactly when the type resolves |
| Previewer.BasicDependencyCommands | previewer.py:84-89 | one 'pip install' per basic dependency, fastapi first, then uvicorn[standard] |
| Previewer.PipInstall | previewer.py:58-95 | `_install_with_pip` returns None whenever it returns, and it issues only foreground commands |
| Previewer.BasicInstall | previewer.py:84-93 | the basic install returns None whenever it returns, and it issues only foreground commands |
| Previewer.PipInstallOrder | previewer.py:72-93 | with requirements.txt, one 'pip install -r requirements.txt' runs with timeout 120; without it, fastapi is installed first and uvicorn[standard] only after fastapi succeeds, each with timeout 60 |
| Previewer.BasicInstallStopsAt | previewer.py:86-92 | the basic install ends at the first dependency that fails; only an SDK exception is an error |
| Previewer.BasicInstallCompletes | previewer.py:86-95 | when both dependencies install, both commands are issued and None is returned |
| Previewer.BasicInstallRaisesIff | previewer.py:86-93 | the loop over `basic_deps` reports an exception exactly when one of the installs it issued raised one |
| Previewer.PipInstallRaisesIff | previewer.py:72-95 | `_install_with_pip` reports an exception exactly when one of the install commands it issued raised one |
| Previewer.InstallWithPip | previewer.py:58-95 | `_install_with_pip` on a session returns the modelled value and logs its commands |
| Previewer.InstallBasicDependencies | previewer.py:84-93 | the loop over `basic_deps` on a session returns the modelled value and logs the commands up to the first failure |
| Previewer.InstallDependencies | previewer.py:136-174 | the install stage issues only foreground commands |
| Previewer.NpmRetriedOnce | previewer.py:137-151 | 'npm install' is retried exactly once, as 'npm install --no-optional', and only after a non-zero exit; the preview goes on exactly when one of the two succeeds; giving up returns None |
| Previewer.PipFailureNeverStopsPreview | previewer.py:153-174 | for FastAPI, the preview goes on exactly when none of the install commands issued raised an SDK exception; a non-zero exit of poetry or pip never stops it |
| Previewer.FastApiInstallSteps | previewer.py:153-174 | poetry is tried first when poetry.lock exists, and pip follows only on a non-zero poetry exit |
| Previewer.EntryFile | previewer.py:188-191 | the entry file is always main.py, app.py or server.py |
| Previewer.EntryFileIsFirstCandidate | previewer.py:188-191 | the entry file is the first candidate name in the dictionary's order, and main.py when none is present |
| Previewer.EntryFileFollowsDictionaryOrder | previewer.py:188-191 | with app.py listed before main.py, app.py is chosen |
| Previewer.PoetryRunsTheSameCommand | previewer.py:193-201 | with poetry.lock the FastAPI command is the plain one prefixed by 'poetry run ' |
| Previewer.IntegerIsPlain | previewer.py:178 | a port's decimal text is one shell word |
| Previewer.StaticCommandWords | previewer.py:177-178 | the static server runs python -m http.server with the port, and the port's text reads back as the port |
| Previewer.StaticLineWords | previewer.py:178 | the static command line splits into python, -m, http.server and the port's digits |
| Previewer.FastApiLineIsSpaced | previewer.py:199-201 | the FastAPI command line is its tokens each followed by a blank, then the port |
| Previewer.FastApiTexts | previewer.py:199-201 | the FastAPI tokens stand for fastapi, dev, the entry, --host, 0.0.0.0, --port |
| Previewer.FastApiCommandWords | previewer.py:186-201 | the FastAPI server runs `fastapi dev` on the entry file, bound to 0.0.0.0 at the preview port |
| Previewer.FastApiLineWords | previewer.py:199-201 | the FastAPI command line splits into exactly its intended words |
| Previewer.FastApiTokensSpellThemselves | previewer.py:188-201 | every FastAPI token is read back by the shell as its own text |
| Previewer.StartCommand | previewer.py:176-201 | the start command for a settled server type; its properties are in DeriveCommand, StaticCommandWords, FastApiCommandWords and PoetryRunsTheSameCommand |
| Previewer.DeriveCommand | previewer.py:176-201 | the branch on the type name gives the start command: static http.server on the port; 'npm run dev' exactly when package.json contains "dev", else 'npm start'; fastapi dev on the entry file, through poetry when locked |
| Previewer.BackgroundCommandsAppend | previewer.py:136-209 | the background commands of two logs together are those of each, in order |
| Previewer.NoBackgroundCommands | previewer.py:136-174 | a log of foreground commands has no background command |
| Previewer.LaunchIsInBackground | previewer.py:208-209 | the launch issues exactly one background command, 'cd <dir> && <command>' |
| Previewer.Launch | previewer.py:208-223 | the background launch of `cd <dir> && <command>` and the host lookup: the URL 'https://' + host, or none when either raises, and the requests made |
| Previewer.Preview | previewer.py:98-227 | `start_live_preview`: the URL, if any, and the requests made; its properties are in LaunchesOnceAfterInstall and PreviewSteps |
| Previewer.LaunchesOnceAfterInstall | previewer.py:98-227 | an unsupported type returns None before any request; an install that gives up issues no background command; otherwise exactly one background 'cd <dir> && <command>' runs, and the URL is 'https://' + host exactly when neither the launch nor the host lookup raises |
| Previewer.PreviewSteps | previewer.py:136-223 | once the type is settled, the install stage runs, and the launch follows unless the stage returned |
| Previewer.StartLivePreview | previewer.py:98-227 | `start_live_preview` on a session returns the modelled URL and makes exactly the modelled requests |
| Previewer.InstallStage | previewer.py:136-174 | the install stage on a session matches the modelled outcome and requests |
| Previewer.NpmStage | previewer.py:137-151 | the npm branch on a session matches the modelled outcome and requests |
| Previewer.FastApiStage | previewer.py:153-174 | the FastAPI branch on a session matches the modelled outcome and requests |
| Previewer.PipStage | previewer.py:165-174 | the pip fallback on a session continues exactly when `_install_with_pip` returns None without raising |
| Previewer.LaunchServer | previewer.py:208-223 | the launch on a session issues the background command, then the host lookup, and returns 'https://' + host |
| Sandbox.Commands | generator.py:164-172 | one foreground request per command, in order |
| Sandbox.FirstFailure | generator.py:164-169 | the index where a stop-at-first-failure sequence stops: every earlier command succeeds and the one there does not |
| Sandbox.Attempted | previewer.py:86-92 | a stop-at-first-failure loop issues a prefix of its commands, up to and including the first failure |
| Sandbox.FirstFailureAt | generator.py:164-169 | a failing command with none failing before it is the first failure |
| Sandbox.CommandsSnoc | generator.py:164-165 | one more command adds one request at the end |
| Sandbox.LogSnoc | generator.py:164-165 | one more command adds one request at the end of a log |
| Sandbox.OutputCollector.constructor | generator.py:211-212 | both buffers start empty |
| Sandbox.OutputCollector.OnStdout | generator.py:214-217 | a stdout chunk is appended to the stdout buffer and nothing else changes |
| Sandbox.OutputCollector.OnStderr | generator.py:219-222 | a stderr chunk is appended to the stderr buffer and nothing else changes |
| Sandbox.Session.constructor | generator.py:112 | a new session has an empty log |
| Sandbox.Session.Create | generator.py:76-81 | provisioning is logged with the key and the template, and fails as the script says |
| Sandbox.Session.Run | generator.py:114 | a command is logged with its cwd and timeout, and answered by the script |
| Sandbox.Session.RunStreaming | generator.py:225-231 | every chunk reaches its callback, in arrival order, so the buffers end up holding the reply's stdout and stderr pieces |
| Sandbox.Session.RunInBackground | previewer.py:209 | a background command is logged as such |
| Sandbox.Session.WriteFile | generator.py:185 | a write is logged and fails as the script says |
| Sandbox.Session.ReadFile | generator.py:274-275 | a read is logged and answered by the script |
| Sandbox.Session.GetHost | previewer.py:215 | a host lookup is logged and answered by the script |
| ShellWords.EscapeLength | e2b_aider_generator.py:175 | escaping grows the prompt by exactly three characters per single quote |
| ShellWords.EscapeSingleQuotes | e2b_aider_generator.py:175 | every single quote of the prompt becomes quote, backslash, quote, quote, and every other character is kept; its properties are in EscapeLength, EscapeRoundTrip and EscapeFirst |
| ShellWords.EscapeRoundTrip | e2b_aider_generator.py:175 | replacing each `'\''` back by a quote recovers the prompt |
| ShellWords.EscapeFirst | e2b_aider_generator.py:175 | escaping works character by character: a quote becomes `'\''` and any other character is kept |
| ShellWords.FeedEscaped | e2b_aider_generator.py:175 | inside single quotes, the shell reads an escaped text back as the text itself |
| ShellWords.EscapedTextIsOneArgument | e2b_aider_generator.py:175-189 | any text, escaped and single-quoted, is read by the shell as one word, unchanged (NUL aside, see Left out) |
| ShellWords.FeedToken | generator.py:190-204 | a bare, quoted or escaped token is read back as its text |
| ShellWords.FeedSpaced | generator.py:190-204 | a line of self-spelling tokens, each followed by a blank, is read as their texts |
| ShellWords.WordsOfSpacedLine | generator.py:190-204 | such a line followed by a final plain word stands for the tokens' texts and that word |
| ShellWords.Words | generator.py:190-204 | the argument list a shell gives the program for a command line: blank-separated fields, with single quotes and the backslash removed; none when a quote or an escape is left open |
| Text.Lower | previewer.py:38 | lowering keeps the length and lowers each character |
| Text.Strip | generator.py:259 | the result is a slice of the text with only whitespace before and after it, and it neither starts nor ends with whitespace; it is empty exactly when the text is all whitespace |
| Text.Split | generator.py:259 | splitting gives at least one piece, and no piece holds the separator |
| Text.SplitJoin | generator.py:259 | joining the pieces of a split with the separator gives the text back |
| Text.ReplaceAllAbsent | generator.py:265 | replacing a pattern that does not occur changes nothing |
| Text.ReplaceAllLeading | generator.py:265 | a leading occurrence is replaced and the scan resumes after it |
| Text.ReplaceAll | generator.py:265 | Python's `str.replace`: every non-overlapping occurrence, scanned left to right, is replaced; its properties are in ReplaceAllAbsent, ReplaceAllLeading and EscapeRoundTrip |
| Text.NatToString | generator.py:245 | a natural number renders as digits with no leading zero |
| Text.IntToString | generator.py:245 | an integer renders as digits and a minus sign |
| Text.IntToStringRoundTrip | generator.py:245 | the rendered exit code reads back as the same integer |
| Text.IntToStringInjective | generator.py:245 | distinct exit codes render differently |

## Left out

- Wall-clock time: `execution_time` and `time.time()` are not modelled, because they are floating-point clock readings.
- Logging: `print` output, including the terminal echo inside the streaming callbacks, is not modelled. Only the buffer appends are.
- Sandbox lifetime: context-manager teardown, `sandbox.kill()` and session lifetime are not modelled. They belong to the SDK.
- SDK import: the `ImportError` branch of `__init__` is not modelled. The `Sandbox.create` lambda becomes the `Provision` request, carrying the key and the template when one is set.
- `load_files_from_directory` and `preview_directory` (previewer.py:230-341) are not modelled. They are local filesystem walks, file copying, an endless sleep loop and KeyboardInterrupt handling.
- The `main()` functions of all three files are not modelled. They are command-line wiring.
- example_usage.py and test_generator.py are not part of this model.
- Environment: `load_dotenv` and `os.getenv` become an explicit environment map passed to `AiderClient.NewClient`.
- SDK answers: the SDK's replies, exceptions, file contents and hosts are the `Script`. A timeout is one of the ways a command raises. UTF-8 decoding failures are folded into a read that raises.
- Generator.PromptOnlyInPromptFile: a `Script` answers by command text and path only, never by what was written, so the dependence of aider's output and files on the prompt file's content is not captured. The lemma states only where the prompt goes.
- Exception messages: `str(e)` of an SDK exception is a string in the script. Its wording is not modelled.
- Text.Lower: folds ASCII letters only. Python's `str.lower()` also folds other Unicode letters.
- ShellWords.Words: only the blank ' ' separates fields, and the only quoting modelled is the single quote and the backslash. The command lines built here place no other shell syntax outside quotes. A NUL character is read like any other character, although no real argument vector can carry one: a prompt holding NUL cannot reach aider at all.
- Generator.AiderCommandArguments: states aider's argument list only for a model, key, API base and project directory without single quotes. The code does not escape them, so other values have no clean argument list to state.
- LegacyGenerator.AiderCommandArguments: states aider's argument list only for a model, key and API base without single quotes, for the same reason. The prompt is unrestricted.
- Previewer.FastApiCommandWords: states the argument list for the entry files the code can choose. The port is any integer, rendered by `str()`.
- Files with duplicate names: the previewer's files are a list of (name, content) pairs with distinct names, in the dictionary's insertion order. A harvested dictionary is an unordered `map`, because nothing reads its order.

/**
 * The remote sandbox as the core sees it: a scripted stand-in for the E2B SDK
 * session (`Sandbox.create`, `commands.run`, `files.write`, `files.read`,
 * `get_host`). What the sandbox answers is fixed in advance by a `Script`; what
 * the core asks of it is recorded, in order, in the session's `log`. Every
 * property of the orchestrators and the previewer is a statement about the
 * answers they are given and the requests they leave in the log.
 */
module Sandbox {
  import opened Wrappers
  import opened Text

  /** A piece of output as the SDK delivers it while a command runs. */
  datatype Chunk = StdoutChunk(text: string) | StderrChunk(text: string)

  /** The outcome of `commands.run`: the command finished, or the SDK raised (a timeout among others). */
  datatype Reply =
    | Completed(exitCode: int, chunks: seq<Chunk>)
    | Raised(message: string)
  {
    /** `result.stdout`: every stdout chunk, in arrival order. */
    function Stdout(): string
      requires Completed?
    {
      Concat(StdoutTexts(chunks))
    }

    /** `result.stderr` */
    function Stderr(): string
      requires Completed?
    {
      Concat(StderrTexts(chunks))
    }

    predicate Succeeded() {
      Completed? && exitCode == 0
    }
  }

  function StdoutTexts(cs: seq<Chunk>): seq<string> {
    if cs == [] then []
    else StdoutTexts(cs[..|cs| - 1]) + (match cs[|cs| - 1] case StdoutChunk(t) => [t] case StderrChunk(_) => [])
  }

  function StderrTexts(cs: seq<Chunk>): seq<string> {
    if cs == [] then []
    else StderrTexts(cs[..|cs| - 1]) + (match cs[|cs| - 1] case StderrChunk(t) => [t] case StdoutChunk(_) => [])
  }

  /** One request the core makes of the sandbox service. */
  datatype Request =
    | Provision(apiKey: string, template: Option<string>)
    | Command(text: string, cwd: Option<string>, timeout: Option<int>, background: bool)
    | FileWrite(path: string, content: string)
    | FileRead(path: string)
    | HostLookup(port: int)

  /**
   * The sandbox's answers: whether provisioning raises, the reply to each
   * command line, the content of each file (or the message of the exception
   * reading or decoding it raises), whether writing a path raises, and the
   * host name exposed for each port.
   */
  datatype Script = Script(
    provision: Option<string>,
    run: string -> Reply,
    read: string -> Result<string, string>,
    write: string -> Option<string>,
    host: int -> Result<string, string>)

  /** Foreground requests for a list of command lines. */
  function Commands(cmds: seq<string>, timeout: Option<int>): (r: seq<Request>)
    ensures |r| == |cmds|
    ensures forall i | 0 <= i < |cmds| :: r[i] == Command(cmds[i], None, timeout, false)
  {
    if cmds == [] then [] else Commands(cmds[..|cmds| - 1], timeout) + [Command(cmds[|cmds| - 1], None, timeout, false)]
  }

  /**
   * Index of the first command of `cmds` that does not succeed, or `|cmds|`
   * when all do: where a sequence of commands that stops at the first failure
   * stops.
   */
  function FirstFailure(run: string -> Reply, cmds: seq<string>): (k: nat)
    ensures k <= |cmds|
    ensures forall j | 0 <= j < k :: run(cmds[j]).Succeeded()
    ensures k < |cmds| ==> !run(cmds[k]).Succeeded()
  {
    if cmds == [] then 0
    else if !run(cmds[0]).Succeeded() then 0
    else 1 + FirstFailure(run, cmds[1..])
  }

  /** One more command at the end of a list adds one request at the end of the log. */
  lemma CommandsSnoc(cmds: seq<string>, cmd: string, timeout: Option<int>)
    ensures Commands(cmds + [cmd], timeout) == Commands(cmds, timeout) + [Command(cmd, None, timeout, false)]
  {
    assert (cmds + [cmd])[..|cmds|] == cmds;
  }

  /** The same, for a log that already holds `prefix`. */
  lemma LogSnoc(prefix: seq<Request>, cmds: seq<string>, cmd: string, timeout: Option<int>)
    ensures prefix + Commands(cmds + [cmd], timeout) == prefix + Commands(cmds, timeout) + [Command(cmd, None, timeout, false)]
  {
    CommandsSnoc(cmds, cmd, timeout);
  }

  /** A command that fails with none failing before it is the first failure. */
  lemma FirstFailureAt(run: string -> Reply, cmds: seq<string>, i: nat)
    requires i < |cmds| && i <= FirstFailure(run, cmds) && !run(cmds[i]).Succeeded()
    ensures FirstFailure(run, cmds) == i
  {
  }

  /** The commands issued by a sequence that stops at its first failure: up to and including that one. */
  function Attempted(run: string -> Reply, cmds: seq<string>): (issued: seq<string>)
    ensures issued <= cmds
    ensures |issued| == if FirstFailure(run, cmds) < |cmds| then FirstFailure(run, cmds) + 1 else |cmds|
  {
    var k := FirstFailure(run, cmds);
    if k < |cmds| then cmds[..k + 1] else cmds
  }

  /**
   * The pair of streaming callbacks (`on_stdout`, `on_stderr`) of
   * generator.py: each appends the chunk it receives to its own buffer.
   */
  class OutputCollector {
    var stdoutBuffer: seq<string>
    var stderrBuffer: seq<string>

    constructor ()
      ensures stdoutBuffer == [] && stderrBuffer == []
    {
      stdoutBuffer, stderrBuffer := [], [];
    }

    method OnStdout(data: string)
      modifies this
      ensures stdoutBuffer == old(stdoutBuffer) + [data]
      ensures stderrBuffer == old(stderrBuffer)
    {
      stdoutBuffer := stdoutBuffer + [data];
    }

    method OnStderr(data: string)
      modifies this
      ensures stderrBuffer == old(stderrBuffer) + [data]
      ensures stdoutBuffer == old(stdoutBuffer)
    {
      stderrBuffer := stderrBuffer + [data];
    }
  }

  /** One sandbox session, answering from its script and logging every request. */
  class Session {
    const script: Script
    var log: seq<Request>

    constructor (script: Script)
      ensures this.script == script && log == []
    {
      this.script := script;
      log := [];
    }

    /** `Sandbox.create(api_key=..., template=...)`: the message of the raised exception, if any. */
    method Create(apiKey: string, template: Option<string>) returns (failure: Option<string>)
      modifies this
      ensures log == old(log) + [Provision(apiKey, template)]
      ensures failure == script.provision
    {
      log := log + [Provision(apiKey, template)];
      failure := script.provision;
    }

    /** `commands.run(command, cwd=..., timeout=...)` */
    method Run(command: string, cwd: Option<string>, timeout: Option<int>) returns (r: Reply)
      modifies this
      ensures log == old(log) + [Command(command, cwd, timeout, false)]
      ensures r == script.run(command)
    {
      log := log + [Command(command, cwd, timeout, false)];
      r := script.run(command);
    }

    /** `commands.run(command, ..., on_stdout=..., on_stderr=...)`: every chunk reaches its callback, in order. */
    method RunStreaming(command: string, cwd: Option<string>, timeout: Option<int>, observer: OutputCollector)
      returns (r: Reply)
      modifies this, observer
      ensures log == old(log) + [Command(command, cwd, timeout, false)]
      ensures r == script.run(command)
      ensures r.Completed? ==> observer.stdoutBuffer == old(observer.stdoutBuffer) + StdoutTexts(r.chunks)
      ensures r.Completed? ==> observer.stderrBuffer == old(observer.stderrBuffer) + StderrTexts(r.chunks)
    {
      log := log + [Command(command, cwd, timeout, false)];
      r := script.run(command);
      if r.Completed? {
        var i := 0;
        while i < |r.chunks|
          invariant 0 <= i <= |r.chunks|
          invariant log == old(log) + [Command(command, cwd, timeout, false)]
          invariant observer.stdoutBuffer == old(observer.stdoutBuffer) + StdoutTexts(r.chunks[..i])
          invariant observer.stderrBuffer == old(observer.stderrBuffer) + StderrTexts(r.chunks[..i])
        {
          assert r.chunks[..i + 1][..i] == r.chunks[..i];
          match r.chunks[i] {
            case StdoutChunk(t) => observer.OnStdout(t);
            case StderrChunk(t) => observer.OnStderr(t);
          }
          i := i + 1;
        }
        assert r.chunks[..i] == r.chunks;
      }
    }

    /** `commands.run(command, background=True)`: only a raised exception is observed. */
    method RunInBackground(command: string) returns (r: Reply)
      modifies this
      ensures log == old(log) + [Command(command, None, None, true)]
      ensures r == script.run(command)
    {
      log := log + [Command(command, None, None, true)];
      r := script.run(command);
    }

    /** `files.write(path, content)`: the message of the raised exception, if any. */
    method WriteFile(path: string, content: string) returns (failure: Option<string>)
      modifies this
      ensures log == old(log) + [FileWrite(path, content)]
      ensures failure == script.write(path)
    {
      log := log + [FileWrite(path, content)];
      failure := script.write(path);
    }

    /** `files.read(path)` followed by UTF-8 decoding. */
    method ReadFile(path: string) returns (r: Result<string, string>)
      modifies this
      ensures log == old(log) + [FileRead(path)]
      ensures r == script.read(path)
    {
      log := log + [FileRead(path)];
      r := script.read(path);
    }

    /** `get_host(port)` */
    method GetHost(port: int) returns (r: Result<string, string>)
      modifies this
      ensures log == old(log) + [HostLookup(port)]
      ensures r == script.host(port)
    {
      log := log + [HostLookup(port)];
      r := script.host(port);
    }
  }
}

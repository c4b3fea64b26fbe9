/**
 * The execution engine of app/executor.py: how each language runner shapes what it
 * observed into a result record, and how `CodeExecutor.execute` routes a request and
 * normalises every outcome of the worker pool into that same record.
 *
 * Running code is not modelled: what `exec` or the `node` process did is an outcome
 * value (`PythonOutcome`, `NodeOutcome`), and what the process pool and `wait_for`
 * delivered is a `Dispatch` value.
 */
module Executor {
  import opened Wrappers
  import opened Text

  /** The dictionary `{"success", "output", "error"}` every runner and `execute` return. */
  datatype ExecResult = ExecResult(success: bool, output: string, error: Option<string>)

  /** The length of the log previews of stdout, stderr and the API's output and error. */
  const LogPreviewLimit: nat := 1000

  /** The preview of a captured stream that is written to the log. */
  function LogPreview(s: string): (p: string)
    ensures |s| <= 1000 ==> p == s
    ensures |s| > 1000 ==> |p| == 1003 && p[..1000] == s[..1000] && p[1000..] == "..."
  {
    Preview(s, LogPreviewLimit)
  }

  /** `f"{str(e)}\n\nTraceback:\n{error_traceback}"`, the text of a caught exception. */
  function FormatException(message: string, traceback: string): (text: string)
    ensures StartsWith(text, message)
    ensures |text| == |message| + 13 + |traceback|
    ensures text[|message|..|message| + 13] == "\n\nTraceback:\n"
    ensures text[|message| + 13..] == traceback
  {
    message + "\n\nTraceback:\n" + traceback
  }

  /** A failure record built by the engine itself: no output and a message. */
  function Failure(message: string): ExecResult {
    ExecResult(false, "", Some(message))
  }

  // ---------------------------------------------------------------------------
  // The embedded Python runner, `_run_python_code_in_process`.

  /**
   * What `exec(code, {})` did, with stdout and stderr redirected to buffers:
   * it returned (`Completed`), or it raised an `Exception` after having written
   * `stdout` and `stderr` so far (`Raised`).
   */
  datatype PythonOutcome =
    | Completed(stdout: string, stderr: string)
    | Raised(stdout: string, stderr: string, message: string, traceback: string)

  function PythonResult(o: PythonOutcome): (r: ExecResult)
    // success exactly when the snippet did not raise
    ensures r.success <==> o.Completed?
    // the stdout captured up to the end (or up to the exception) is the output
    ensures r.output == o.stdout
    // after a normal return stderr is reported as a side channel, empty stderr as None
    ensures o.Completed? ==> (r.error == None <==> o.stderr == "")
    ensures o.Completed? && o.stderr != "" ==> r.error == Some(o.stderr)
    // after an exception the error is its message and traceback; partial stderr is dropped
    ensures o.Raised? ==> r.error == Some(FormatException(o.message, o.traceback))
  {
    match o
    case Completed(out, err) => ExecResult(true, out, if err == "" then None else Some(err))
    case Raised(out, _, msg, tb) => ExecResult(false, out, Some(FormatException(msg, tb)))
  }

  // ---------------------------------------------------------------------------
  // The external Node.js runner, `_run_nodejs_code_in_process`.

  /** The step of the Node runner at which an exception was raised. */
  datatype NodeStep =
    | CreateTempFile  // `tempfile.NamedTemporaryFile(...)`
    | WriteTempFile   // `temp_file.write(code)`
    | Spawn           // `subprocess.Popen(['node', path], ...)`
    | Communicate     // `process.communicate()`
    | Unlink          // `os.unlink(path)`

  /**
   * What the Node runner observed: the `node` process ran to its exit with the
   * given streams and return code, or an exception was raised at some step.
   */
  datatype NodeOutcome =
    | Exited(stdout: string, stderr: string, returncode: int)
    | Failed(step: NodeStep, message: string, traceback: string)

  function NodeResult(o: NodeOutcome): (r: ExecResult)
    // success exactly when the process exited with status 0
    ensures r.success <==> o.Exited? && o.returncode == 0
    // after an exit the output is the process's stdout, whatever the status
    ensures o.Exited? ==> r.output == o.stdout
    ensures o.Exited? && o.returncode == 0 ==> r.error == None
    ensures o.Exited? && o.returncode != 0 ==> r.error == Some(o.stderr)
    // an exception anywhere in the runner gives no output and the exception text
    ensures o.Failed? ==> r == Failure(FormatException(o.message, o.traceback))
  {
    match o
    case Exited(out, err, code) =>
      if code == 0 then ExecResult(true, out, None) else ExecResult(false, out, Some(err))
    case Failed(_, msg, tb) => Failure(FormatException(msg, tb))
  }

  /** An exception as the runner's `except` clause sees it. */
  datatype Exception = Exception(message: string, traceback: string)

  /** What one I/O call of the Node runner did: returned, or raised. */
  datatype StepResult = Ok | Raises(exception: Exception)

  /**
   * What the world does at each I/O call of the Node runner (app/executor.py:80-95):
   * creating and writing the temporary file, spawning `node`, waiting for it, and
   * `os.unlink`. The snippet itself may delete its own script file while it runs
   * (`removesOwnFile`); `os.unlink` of a file that still exists does `unlink`, and of
   * one that is gone raises `fileNotFound`.
   */
  datatype NodeWorld = NodeWorld(
    create: StepResult,
    write: StepResult,
    spawn: StepResult,
    removesOwnFile: bool,
    communicate: StepResult,
    stdout: string,
    stderr: string,
    returncode: int,
    unlink: StepResult,
    fileNotFound: Exception)

  function FailedAt(step: NodeStep, e: Exception): NodeOutcome {
    Failed(step, e.message, e.traceback)
  }

  /** The outcome the runner observes: the first call that raised, or the exit of `node`. */
  function ObservedOutcome(w: NodeWorld): (o: NodeOutcome)
    ensures o.Exited? <==> w.create.Ok? && w.write.Ok? && w.spawn.Ok? && w.communicate.Ok? &&
                           !w.removesOwnFile && w.unlink.Ok?
    ensures o.Exited? ==> o == Exited(w.stdout, w.stderr, w.returncode)
  {
    if w.create.Raises? then FailedAt(CreateTempFile, w.create.exception)
    else if w.write.Raises? then FailedAt(WriteTempFile, w.write.exception)
    else if w.spawn.Raises? then FailedAt(Spawn, w.spawn.exception)
    else if w.communicate.Raises? then FailedAt(Communicate, w.communicate.exception)
    else if w.removesOwnFile then FailedAt(Unlink, w.fileNotFound)
    else if w.unlink.Raises? then FailedAt(Unlink, w.unlink.exception)
    else Exited(w.stdout, w.stderr, w.returncode)
  }

  /**
   * `_run_nodejs_code_in_process`, step by step, with `onDisk` tracking the temporary
   * file: the file exists from its creation until it is removed, by `os.unlink` or by
   * the snippet itself; a raised exception leaves it as it is.
   */
  method RunNodejsCode(w: NodeWorld) returns (r: ExecResult, onDisk: bool)
    // the result is the one the runner shapes from what it observed
    ensures r == NodeResult(ObservedOutcome(w))
    // a file is left exactly when it was created and then writing it or spawning `node`
    // failed, or waiting or `os.unlink` failed while the snippet had not deleted it
    ensures onDisk <==> w.create.Ok? && (w.write.Raises? || w.spawn.Raises? ||
                                         (!w.removesOwnFile && (w.communicate.Raises? || w.unlink.Raises?)))
    // in particular, none after any run that reached the exit of `node`
    ensures ObservedOutcome(w).Exited? ==> !onDisk
    // when `os.unlink` raises, the file is left exactly when it still existed
    ensures ObservedOutcome(w).Failed? && ObservedOutcome(w).step == Unlink ==> (onDisk <==> !w.removesOwnFile)
    // a leftover file always comes with a failure without output
    ensures onDisk ==> !r.success && r.output == ""
  {
    onDisk := false;
    if w.create.Raises? {
      r := NodeResult(FailedAt(CreateTempFile, w.create.exception));
      return;
    }
    onDisk := true;
    if w.write.Raises? {
      r := NodeResult(FailedAt(WriteTempFile, w.write.exception));
      return;
    }
    if w.spawn.Raises? {
      r := NodeResult(FailedAt(Spawn, w.spawn.exception));
      return;
    }
    if w.removesOwnFile {
      onDisk := false;
    }
    if w.communicate.Raises? {
      r := NodeResult(FailedAt(Communicate, w.communicate.exception));
      return;
    }
    if !onDisk {
      r := NodeResult(FailedAt(Unlink, w.fileNotFound));
      return;
    }
    if w.unlink.Raises? {
      r := NodeResult(FailedAt(Unlink, w.unlink.exception));
      return;
    }
    onDisk := false;
    r := NodeResult(Exited(w.stdout, w.stderr, w.returncode));
  }

  // ---------------------------------------------------------------------------
  // The coordinator, `CodeExecutor.execute`.

  /**
   * What awaiting `asyncio.wait_for(run_in_executor(pool, runner, code), timeout)`
   * produced: the runner's own outcome, a timeout, or any other exception raised
   * by the pool machinery (a broken pool, a worker that died, ...).
   */
  datatype Dispatch<O> =
    | Returned(outcome: O)
    | TimedOut
    | Crashed(message: string, traceback: string)

  /**
   * The answer the process pool would give for each runner. `execute` consults at
   * most one of the two, and none when it returns before dispatching.
   */
  datatype PoolOutcomes = PoolOutcomes(python: Dispatch<PythonOutcome>, node: Dispatch<NodeOutcome>)

  const NodeUnavailableMessage := "Node.js未安装或不可用"

  /** `f"不支持的语言: {language}"`. */
  function UnsupportedLanguageMessage(language: string): (m: string)
    // a fixed 8-character head followed by the language exactly as requested
    ensures |m| == 8 + |language| && m[..8] == "不支持的语言: " && m[8..] == language
  {
    "不支持的语言: " + language
  }

  /** `f"代码执行超时 (>{self.timeout}秒)"`. */
  function TimeoutMessage(timeout: int): (m: string)
    // a fixed 9-character head, the deadline as Python prints it, and a 2-character tail
    ensures |m| == 11 + |DecimalString(timeout)|
    ensures m[..9] == "代码执行超时 (>" && m[|m| - 2..] == "秒)"
    ensures m[9..|m| - 2] == DecimalString(timeout)
  {
    "代码执行超时 (>" + DecimalString(timeout) + "秒)"
  }

  /** The failure records `execute` builds itself, without a runner result. */
  predicate IsEngineFailure(r: ExecResult) {
    !r.success && r.output == "" && r.error.Some? && r.error.value != ""
  }

  /** The result the coordinator gives for a dispatched runner, by what the pool delivered. */
  function Normalise<O>(d: Dispatch<O>, shape: O -> ExecResult, timeout: int): (r: ExecResult)
    ensures d.Returned? ==> r == shape(d.outcome)
    ensures d.TimedOut? ==> r == Failure(TimeoutMessage(timeout))
    ensures d.Crashed? ==> r == Failure(FormatException(d.message, d.traceback))
  {
    match d
    case Returned(o) => shape(o)
    case TimedOut => Failure(TimeoutMessage(timeout))
    case Crashed(msg, tb) => Failure(FormatException(msg, tb))
  }

  /**
   * `CodeExecutor`: the per-run deadline and the result of the start-up probe for
   * `node` are fixed when it is built and only read afterwards.
   */
  class CodeExecutor {
    const timeout: int
    const nodejsAvailable: bool

    /** `__init__`, with the outcome of `check_nodejs_available()` passed in. */
    constructor (timeout: int, nodejsAvailable: bool)
      ensures this.timeout == timeout && this.nodejsAvailable == nodejsAvailable
    {
      this.timeout := timeout;
      this.nodejsAvailable := nodejsAvailable;
    }

    /** The runner `execute` dispatches to, if any. */
    predicate Dispatches(language: string)
      // only the two known languages are ever dispatched, and `nodejs` only with node present
      ensures Dispatches(language) ==> language == "python3" || language == "nodejs"
      ensures language == "python3" ==> Dispatches(language)
      ensures language == "nodejs" ==> (Dispatches(language) <==> nodejsAvailable)
    {
      language == "python3" || (language == "nodejs" && nodejsAvailable)
    }

    /** `await execute(code, language)`; `pool` stands for the worker pool's answer. */
    function Execute(language: string, pool: PoolOutcomes): (r: ExecResult)
      // an unsupported language fails at once, whatever the pool would do
      ensures language != "python3" && language != "nodejs" ==>
                r == Failure(UnsupportedLanguageMessage(language))
      // a missing node binary fails at once, whatever the pool would do
      ensures language == "nodejs" && !nodejsAvailable ==> r == Failure(NodeUnavailableMessage)
      // a dispatched run reports the runner's own result when the pool returns it ...
      ensures language == "python3" && pool.python.Returned? ==> r == PythonResult(pool.python.outcome)
      ensures Dispatches(language) && language == "nodejs" && pool.node.Returned? ==>
                r == NodeResult(pool.node.outcome)
      // ... a timeout naming the configured deadline ...
      ensures language == "python3" && pool.python.TimedOut? ==> r == Failure(TimeoutMessage(timeout))
      ensures Dispatches(language) && language == "nodejs" && pool.node.TimedOut? ==>
                r == Failure(TimeoutMessage(timeout))
      // ... and any other exception as its message and traceback
      ensures language == "python3" && pool.python.Crashed? ==>
                r == Failure(FormatException(pool.python.message, pool.python.traceback))
      ensures Dispatches(language) && language == "nodejs" && pool.node.Crashed? ==>
                r == Failure(FormatException(pool.node.message, pool.node.traceback))
    {
      if language == "python3" then
        Normalise(pool.python, PythonResult, timeout)
      else if language == "nodejs" then
        if !nodejsAvailable then Failure(NodeUnavailableMessage)
        else Normalise(pool.node, NodeResult, timeout)
      else
        Failure(UnsupportedLanguageMessage(language))
    }
  }

  // ---------------------------------------------------------------------------
  // Properties of the coordinator.

  /** When `execute` does not dispatch, the pool's answer makes no difference. */
  lemma NoDispatchIgnoresPool(e: CodeExecutor, language: string, p: PoolOutcomes, q: PoolOutcomes)
    requires !e.Dispatches(language)
    ensures e.Execute(language, p) == e.Execute(language, q)
    ensures IsEngineFailure(e.Execute(language, p))
  {
  }

  /**
   * Every result of `execute` that did not come back from a runner is a failure with
   * no output and a non-empty message, so no outcome is reported as a success
   * unless a runner reported it.
   */
  lemma EngineFailuresAreFailures(e: CodeExecutor, language: string, pool: PoolOutcomes)
    requires !(language == "python3" && pool.python.Returned?)
    requires !(e.Dispatches(language) && language == "nodejs" && pool.node.Returned?)
    ensures IsEngineFailure(e.Execute(language, pool))
  {
  }

  /** A success reported by `execute` is the success of the runner it dispatched to. */
  lemma SuccessComesFromRunner(e: CodeExecutor, language: string, pool: PoolOutcomes)
    requires e.Execute(language, pool).success
    ensures language == "python3" ==> pool.python.Returned? && pool.python.outcome.Completed?
    ensures language != "python3" ==>
              language == "nodejs" && e.nodejsAvailable && pool.node.Returned? &&
              pool.node.outcome.Exited? && pool.node.outcome.returncode == 0
  {
  }

  /** The timeout message names the deadline: different deadlines give different messages. */
  lemma TimeoutMessageNamesDeadline(s: int, t: int)
    requires TimeoutMessage(s) == TimeoutMessage(t)
    ensures s == t
  {
    var ms, mt := TimeoutMessage(s), TimeoutMessage(t);
    assert DecimalString(s) == ms[9..|ms| - 2] == mt[9..|mt| - 2] == DecimalString(t);
    DecimalStringInjective(s, t);
  }
}

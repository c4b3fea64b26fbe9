/**
 * The decisions app/main.py takes around the engine: the API-key gate, the response
 * of the `/v1/sandbox/run` endpoint, and the default size of the worker pool.
 */
module Transport {
  import opened Wrappers
  import opened Text
  import opened Executor

  /** Requests under this prefix need the API key. */
  const SandboxPrefix := "/v1/sandbox"
  /** Requests under this prefix are counted by the concurrency gate. */
  const RunPrefix := "/v1/sandbox/run"

  /** The `data` object of a completed run. */
  datatype RunData = RunData(error: string, stdout: string)

  /** The JSON body `{"code", "message", "data"}` of every API answer. */
  datatype Body = Body(code: int, message: string, data: Option<RunData>)

  /**
   * What a middleware hands back: a `JSONResponse` with an explicit status, or a
   * plain dictionary returned where a `Response` is due.
   */
  datatype Reply =
    | JsonReply(status: int, body: Body)
    | MiddlewareDict(body: Body)

  /** What `await call_next(request)` produced: a reply, or an exception that propagates. */
  datatype Downstream = Responded(reply: Reply) | Threw(message: string)

  // ---------------------------------------------------------------------------
  // `AuthMiddleware.dispatch`.

  const Unauthorized := JsonReply(401, Body(-401, "Unauthorized", None))

  /** `not api_key or api_key != API_KEY` is false: the header is present, non-empty and right. */
  predicate KeyAccepted(header: Option<string>, apiKey: string)
    // accepted exactly when the header carries the configured key and that key is not empty
    ensures KeyAccepted(header, apiKey) <==> header == Some(apiKey) && apiKey != ""
  {
    header.Some? && header.value != "" && header.value == apiKey
  }

  function AuthDispatch(path: string, header: Option<string>, apiKey: string, next: Downstream): (r: Downstream)
    // protected paths without the right key are refused with 401 and no data
    ensures StartsWith(path, SandboxPrefix) && !KeyAccepted(header, apiKey) ==> r == Responded(Unauthorized)
    // everything else is whatever the rest of the stack produced
    ensures !StartsWith(path, SandboxPrefix) || KeyAccepted(header, apiKey) ==> r == next
  {
    if StartsWith(path, SandboxPrefix) && !KeyAccepted(header, apiKey) then
      Responded(Unauthorized)
    else
      next
  }

  /** With an empty `API_KEY`, no request under the prefix is ever let through. */
  lemma EmptyKeyLocksSandbox(path: string, header: Option<string>, next: Downstream)
    requires StartsWith(path, SandboxPrefix)
    ensures AuthDispatch(path, header, "", next) == Responded(Unauthorized)
  {
  }

  /** Every path the concurrency gate counts is also behind the API key. */
  lemma RunPathsAreProtected(path: string)
    requires StartsWith(path, RunPrefix)
    ensures StartsWith(path, SandboxPrefix)
  {
    assert StartsWith(RunPrefix, SandboxPrefix);
    StartsWithTransitive(path, RunPrefix, SandboxPrefix);
  }

  // ---------------------------------------------------------------------------
  // The `/v1/sandbox/run` endpoint, `execute_code`.

  /** `request.language in ["python3", "nodejs"]`. */
  predicate SupportedLanguage(language: string)
    ensures SupportedLanguage(language) <==> language == "python3" || language == "nodejs"
  {
    language in ["python3", "nodejs"]
  }

  /** `result["error"] or ""`: a missing and an empty error both become "". */
  function ErrorText(error: Option<string>): (t: string)
    ensures t == "" <==> error == None || error == Some("")
    ensures error.Some? ==> t == error.value
  {
    match error
    case None => ""
    case Some(e) => e
  }

  /**
   * The body `execute_code` returns for a request in `language`; `executor.execute`
   * is reached only for a listed language. (`result["output"] or ""` is the output
   * itself: every runner produces a string.)
   */
  function ExecuteCode(language: string, executor: CodeExecutor, pool: PoolOutcomes): (b: Body)
    ensures !SupportedLanguage(language) ==> b == Body(-400, "unsupported language", None)
    ensures SupportedLanguage(language) ==>
              var result := executor.Execute(language, pool);
              b == Body(0, "success", Some(RunData(ErrorText(result.error), result.output)))
    // the code is 0 for every run, failed or not, and -400 only for a refused language
    ensures b.code == 0 <==> b.data.Some?
    ensures b.code == 0 || b.code == -400
  {
    if !SupportedLanguage(language) then
      Body(-400, "unsupported language", None)
    else
      var result := executor.Execute(language, pool);
      Body(0, "success", Some(RunData(ErrorText(result.error), result.output)))
  }

  /**
   * A Python snippet that returns normally reaches the client with its stdout and
   * stderr exactly: `stderr or None` followed by `error or ""` gives stderr back.
   */
  lemma PythonCompletedOverHttp(executor: CodeExecutor, pool: PoolOutcomes, stdout: string, stderr: string)
    requires pool.python == Returned(Completed(stdout, stderr))
    ensures ExecuteCode("python3", executor, pool) == Body(0, "success", Some(RunData(stderr, stdout)))
  {
  }

  /** A Python snippet that raises reaches the client with its partial stdout and the exception text. */
  lemma PythonRaisedOverHttp(executor: CodeExecutor, pool: PoolOutcomes, o: PythonOutcome)
    requires o.Raised? && pool.python == Returned(o)
    ensures ExecuteCode("python3", executor, pool) ==
              Body(0, "success", Some(RunData(FormatException(o.message, o.traceback), o.stdout)))
  {
  }

  /**
   * A node process reaches the client with its stdout; its stderr is shown only when
   * it exited with a non-zero status.
   */
  lemma NodeExitedOverHttp(executor: CodeExecutor, pool: PoolOutcomes, stdout: string, stderr: string, returncode: int)
    requires executor.nodejsAvailable && pool.node == Returned(Exited(stdout, stderr, returncode))
    ensures ExecuteCode("nodejs", executor, pool) ==
              Body(0, "success", Some(RunData(if returncode == 0 then "" else stderr, stdout)))
  {
  }

  /**
   * The HTTP answer carries no success flag: a node process that exits with a
   * non-zero status and writes nothing to stderr gets the same answer as one that
   * succeeds with the same stdout.
   */
  lemma NodeSilentFailureLooksLikeSuccess(executor: CodeExecutor, p: PoolOutcomes, q: PoolOutcomes, stdout: string, returncode: int)
    requires executor.nodejsAvailable && returncode != 0
    requires p.node == Returned(Exited(stdout, "", returncode))
    requires q.node == Returned(Exited(stdout, "", 0))
    ensures !executor.Execute("nodejs", p).success && executor.Execute("nodejs", q).success
    ensures ExecuteCode("nodejs", executor, p) == ExecuteCode("nodejs", executor, q)
  {
  }

  /** A run the engine gave up on reaches the client with code 0, no stdout and a non-empty error. */
  lemma EngineFailureOverHttp(language: string, executor: CodeExecutor, pool: PoolOutcomes)
    requires SupportedLanguage(language)
    requires !(language == "python3" && pool.python.Returned?)
    requires !(executor.Dispatches(language) && language == "nodejs" && pool.node.Returned?)
    ensures var b := ExecuteCode(language, executor, pool);
      b.code == 0 && b.data.Some? && b.data.value.stdout == "" && b.data.value.error != ""
  {
    EngineFailuresAreFailures(executor, language, pool);
  }

  // ---------------------------------------------------------------------------
  // The default pool size.

  /**
   * `min(32, cpu_count * 4)`, where `cpu_count` is what `multiprocessing.cpu_count()`
   * returned, or `None` when it raised (then 1 is used).
   */
  function DefaultWorkers(cpuCount: Option<int>): (workers: int)
    ensures cpuCount == None ==> workers == 4
    ensures workers <= 32
    ensures cpuCount.Some? && cpuCount.value <= 8 ==> workers == 4 * cpuCount.value
    ensures cpuCount.Some? && cpuCount.value >= 8 ==> workers == 32
    // "at least 4 workers" holds whenever the reported count is at least 1
    ensures cpuCount.Some? && cpuCount.value >= 1 ==> 4 <= workers <= 32
  {
    var count := match cpuCount case None => 1 case Some(n) => n;
    if 32 < count * 4 then 32 else count * 4
  }
}

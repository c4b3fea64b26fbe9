# A model of the dify-sandbox-py execution engine

The service takes a snippet of Python or JavaScript over HTTP, runs it in a pool of
worker processes, and answers with the captured stdout, an error text and a
`{code, message, data}` envelope. Around the plumbing (`exec`, a `node` subprocess, a
process pool, `asyncio.wait_for`, FastAPI middleware) sits a small amount of decision
logic. That logic is what this project models and proves:

- `text.dfy`: `Wrappers.Option` (Python's `None`), and module `Text` with
  `str.startswith`, the log preview `s[:n] + "..."`, and Python's `str(int)` with a
  parser that reads it back.
- `executor.dfy` (module `Executor`, app/executor.py): the two language runners as
  total functions from an abstract outcome (what `exec` or the `node` process did) to
  the result record `{success, output, error}`; the `CodeExecutor` whose `Execute`
  routes by language and normalises a returned result, a timeout or a crash of the
  pool into that record.
- `transport.dfy` (module `Transport`, app/main.py): the API-key middleware, the
  `/v1/sandbox/run` endpoint's response, and the default pool size.
- `admission.dfy` (module `Admission`, app/main.py): `ConcurrencyMiddleware` as a
  class over its request counter and its semaphore, with one method per step of a
  request, the whole-request `Dispatch`, and the middleware stack `Serve`.

What the worker pool delivers is the `Dispatch` value `Returned(outcome)`,
`TimedOut` or `Crashed(message, traceback)`. `PoolOutcomes` holds the pool's answer
for each of the two runners; `Execute` consults at most one of them. Configuration
values (`API_KEY`, `MAX_REQUESTS`, `MAX_WORKERS`, `WORKER_TIMEOUT`) and the start-up
probe for `node` are parameters.

Behaviour of the code as written, which the model keeps:

- The Node runner creates its temporary file with `delete=False` (app/executor.py:80).
  It calls `os.unlink` only after `node` has run and been waited for
  (app/executor.py:95). An exception while writing the file or spawning `node` goes
  straight to the `except` at app/executor.py:118, so the file stays on disk. So does an
  exception while waiting for `node`, unless the snippet deleted its own file
  (`RunNodejsCode`).
- A Node run that succeeds has error `None`, even when stderr is not empty
  (app/executor.py:105-109). A failed run has error stderr, even when stderr is empty
  (app/executor.py:113-117). The HTTP body has no success flag
  (app/main.py:132-139). So a `node` process that exits non-zero without writing to
  stderr gets the same answer as a successful one
  (`NodeSilentFailureLooksLikeSuccess`).
- The comment at app/main.py:22 promises at least 4 workers. The formula at
  app/main.py:28 has no floor of its own: it gives at least 4 only because the CPU
  count, or its fallback of 1, is at least 1 (`DefaultWorkers`).
- At the ceiling, `ConcurrencyMiddleware.dispatch` returns a plain dictionary where
  Starlette expects a `Response` (app/main.py:78-82, `MiddlewareDict`). What Starlette
  then sends is not part of this model.
- `ConcurrencyMiddleware` is added after `AuthMiddleware` (app/main.py:94-95), so it is
  the outer one. A request to `/v1/sandbox/run` is counted, and may be refused with
  -503, before its API key is checked (`Serve`).

## Model

| member | source | states |
|---|---|---|
| `Text.Preview` | app/main.py:124-129 | A string longer than the limit becomes its first `limit` characters plus `"..."`, `limit + 3` characters in all; a shorter one is unchanged. |
| `Text.StartsWith` | app/main.py:53 | `str.startswith`: the string is at least as long as the prefix and agrees with it character by character. |
| `Executor.LogPreview` | app/executor.py:38-41 | The logged preview of stdout or stderr: over 1000 characters, the first 1000 plus `"..."` (1003 characters); otherwise the text itself. |
| `Text.DecimalString` | app/executor.py:190 | Python's `str` of the interpolated deadline: never empty, and it starts with `-` exactly when the number is negative. |
| `Text.DecimalRoundTrip` | app/executor.py:190 | `str(n)` of an integer (sign, then digits) parses back to `n`, so the timeout text carries the deadline exactly. |
| `Text.DecimalStringInjective` | app/executor.py:190 | Different integers print as different strings. |
| `Executor.FormatException` | app/executor.py:65 | The error of a caught exception starts with the message and ends with the traceback, after the 13-character `"\n\nTraceback:\n"`. |
| `Executor.PythonResult` | app/executor.py:30-66 | A snippet that returns gives success with its stdout as output, and its stderr as error, or `None` when stderr is empty. A snippet that raises gives failure, the stdout written before it raised, and the message plus traceback as error. |
| `Executor.NodeResult` | app/executor.py:97-128 | Success exactly when the process exits with status 0. Output is its stdout. Error is `None` on success and stderr otherwise. An exception at any step gives failure, output "" and the message plus traceback. |
| `Executor.ObservedOutcome` | app/executor.py:78-128 | The runner observes the exit of `node` exactly when creating, writing, spawning, waiting and unlinking all returned and the snippet did not delete its own file. It then sees the process's stdout, stderr and return code. |
| `Executor.RunNodejsCode` | app/executor.py:78-128 | The Node runner as steps over the state of its temporary file. Its result is `NodeResult` of what it observed. A file is left exactly when it was created and then writing it or spawning `node` raised, or waiting for `node` or `os.unlink` raised while the snippet had not deleted the file. So no file is left when creation failed or when the run reached the exit of `node`. A leftover file always comes with a failure and no output. |
| `Executor.Normalise` | app/executor.py:175-201 | A dispatched run yields the runner's own result when the pool returns it. A timeout yields failure with output "" and the timeout message. Any other exception yields failure with output "" and the message plus traceback. |
| `Executor.UnsupportedLanguageMessage` | app/executor.py:172 | The fixed 8-character head `"不支持的语言: "` followed by the requested language unchanged. |
| `Executor.TimeoutMessage` | app/executor.py:190 | The fixed head `"代码执行超时 (>"`, the deadline as Python prints it, then `"秒)"`. |
| `Executor.CodeExecutor.Dispatches` | app/executor.py:156-166 | `python3` is always dispatched. `nodejs` is dispatched exactly when node is available. No other language is ever dispatched. |
| `Executor.CodeExecutor.constructor` | app/executor.py:142-145 | The deadline and the node probe's answer are fixed at construction. |
| `Executor.CodeExecutor.Execute` | app/executor.py:151-201 | `"nodejs"` without node fails with the fixed unavailable message. Any language other than `"python3"`/`"nodejs"` fails with `"不支持的语言: " + language`. Neither consults the pool. Dispatched runs are normalised as in `Normalise`, so every path returns a record. |
| `Executor.NoDispatchIgnoresPool` | app/executor.py:158-173 | When `execute` returns before dispatching, the pool's answer cannot change the result, which is a failure with output "" and a non-empty error. |
| `Executor.EngineFailuresAreFailures` | app/executor.py:185-201 | Every result not returned by a runner is a failure with output "" and a non-empty error. |
| `Executor.SuccessComesFromRunner` | app/executor.py:175-183 | A success reported by `execute` is a Python snippet that completed, or a dispatched node process that exited with status 0. |
| `Executor.TimeoutMessageNamesDeadline` | app/executor.py:185-191 | Two deadlines that produce the same timeout message are equal. |
| `Transport.AuthDispatch` | app/main.py:51-66 | Under `/v1/sandbox`, a missing, empty or wrong `X-Api-Key` yields a 401 JSON response with code -401, `"Unauthorized"` and no data. Every other request gets what the rest of the stack produced. |
| `Transport.KeyAccepted` | app/main.py:54-55 | `not api_key or api_key != API_KEY` is false exactly when the header carries the configured key and that key is not empty. |
| `Transport.EmptyKeyLocksSandbox` | app/main.py:53-55 | With an empty `API_KEY` no request under `/v1/sandbox` is let through. |
| `Transport.RunPathsAreProtected` | app/main.py:53-76 | Every path the concurrency gate counts also lies under the API-key prefix. |
| `Transport.ErrorText` | app/main.py:136 | `error or ""`: the result is "" exactly for a missing or empty error, and the error itself otherwise. |
| `Transport.SupportedLanguage` | app/main.py:111 | Exactly `python3` and `nodejs` are accepted. |
| `Transport.ExecuteCode` | app/main.py:101-139 | A language outside `python3`/`nodejs` yields code -400, `"unsupported language"` and no data, without calling the executor. These are exactly the languages that would reach the executor's unsupported-language branch, so that branch of the executor is never reached over HTTP. Otherwise the executor runs and the answer is code 0, `"success"`, with its error (`None` as "") and its output. The code is 0 exactly when data is present. |
| `Transport.PythonCompletedOverHttp` | app/main.py:132-139 | A Python snippet that returns reaches the client with exactly its stdout and stderr. `stderr or None` followed by `error or ""` gives stderr back. |
| `Transport.PythonRaisedOverHttp` | app/main.py:132-139 | A raising Python snippet reaches the client with its partial stdout and the exception text. |
| `Transport.NodeExitedOverHttp` | app/main.py:132-139 | A node process reaches the client with its stdout. Its stderr appears only after a non-zero exit. |
| `Transport.NodeSilentFailureLooksLikeSuccess` | app/main.py:132-139 | A non-zero exit with empty stderr and a zero exit with the same stdout get the same HTTP answer, although the engine reports one as a failure and the other as a success. |
| `Transport.EngineFailureOverHttp` | app/main.py:132-139 | A timeout, a crash or a refused runtime reaches the client as code 0 with empty stdout and a non-empty error. |
| `Transport.DefaultWorkers` | app/main.py:22-28 | `min(32, cpu_count * 4)` with 1 when the count is unavailable. It is at most 32, and between 4 and 32 when the count is at least 1. It is 4·count up to 8 CPUs and 32 from 8 on. |
| `Admission.ConcurrencyMiddleware.Valid` | app/main.py:72-90 | Invariant: at most `MAX_WORKERS` requests hold a slot, the semaphore is empty exactly when all slots are held, and the in-flight count never exceeds `MAX_REQUESTS`. |
| `Admission.ConcurrencyMiddleware.constructor` | app/main.py:70-73 | No request in flight and every slot free. |
| `Admission.ConcurrencyMiddleware.Admit` | app/main.py:77-84 | At or over the ceiling the request is refused and the counter is unchanged. Otherwise the counter goes up by one. |
| `Admission.ConcurrencyMiddleware.Acquire` | app/main.py:86 | An admitted request takes one free slot. |
| `Admission.ConcurrencyMiddleware.Release` | app/main.py:86-87 | Leaving the `async with` block frees the slot. |
| `Admission.ConcurrencyMiddleware.Finish` | app/main.py:89-90 | The `finally` clause gives the admission ticket back. |
| `Admission.ConcurrencyMiddleware.Dispatch` | app/main.py:75-91 | A run path at the ceiling gets the -503 `"Too many requests"` dictionary. Other run paths get what the stack produced, whether it answered or raised. Other paths pass straight through. In every case the counter and the semaphore end as they started. |
| `Admission.Serve` | app/main.py:93-95 | The concurrency gate is outermost: at the ceiling a run request is refused before its key is checked. Otherwise the answer is the API-key middleware's, and both counters return to their values before the request. |

## Left out

- Running code: `exec` in a fresh namespace and the redirection of stdout and stderr, and the `node` subprocess and the contents of its temporary file. What these calls did is the outcome value the runners receive (`PythonOutcome`, `NodeWorld`). The file name and the writing of the code into the file are not modelled.
- `PythonOutcome` has no case for a `BaseException` that is not an `Exception`, such as `SystemExit` from `sys.exit()` in a snippet. The runner's `except Exception` does not catch it. What the process pool and the event loop then do is not part of this model.
- `ProcessPoolExecutor`, `run_in_executor` and `asyncio.wait_for` (app/executor.py:144, 175-180). Real time and process management are not modelled. The pool's answer is the `Dispatch` value. The pool size `max_workers` of `CodeExecutor` is therefore not a field.
- `check_nodejs_available` is a subprocess probe. Its answer is the constructor parameter `nodejsAvailable`. `CodeExecutor.shutdown` is not modelled.
- Logging, apart from the preview strings it prints. Reading the environment with `int(os.getenv(...))` and its defaults (`"dify-sandbox"`, 1000, 10000) is not modelled either. The `MAX_WORKERS` override of the default pool size is one of these environment values.
- FastAPI, Starlette, pydantic and uvicorn wiring: request validation, the `/health` route, routing of other paths, and turning returned dictionaries into HTTP responses.
- The request fields `code`, `preload` and `enable_network`. The code reaches only the runner, whose outcome stands for it. The other two are only logged.
- Event-loop scheduling. A request waiting for the semaphore is not modelled, and no fairness is claimed.
- Admission.ConcurrencyMiddleware.Acquire: requires a free slot. The source would wait for one.
- Admission.ConcurrencyMiddleware.Dispatch: requires a free slot for an admitted run request. The source would wait for one. Two requests inside one `Dispatch` are not interleaved; the step methods express interleavings instead.
- Admission.Serve: the same free-slot requirement as `Dispatch`.
- Admission.ConcurrencyMiddleware.constructor: `MAX_WORKERS` is a `nat`. A negative semaphore capacity is refused by `asyncio.Semaphore`, and that error is not modelled.

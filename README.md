# Notion MCP server: the outbound-request governor, in Dafny

This project models the part of the Notion MCP server that shapes, paces and
retries calls to the Notion API, and proves what it guarantees:

- **`RateLimiting`** (`rate_limiter.dfy`) is the sliding-window rate limiter.
  It keeps a ledger of grant timestamps, pruned to the window before every
  decision, and a queue of waiting callers. An `acquire` either grants at
  once (the fast path) or queues the caller. A recurring queue step grants
  the head waiter when the window has room.
  - The pure functions `Prune`, `AcquireSpec` and `StepSpec` define each
    operation on a `Limiter` value. The `RateLimiter` class is proved to
    follow them.
  - Runs of arbitrary interleavings of acquires, steps and configuration
    changes are modelled too. Over them the model proves queue FIFO order.
    It also records every grant a run makes, fast path and queued, and
    proves that with a clock that never goes back every window of
    `windowMs` holds at most `maxRequests` grants.
- **`Api`** (`api_client.dfy`) is the retrying request executor. Each attempt:
  - acquires the limiter;
  - builds the URL from the present query parameters;
  - sends the body only when it is truthy;
  - parses the response before checking its status.

  A failed attempt backs off `retryDelay * 2^(k-1)` before the next one, for
  at most `maxRetries + 1` attempts. The result is the first success, or a
  `request_failed` error built from the last error.
  - `Expected` specifies the loop. `ApiClient.Request` is proved to compute
    it and to emit exactly the trace of acquires, sends and backoffs that
    `TraceOf` describes.
- **`Notion`** (`client.dfy`) is the client wrapper.
  - It has one request builder per Notion operation. An optional body field
    or query parameter is present exactly when its argument is truthy.
  - Custom features are gated by flags.
  - The CSV import counts rows.
  - Every wrapper returns `response.data`, which is absent when the request
    failed (`Dispatch`).
- **`Logging`** (`logger.dfy`) is the level-filtered logger. The console is the
  sequence of records written.
- **`Json`** (`json.dfy`) models parsed JSON values as JavaScript sees them:
  - truthiness;
  - property read and assignment in insertion order;
  - decimal text of integers and its inverse;
  - `String()` of a value.

  **`Wrappers`** (`wrappers.dfy`) holds `Option` and `Result`.

The clock is a `now` parameter and the network is a `transport` parameter:
`transport(k)` is what attempt `k` observes.

### Where the code departs from the intended design (the model follows the code)

- **The fast path ignores the queue.** A new caller is admitted whenever the
  window has room, even while earlier callers still wait in the queue
  (`RateLimiting.FastPathBypassesQueue`). So FIFO holds among queued waiters
  (`RateLimiting.QueueIsFifo`), but not globally.
- **One waiter per step.** Each queue step grants at most one waiter. It
  does not loop while capacity remains.
- **The window bound needs a stable configuration.** After `updateConfig`
  lowers the quota, the ledger may hold more entries than the new maximum
  until they expire. Every grant made after the change does respect the new
  quota (`RateLimiting.GrantRespectsQuota`). The bound on the grants in
  every window is proved for runs without configuration changes
  (`RateLimiting.WindowBoundAlongRun`).
- **A query of absent values.** A query whose keys all have absent values
  still gets the `?` separator, followed by an empty parameter list.
- **A `null` body on an error status.** When an error response's body
  parses to `null`, building the error message throws a `TypeError`. That
  attempt therefore fails with the `TypeError`'s message and no status
  (`Api.FailuresWithoutStatus`).

## Model

| member | source | states |
|---|---|---|
| Json.Put | src/notion/client.ts:64-65 | property assignment: the key then reads back the new value, every other key reads as before, and the key list grows only by a new key at the end (JavaScript order for keys that are not array indices) |
| Json.PutOpt | src/notion/client.ts:203-207 | `if (arg) body.key = arg`: the key reads the argument when one is given, else its old value; other keys are untouched |
| Json.LookupPutOpt | src/notion/client.ts:203-207 | after `if (arg) body.key = arg`, a key reads the argument when it is that key and the argument is given, and its old value otherwise |
| Json.JsonArg | src/notion/utils/api-client.ts:83-85 | an `any` argument (an optional body field, or the request body itself) is kept exactly when it is truthy, unchanged |
| Json.StrArg | src/notion/client.ts:206 | a string argument is kept exactly when it is non-empty |
| Json.NumArg | src/notion/client.ts:207 | a number argument is kept exactly when it is non-zero |
| Json.DecimalRoundTrip | src/notion/client.ts:92 | the decimal text of an integer (`toString()`) reads back as that integer |
| Json.NegativeRoundTrip | src/notion/client.ts:92 | the text `-` followed by the digits of a negative integer reads back as that integer |
| Json.NonNegativeRoundTrip | src/notion/client.ts:92 | the digits of a non-negative integer read back as that integer |
| Json.NatToDecimal | src/notion/client.ts:92 | decimal text is non-empty, all digits, without leading zeros |
| Json.Render | src/notion/utils/api-client.ts:113-115 | template-literal text of a value: a string is itself, a number is decimal text that reads back as it, a boolean is `true`/`false`, an object is `[object Object]` |
| Logging.Logger.constructor | src/notion/utils/logger.ts:16 | a new logger has threshold `info` and has written nothing |
| Logging.Logger.SetLogLevel | src/notion/utils/logger.ts:27-29 | the threshold becomes the given level, and the enabled levels are exactly those ranked at or above it |
| Logging.RankIsStrictOrder | src/notion/utils/logger.ts:32-37 | the four ranks are distinct, so they order the levels strictly |
| Logging.Logger.IsLevelEnabled | src/notion/utils/logger.ts:31-40 | a level is enabled exactly when its rank is at least the threshold's; error is always enabled; debug exactly under threshold debug |
| Logging.ErrorAlwaysEnabled | src/notion/utils/logger.ts:31-40 | error records pass every threshold |
| Logging.DebugOnlyUnderDebug | src/notion/utils/logger.ts:31-40 | debug records pass exactly when the threshold is debug |
| Logging.EnabledIsMonotone | src/notion/utils/logger.ts:39 | a level above an enabled level is enabled |
| Logging.LoweringThresholdEnablesMore | src/notion/utils/logger.ts:39 | lowering the threshold never disables a level |
| Logging.Logger.Emit | src/notion/utils/logger.ts:57-79 | one record is appended when its level is enabled, nothing otherwise |
| Logging.Logger.Debug | src/notion/utils/logger.ts:57-61 | writes its record only under threshold debug |
| Logging.Logger.Info | src/notion/utils/logger.ts:63-67 | writes its record unless the threshold is warn or error |
| Logging.Logger.Warn | src/notion/utils/logger.ts:69-73 | writes its record unless the threshold is error |
| Logging.Logger.Error | src/notion/utils/logger.ts:75-79 | always writes its record |
| RateLimiting.Prune | src/notion/utils/rate-limiter.ts:34-39 | keeps exactly the timestamps with `now - t < windowMs` and never grows the ledger |
| RateLimiting.PruneAppend | src/notion/utils/rate-limiter.ts:36-38 | pruning distributes over concatenation, so it keeps the order of what it keeps |
| RateLimiting.PruneIdempotent | src/notion/utils/rate-limiter.ts:34-39 | pruning twice at the same instant equals pruning once |
| RateLimiting.NothingInWindow | src/notion/utils/rate-limiter.ts:36-38 | a ledger with no entry in the window prunes to empty |
| RateLimiting.AllInWindow | src/notion/utils/rate-limiter.ts:36-38 | a ledger entirely in the window is kept whole |
| RateLimiting.AcquireBehaviour | src/notion/utils/rate-limiter.ts:79-96 | admitted on the fast path exactly when the pruned ledger has room, appending `now` and leaving the queue alone; otherwise one waiter joins the tail, and draining starts exactly when the queue was empty |
| RateLimiting.StepBehaviour | src/notion/utils/rate-limiter.ts:53-73 | an empty queue changes nothing and is not rescheduled; otherwise exactly the head waiter is granted when there is room, or only the ledger is pruned, and the step is rescheduled |
| RateLimiting.GrantRespectsQuota | src/notion/utils/rate-limiter.ts:45-48 | every grant, fast or queued, leaves at most `maxRequests` ledger entries, in the ledger and in the window |
| RateLimiting.QuotaBoundsEveryWindow | src/notion/utils/rate-limiter.ts:45-48 | a ledger within the quota has at most `maxRequests` ledger entries in any window |
| RateLimiting.QuotaPreserved | src/notion/utils/rate-limiter.ts:53-96 | acquiring and stepping keep the number of ledger entries within the quota |
| RateLimiting.UpdateConfigKeepsLedgerAndQueue | src/notion/utils/rate-limiter.ts:101-105 | a configuration change sets both values and touches neither ledger nor queue |
| RateLimiting.FastPathBypassesQueue | src/notion/utils/rate-limiter.ts:80-83 | with expired grants and a waiter still queued, a new caller is admitted ahead of the waiter |
| RateLimiting.OneOpIsFifo | src/notion/utils/rate-limiter.ts:58 | one operation serves from the head and enqueues at the tail |
| RateLimiting.QueueIsFifo | src/notion/utils/rate-limiter.ts:53-96 | over any run, the waiters served followed by those still waiting are the initial queue followed by those enqueued |
| RateLimiting.ServedInArrivalOrder | src/notion/utils/rate-limiter.ts:58 | the i-th waiter served is the i-th in arrival order |
| RateLimiting.QuotaAlongRun | src/notion/utils/rate-limiter.ts:45-96 | without configuration changes, after any run the ledger keeps at most `maxRequests` entries in every window |
| RateLimiting.GrantsInWindowAppend | src/notion/utils/rate-limiter.ts:36-38 | counting the grants in a window distributes over concatenation |
| RateLimiting.GrantsInWindowBelowPrune | src/notion/utils/rate-limiter.ts:34-39 | the window ending at `c` holds no more grants than pruning at `c` keeps |
| RateLimiting.PruneLater | src/notion/utils/rate-limiter.ts:34-39 | pruning at an instant and later again is pruning once at the later instant |
| RateLimiting.LedgerAfter | src/notion/utils/rate-limiter.ts:34-96 | an acquire or step either leaves the ledger and grants nothing, or prunes the ledger at `now` and appends exactly its grants; the configuration is unchanged |
| RateLimiting.OneOpKeepsHistory | src/notion/utils/rate-limiter.ts:34-96 | an acquire or step at a later instant keeps the ledger equal to the whole grant history at every later pruning |
| RateLimiting.OneOpKeepsWindowBound | src/notion/utils/rate-limiter.ts:45-96 | one acquire or step keeps the quota, the ledger's agreement with the grant history, and the bound on the grants in every window |
| RateLimiting.HistoryWindowBound | src/notion/utils/rate-limiter.ts:45-96 | the window bound on the grant history is kept along a whole run with a clock that never goes back |
| RateLimiting.WindowBoundAlongRun | src/notion/utils/rate-limiter.ts:45-96 | without configuration changes and with a clock that never goes back, the ledger followed by every grant of the run (fast path and queued) has at most `maxRequests` entries in every window `(c - windowMs, c]` |
| RateLimiting.BurstScenario | src/notion/utils/rate-limiter.ts:79-96 | five simultaneous callers under 3 per 1000 ms: three admitted, two queued in order; a step 999 ms later grants nobody, a step 1000 ms later grants only the first waiter |
| RateLimiting.BurstArrivals | src/notion/utils/rate-limiter.ts:79-96 | five simultaneous acquires on a fresh limiter: the first three are admitted with ledger `[t, t, t]`, the last two queued in order |
| RateLimiting.RunOfFive | src/notion/utils/rate-limiter.ts:53-105 | five operations, each taking one state to the next, run from the first state to the last |
| RateLimiting.SimultaneousAcquire | src/notion/utils/rate-limiter.ts:80-89 | under the defaults, an acquire at the instant of every ledger entry is admitted while fewer than three are held, and queued otherwise |
| RateLimiting.RateLimiter.constructor | src/notion/utils/rate-limiter.ts:16-19 | defaults of 3 requests per 1000 ms, with empty ledger and queue |
| RateLimiting.RateLimiter.CleanOldTimestamps | src/notion/utils/rate-limiter.ts:34-39 | the ledger becomes its pruning at `now` |
| RateLimiting.RateLimiter.CanMakeRequest | src/notion/utils/rate-limiter.ts:45-48 | prunes, then answers whether fewer than `maxRequests` entries remain |
| RateLimiting.RateLimiter.ProcessQueue | src/notion/utils/rate-limiter.ts:53-73 | follows `StepSpec`; a served waiter is the old head and leaves the ledger within the quota |
| RateLimiting.RateLimiter.Acquire | src/notion/utils/rate-limiter.ts:79-96 | follows `AcquireSpec`, including the immediate first queue step, which grants nobody; an admission keeps the quota and the queue |
| RateLimiting.RateLimiter.UpdateConfig | src/notion/utils/rate-limiter.ts:101-105 | follows `UpdateConfigSpec`; ledger and queue unchanged |
| Api.FirstSuccess | src/notion/utils/api-client.ts:59-124 | the first successful attempt in range, with all earlier ones failed, or none at all |
| Api.Expected | src/notion/utils/api-client.ts:44-162 | at most `maxRetries + 1` attempts; success exactly when some attempt in budget succeeds, carrying the first success's body; on failure every attempt ran and the code is `request_failed` |
| Api.PresentParams | src/notion/utils/api-client.ts:66-72 | a key and value reach the URL exactly when the query holds that key with a present value |
| Api.PresentParamsAppend | src/notion/utils/api-client.ts:68-72 | filtering parameters distributes over concatenation |
| Api.TraceCounts | src/notion/utils/api-client.ts:59-97 | a request of n attempts sends exactly n times and acquires the limiter exactly n times |
| Api.AttemptEventCounts | src/notion/utils/api-client.ts:62-97 | each attempt sends once and acquires once |
| Api.AcquireBeforeEverySend | src/notion/utils/api-client.ts:62-97 | every send is immediately preceded by an acquire of the limiter |
| Api.NoBackoffAfterFinalAttempt | src/notion/utils/api-client.ts:141-149 | the last allowed attempt is not followed by a backoff |
| Api.BackoffGrowth | src/notion/utils/api-client.ts:143-146 | the first backoff base is `retryDelay`, and each later one doubles the previous |
| Api.BackoffBounded | src/notion/utils/api-client.ts:143-146 | the backoff base after failure k lies in `[0, retryDelay * 2^k]` |
| Api.SuccessEndsRetries | src/notion/utils/api-client.ts:59-124 | a successful attempt within budget makes the request succeed, no later than that attempt |
| Api.FailuresWithoutStatus | src/notion/utils/api-client.ts:101-117 | an unparseable body fails with the parse error and no status, as does an error status with a `null` body |
| Api.HttpErrorCarriesStatus | src/notion/utils/api-client.ts:112-117 | a non-2xx response with a non-null body fails with its status and the message `API Error: <status> <detail>`, where the status reads back from its decimal text and the detail is the rendered `message` field when truthy, `statusText` otherwise |
| Api.HttpErrorMessageParts | src/notion/utils/api-client.ts:113-115 | the error message is `API Error: `, the status's decimal text, a space, then the `message` field when truthy or else the status text |
| Api.MessageField | src/notion/utils/api-client.ts:114 | `responseData.message` is used exactly when the body is an object with a truthy `message`; a string message is kept verbatim |
| Api.AttemptResult | src/notion/utils/api-client.ts:101-117 | an attempt succeeds exactly on a 2xx response, with its body; a failure carries a status exactly when the response parsed to a non-null body, and a parse or transport error keeps its message |
| Api.Exhausted | src/notion/utils/api-client.ts:153-161 | the final failure has code `request_failed`, the last error's status, and its message when non-empty, otherwise the default message |
| Api.FailureReportsLastError | src/notion/utils/api-client.ts:125-161 | a failed request reports the status and message of its last attempt's error (the default message when that is empty); with no attempt it is the default failure without status |
| Api.TraceExtends | src/notion/utils/api-client.ts:59-149 | each attempt appends an acquire and a send, then a backoff exactly when it failed with a retry still to come |
| Api.ExpectedOnSuccess | src/notion/utils/api-client.ts:120-124 | when attempt k succeeds after k failures, the request returns its body after k + 1 sends |
| Api.ExpectedOnExhaustion | src/notion/utils/api-client.ts:153-161 | when every attempt in budget fails, the request sends the whole budget and folds the last error |
| Api.FirstSuccessIsFirst | src/notion/utils/api-client.ts:59-124 | an attempt that succeeds after only failures is the first success |
| Api.NoSuccessWithinBudget | src/notion/utils/api-client.ts:59-151 | with every attempt in budget failing there is no first success |
| Api.NegativeRetriesNeverSend | src/notion/utils/api-client.ts:153-161 | with negative `maxRetries`, nothing is sent and the failure is the default message without status |
| Api.AlwaysServerError | src/notion/utils/api-client.ts:112-161 | a server always answering 500 is tried `maxRetries + 1` times, and the failure carries status 500 and the last message |
| Api.SucceedsOnThirdAttempt | src/notion/utils/api-client.ts:52-124 | with two transport failures then a 200, the default budget succeeds on the third attempt with that body |
| Api.ApiClient.constructor | src/notion/utils/api-client.ts:31-39 | keeps base URL and headers; the timeout defaults to 30000 |
| Api.ApiClient.BuildUrl | src/notion/utils/api-client.ts:64-74 | the loop builds `UrlFor`: the `?` part only when the query has keys, holding its present parameters in order |
| Api.ApiClient.Request | src/notion/utils/api-client.ts:44-162 | the response and the number of sends are `Expected`, and the trace of acquires, sends and backoffs is `TraceOf` |
| Notion.FeatureFlag | src/notion/client.ts:54-56 | a feature is available exactly when its flag is set and true |
| Notion.DefaultFeatureFlags | src/notion/client.ts:43-46 | CSV import, CSV export and recurring tasks are on; workflows and every unknown feature are off |
| Notion.PaginationRoundTrip | src/notion/client.ts:90-92 | reading the pagination query back gives the cursor and the page size exactly when they were truthy, after an unchanged prefix |
| Notion.CursorReadBack | src/notion/client.ts:91 | the cursor reads back exactly when it was non-empty |
| Notion.PageSizeReadBack | src/notion/client.ts:92 | the page size reads back, parsed from its decimal text, exactly when it was non-zero |
| Notion.AppendBlockChildren | src/notion/client.ts:59-74 | `PATCH /blocks/{id}/children` with an object body |
| Notion.AppendBlockChildrenBody | src/notion/client.ts:64-65 | the body's keys are `children`, then `after` exactly when it is non-empty; each reads back its argument, and no other key is present |
| Notion.RetrieveBlockChildren | src/notion/client.ts:85-101 | `GET /blocks/{id}/children` with the pagination query |
| Notion.PlainReadsAreBodilessGets | src/notion/client.ts:76-83 | the five plain reads are body-less `GET`s of their resource path |
| Notion.FixedBodyWrites | src/notion/client.ts:103-143 | block update sends the properties as the body, page update wraps them in `properties`, deletion sends no body |
| Notion.ListAllUsers | src/notion/client.ts:146-161 | `GET /users` with the pagination query |
| Notion.QueryDatabase | src/notion/client.ts:196-216 | `POST /databases/{id}/query` whose body is the object of the truthy optional fields (`QueryDatabaseFields`) |
| Notion.QueryDatabaseBody | src/notion/client.ts:203-207 | the query body holds each optional field exactly when its argument is truthy, with that value, and no other field |
| Notion.UpdateDatabase | src/notion/client.ts:227-245 | `PATCH /databases/{id}` with an object body |
| Notion.UpdateDatabaseBody | src/notion/client.ts:233-236 | the update body holds title, description and properties exactly when truthy, with those values, and no other field |
| Notion.CreateDatabaseItem | src/notion/client.ts:247-261 | `POST /pages` with exactly `parent: {database_id}` and `properties` |
| Notion.CreateComment | src/notion/client.ts:264-280 | `POST /comments` with an object body |
| Notion.CreateCommentBody | src/notion/client.ts:269-271 | the comment body always holds `rich_text`, holds `parent` and `discussion_id` exactly when truthy, and holds no other field |
| Notion.RetrieveComments | src/notion/client.ts:282-301 | `GET /comments`; the query starts with `block_id`, then the pagination |
| Notion.Search | src/notion/client.ts:304-325 | `POST /search` whose body is the object of the truthy optional fields (`SearchFields`) |
| Notion.SearchBody | src/notion/client.ts:311-316 | the search body holds each optional field exactly when its argument is truthy, with that value, and no other field |
| Notion.Split | src/notion/client.ts:377 | `split` yields one more part than there are separators, and no part contains the separator |
| Notion.SplitJoin | src/notion/client.ts:377 | joining the parts with the separator gives back the text |
| Notion.RowCountIsLineBreaks | src/notion/client.ts:377-379 | the rows after the header number exactly the line breaks, and there are none exactly when the text has no line break |
| Notion.NotionClientWrapper.constructor | src/notion/client.ts:31-47 | base URL `https://api.notion.com/v1`, bearer-token headers with Notion-Version 2022-06-28, the default timeout, and the four feature flags |
| Notion.NotionClientWrapper.Dispatch | src/notion/client.ts:67-73 | returns the data of a successful request and nothing otherwise; data is present exactly when some attempt within budget succeeds |
| Notion.NotionClientWrapper.CreateWorkflow | src/notion/client.ts:328-356 | refused with status 400 `feature_not_available` while workflows are off, without sending anything |
| Notion.NotionClientWrapper.ImportFromCsv | src/notion/client.ts:358-399 | refused while CSV import is off; otherwise total and imported rows both equal the number of line breaks, with no errors |
| Notion.NotionClientWrapper.ExportToCsvRequest | src/notion/client.ts:411-430 | refused while CSV export is off; otherwise queries the database with the filter and a page size of 100 |
| Notion.NotionClientWrapper.RecurringTaskRequest | src/notion/client.ts:468-510 | refused while recurring tasks are off; otherwise exactly the `POST /pages` database-item creation under `parent: {database_id}`, whose properties are the given task properties with `Recurrence` set to `<frequency> (every <interval>)` |

## Left out

- Timers and promises. The self-rescheduling `setTimeout(processQueue, 50)` is a step the environment calls (`ProcessQueue(now)`), and its outcome says whether the source would schedule another. A promise's resolution is the `Served` outcome. The interleaving of concurrent call chains is any sequence of operations (`Run`), not real concurrency.
- Singletons (`getInstance`, the exported `rateLimiter` and `logger`). These are module-level wiring, so they are not modelled.
- The backoff sleep and its jitter `0.5 + Math.random() * 0.5`: they use randomness and floating point. Only the base delay `retryDelay * 2^(k-1)` is modelled, recorded in the trace.
- `fetch`, `AbortSignal.timeout` and `response.json()`. These are the network, so they are the `transport` parameter. A timeout is one kind of transport failure.
- Serialisation: `JSON.stringify` of the body, percent-encoding by `URLSearchParams`, and fractional numbers. Numbers are integers and the URL keeps its parameters as pairs.
- Json.DecimalRoundTrip: numbers are exact integers. JavaScript numbers are doubles, so integers of 2^53 and more in magnitude are not all exact, and from 1e21 on `toString()` switches to exponent form. The round trip is claimed only for safe integers, which the page sizes and statuses used here are.
- Json.Put: JavaScript enumerates array-index-like keys (`"0"`, `"42"`) first, in numeric order, before the other keys in insertion order. The model keeps pure insertion order, which matches for the fixed, non-numeric keys the client writes.
- RateLimiting.WindowBoundAlongRun: the bound on the grants in every window assumes a clock that never goes back (`ClockRuns`) and no `updateConfig` during the run. Runs outside those two assumptions are not covered by the proof.
- Log output of the limiter, the executor and the client: the debug/warn/info calls inside those operations are not part of their traces. Log records carry no timestamp and no JSON formatting.
- Notion.NotionClientWrapper.CreateWorkflow: the simulated payload (`workflow_id` from the clock, trigger, actions) is reduced to the title.
- Notion.NotionClientWrapper.ImportFromCsv: the `csv_parse_error` path is not modelled. It cannot be reached for a string argument. `database_id` and `column_mappings` are unused by the source.
- Notion.NotionClientWrapper.ExportToCsvRequest: only the gate and the query sent are modelled, not the simulated export summary or the `export_error` path. Both depend on the response payload.
- Notion.NotionClientWrapper.RecurringTaskRequest: only the gate and the item created are modelled, not the reply. Its `next_occurrence` comes from `calculateNextOccurrence`, which reads the clock and calendar. When the request fails, reading `.id` of the absent data raises an engine-worded `task_creation_error`.
- The per-operation wrapper methods of `NotionClientWrapper` are each a request builder (a function) composed with `Dispatch`. The composition is not written out once per operation.
- The tool definitions, schemas, MCP server, type declarations and start-up (`tools.ts`, `schemas.ts`, `server.ts`, `types.ts`, `index.ts`) are not part of this model.

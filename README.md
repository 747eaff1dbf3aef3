# crdb-authzed-load-test, modelled in Dafny

This project models the core of a load generator for an AuthZed (SpiceDB)
authorization service and proves properties of the model. The generator runs
for a fixed time. One write worker mints relationship tuples
(`user:<name>` has `editor`/`viewer`/`admin` on `document:doc_<uuid>`) and
writes each one through the service client. On success it pushes `ReadRatio`
copies of the tuple into a buffered channel of capacity 10000. `ReadRatio`
read workers drain the channel. Each checks a random permission
(`view`/`edit`/`remove`) for the dequeued tuple and counts the result as
allowed, denied or failed. Six counters record the outcomes. In dry-run mode
the service is never contacted.

The project has five files:

- `generator.dfy`: module `Generator`. The workload engine is the class
  `Workload`. It holds the channel as a `seq`, the six counters as fields and
  two ghost histories: the successful writes and the dequeued tasks. Each
  worker-loop iteration is an atomic method (`WriteStep`, `ReadStep`). Both
  preserve the invariant `Valid()`, so it holds after any interleaving of
  steps. `Valid()` packs six facts:
  - the channel holds at most 10000 tasks;
  - dequeued tasks followed by the channel equal `ReadRatio` copies of each
    written tuple, in write order;
  - `writeCount` and `readCount` equal the lengths of the two histories;
  - every written tuple has object type `document`, subject type `user`, an
    object ID starting `doc_` and a relation in {editor, viewer, admin};
  - allowed + denied + failed reads equals reads;
  - dry-run mode leaves the histories, the channel and `failedWrites` empty
    or zero.
- `authzed.dfy`: module `Authzed`, the service client. It builds the check
  and write request records. `CheckPermission` is a retry loop of at most
  three attempts, proved against the specification functions `AttemptsUsed`
  and `CheckOutcome`. `WriteTuple` makes a single attempt.
- `cmd.dfy`: module `Cmd`. It covers the command-line overrides of the loaded
  settings, the preflight check and the decision to start the workload.
- `config.dfy`: module `Config`, the configuration record.
- `wrappers.dfy`: module `Wrappers`, `Option`.

The environment is modelled as inputs:
- HTTP calls are inputs. An attempt is a transport error or a response with a
  status and a decoded body.
- Request marshalling and building are an input `Setup`.
- The fake-data generator is four draws. The write step takes three: the
  subject name, the relation and the uuid. The read step takes one: the
  permission, drawn from view, edit and remove. Each is constrained to the
  source's enumerations and prefix.

The model follows the code as written. These points are easy to misread:
- A read worker in dry-run mode that dequeued a task would count it as denied
  and bump `readCount` (`allowed = false`, `err = nil`,
  cmd/generator/generator.go:95-103). It would not leave the read counters
  alone. In the code this case cannot happen: the dry-run writer never
  enqueues, so the channel stays empty. `Valid()` and `DryRunIsSilent` prove
  that.
- `WriteTuple` does not retry. `CheckPermission` retries any response other
  than status 200, including other 2xx statuses.
- The write worker enqueues the copies first and only then bumps `writeCount`.
- A full channel blocks the send. Nothing bounds the wait.

## Model

| member | source | states |
|---|---|---|
| `Authzed.NewCheckRequest` | internal/authzed/http_client.go:69-85 | the check body names the resource (objectType, objectID), the subject object (subjectType, subjectID) and the permission as given, and is fully consistent without minimised latency |
| `Authzed.NewWriteRequest` | internal/authzed/http_client.go:138-157 | the write body holds exactly one update, an `OPERATION_TOUCH` of the given resource, relation and subject |
| `Authzed.CheckTargetsWrittenRelationship` | internal/authzed/http_client.go:74-83 | the check built for a tuple names the same resource and subject as the write built for it |
| `Authzed.GetStatus` | internal/authzed/http_client.go:189-194 | 0 for a missing response, the status code otherwise |
| `Authzed.SucceededIffStatus200` | internal/authzed/http_client.go:107 | an attempt ends the retry loop iff it has a response whose status is 200 |
| `Authzed.AttemptsUsed` | internal/authzed/http_client.go:105-109 | the loop uses between 1 and the available attempts; every attempt before the last used one failed; fewer than all are used only when the last used one succeeded |
| `Authzed.AttemptsUsedUnique` | internal/authzed/http_client.go:105-109 | those three facts determine the number of attempts uniquely |
| `Authzed.FinalDecision` | internal/authzed/http_client.go:116-134 | the last attempt decides, in order: transport error, status other than 200, decode failure; no error iff status 200 with a decoded body; allowed iff that body's permissionship is `PERMISSIONSHIP_HAS_PERMISSION`; an error never comes with allowed |
| `Authzed.CheckOutcome` | internal/authzed/http_client.go:90-134 | a marshal or request-build failure is an error before any attempt; every error return has allowed = false |
| `Authzed.CheckAllowedIff` | internal/authzed/http_client.go:105-134 | permission is granted iff the request was built and some attempt, with no earlier successful attempt, returned 200 with `PERMISSIONSHIP_HAS_PERMISSION` (both directions) |
| `Authzed.AllAttemptsFailedIsError` | internal/authzed/http_client.go:105-126 | when all three attempts fail the check returns an error and not allowed |
| `Authzed.CheckPermission` | internal/authzed/http_client.go:68-135 | the loop's reply equals `CheckOutcome`; it makes at most 3 attempts and none when setup failed; it stops at the first success; it logs one retry notice (with `GetStatus` of that attempt) and pauses once per failed attempt except the third, so at most 2 pauses; it posts the check body to API + `/v1/permissions/check` |
| `Authzed.WriteTuple` | internal/authzed/http_client.go:137-187 | a single attempt: success iff the request was built and the response has status < 300; a transport error or status ≥ 300 is an error; posts the touch body to API + `/v1/relationships/write` |
| `Authzed.WriteAcceptsMoreThanCheck` | internal/authzed/http_client.go:180-183 | every response that ends the check's retry loop is a successful write, and a 204 is a successful write that the check would retry |
| `Generator.WorkerCounts` | cmd/generator/generator.go:34-36 | one writer and `ReadRatio` readers, total 1 + `ReadRatio`; read goroutines are started iff `ReadRatio` > 0 |
| `Generator.Fanout` | cmd/generator/generator.go:65 | the `for j < ReadRatio` loop pushes `ReadRatio` copies when positive and none otherwise |
| `Generator.NoReadersWithoutRatio` | cmd/generator/generator.go:76 | with `ReadRatio` <= 0 no reader is started and a successful write enqueues nothing |
| `Generator.Repeat` | cmd/generator/generator.go:65-67 | the fan-out is exactly n copies of the same tuple |
| `Generator.ExpandLength` | cmd/generator/generator.go:63-69 | the tasks produced by w successful writes number w × fan-out |
| `Generator.ExpandElements` | cmd/generator/generator.go:65-66 | every produced task is a tuple that was written (nothing fabricated) |
| `Generator.Classify` | cmd/generator/generator.go:85-102 | allowed counts a grant, denied counts a refusal without error, failed counts an error; when an error implies not allowed, exactly one moves |
| `Generator.ClientRepliesClassifyOnce` | cmd/generator/generator.go:88-102 | every reply the client can return moves exactly one of allowed, denied, failed |
| `Generator.ReadWriteRatio` | cmd/generator/generator.go:122-124 | the ratio is reported iff `writeCount` > 0, and then ratio × writes = reads |
| `Generator.Workload.constructor` | cmd/generator/generator.go:39-41 | a run starts with an empty channel and all six counters at 0 |
| `Generator.Workload.WriteStep` | cmd/generator/generator.go:51-71 | dry run: nothing changes. Failed write: only `failedWrites` grows, by 1. Successful write: the channel grows by exactly `ReadRatio` copies of the minted tuple, in order, and `writeCount` by 1. The read counters stay unchanged. The request posted is the touch of that same tuple to API + `/v1/relationships/write` when it was built, and none in dry run (no client call). The invariant is kept |
| `Generator.Workload.ReadStep` | cmd/generator/generator.go:80-106 | empty channel: nothing changes (idle). Otherwise: exactly the head is removed (FIFO) and recorded as dequeued, `readCount` grows by 1, and allowed/denied/failed grow by the classification of the client's reply (of `(false, nil)` in dry run). Write counters stay unchanged. The request posted is the check of the head task's object and subject for the drawn permission to API + `/v1/permissions/check` when it was built, and none when idle or in dry run (no client call). The invariant is kept |
| `Generator.Conservation` | cmd/generator/generator.go:63-82 | between steps, channel length + reads = writes × fan-out, so reads never exceed tasks produced |
| `Generator.QueueWellFormed` | cmd/generator/generator.go:53-66 | every queued task was written and has object type `document`, subject type `user`, an object ID starting `doc_` and a relation in {editor, viewer, admin} |
| `Generator.ReadsPartitioned` | cmd/generator/generator.go:90-103 | allowed + denied + failed reads = reads, each bounded by reads |
| `Generator.DryRunIsSilent` | cmd/generator/generator.go:58-70 | in dry-run mode the channel stays empty and all six counters stay 0 |
| `Cmd.ApplyOverrides` | cmd/main.go:60-65 | each flag replaces its field only when > 0, otherwise the loaded value is kept; the connection settings are untouched |
| `Cmd.OverridesIdempotent` | cmd/main.go:60-65 | applying the same flags twice equals applying them once |
| `Cmd.ReadRatioFlagCannotDisableReads` | cmd/main.go:63-65 | the effective ratio is positive iff the flag or the file gives a positive one, so a 0 flag never forces write-only mode |
| `Cmd.Preflight` | cmd/main.go:97-111 | a missing endpoint is reported before a missing key; the health URL API + `/healthz` is probed iff both are present; it passes iff the status is exactly 200; a failed probe reports the status when there is a response |
| `Cmd.CredentialsCheckedBeforeProbe` | cmd/main.go:98-106 | with the endpoint or key missing, the verdict does not depend on the health probe, which is not sent |
| `Cmd.PreflightAsWritten` | cmd/main.go:97-122 | as the source formats its failure message: with an endpoint and a key present, a transport error on the probe is the nil-dereference panic at API + `/healthz`; on every other input it agrees with `Preflight`, so a missing endpoint is still reported before a missing key and both before any probe |
| `Cmd.PreflightAsWrittenPanicsOnTransportError` | cmd/main.go:110-120 | a concrete endpoint and key for which the as-written preflight panics where the corrected one reports the API unreachable |
| `Cmd.PreflightAsWrittenPassesIffPreflight` | cmd/main.go:97-122 | the as-written preflight passes exactly when the corrected one does, and the two verdicts differ exactly when both credentials are present and the probe is a transport error |
| `Cmd.LaunchWorkload` | cmd/main.go:60-87 | the overrides are applied; dry run always starts, without preflight; a live run starts iff the preflight passes, otherwise it ends with the as-written preflight's verdict, which is the nil-dereference panic on a health transport error with endpoint and key present; the workload gets the overridden settings |
| `Cmd.LiveRunNeedsCredentialsAndHealth` | cmd/main.go:83-85 | a started live run implies an endpoint and a key were present and the health probe returned 200 |

## Left out

- Goroutines, `sync.WaitGroup`, the wall-clock deadline and the sleeps (5 ms idle, 1000 ms between retries): steps are atomic and may come in any order, and the deadline is "no more steps". Retry pauses are counted, not timed. The source's unsynchronised `int64` increments are a data race that a sequential model does not reproduce.
- Counter width: the six counters are unbounded naturals; `int64` overflow is not modelled.
- Generator.Workload.WriteStep: a live successful write step is taken only when the channel has room for all `ReadRatio` copies (the blocking send is not modelled). With more than 10000 free tasks needed at once the model never takes that step, where the source would interleave its blocked pushes with reads.
- The request body is consumed by the first attempt and reused by the retries; without the HTTP library this cannot be modelled. Each attempt's outcome is an input.
- HTTP transport, headers (`Content-Type`, the bearer key), reading and closing bodies, and JSON encoding and decoding: the requests are records, and marshalling/request building and decoding are abstract outcomes. `client.Do` never returns neither a response nor an error (a net/http guarantee), so the model leaves out the `resp == nil` guard's separate case.
- Dereferencing a nil API endpoint or key inside the client: a live run reaches the client only after the preflight found both present, and a dry run never calls it; `Workload` takes the endpoint as a string.
- A response delivered together with an error (net/http does this when the redirect policy fails): `Attempt` and `Health` have no such case. There the retry notice would print that response's status rather than 0, and the preflight message would read the status without panicking.
- `gofakeit` (seeded with 0) and `uuid`: their draws are step parameters, required to lie in the source's relation and permission sets; the object ID is `doc_` + the drawn uuid.
- Prometheus counters, all logging and printing, and the summary banner; checks/sec is a float over the duration and is not modelled. Of the summary, only the guarded read/write ratio is, as an exact `real`.
- `LoadConfig` (file read and YAML decoding), flag parsing, the usage text and the exit when no arguments are given, log-file setup, the 3-second health-client timeout, and the `select {}` wait for metrics scraping.

## Findings

| source | as written | input that shows it | evidently intended | confidence | as-written member | corrected member |
|---|---|---|---|---|---|---|
| cmd/main.go:110-120 | when the health GET fails with an error, the arguments of the fatal log message include `resp.StatusCode`, and `resp` is nil when the error comes without a response (any transport error other than a failed redirect policy), so the process panics with a nil-pointer dereference instead of printing the diagnostic | endpoint `http://localhost:8443` and a key set, health GET returns a transport error (`PreflightAsWrittenPanicsOnTransportError`) | report "Unable to reach AuthZed API" with the error and no status | high, not executed | `Cmd.PreflightAsWritten` | `Cmd.Preflight` |

# Job lifecycle of the plexify job server, in Dafny

The plexify server accepts jobs over HTTP, gives each one an id from an atomic
counter, records its status in a registry (`pending`, `processing`, `completed`,
`failed`), buffers it in a job channel of capacity 100, and lets a pool of worker
goroutines take jobs from the channel, run a `JobProcessor` on them, and record the
result. Callers poll the status by id. The same lifecycle is written twice: with
package globals in `cmd/server/server.go`, where shutdown closes the channel, and as
the fields of `StringJobProcessor` in `services/server/pkg/worker/worker.go`, where
shutdown cancels the context that the workers `select` on.

The project has these modules:

- `Int32` (jobs.dfy): the wrap-around of `atomic.AddInt32`.
- `Jobs` (jobs.dfy): jobs, statuses, requests, outcomes, and the forward order on statuses.
- `Lifecycle` (lifecycle.dfy): the state both variants keep, as a value `State(counter, statuses, queue)`.
  It holds the invariant they keep, the atomic steps (submit, start, finish), runs of steps,
  draining the queue, and the lemmas about them.
- `Server` (server.dfy): class `JobServer`, the globals of `cmd/server/server.go`, plus a `closed` flag.
- `Worker` (worker.dfy): class `StringJobProcessor` of `worker.go`, plus a `cancelled` flag.

Each goroutine action is one atomic method.
- A channel send that would block (full buffer) is a precondition.
- So is a receive that would block (open, empty channel), and so are a send on a
  closed channel and a second `close` (both panic).
- The branch a `select` takes is a parameter. It must be a ready branch, and when
  both branches are ready either may be taken.
- The result of `Process` is a parameter of `Finish`. The loop methods use the real
  `Process`, which always returns nil.

Every mutating method keeps `Valid()`, that is `Lifecycle.Inv`:
- the counter is a non-negative int32;
- the registry holds exactly the ids `1..counter`;
- the queue is within capacity and strictly increasing by id;
- the pending jobs are exactly the queued ones.

Each mutating method states its new state as a `Lifecycle` step of the old one, and
that no status moved backwards (`Lifecycle.Advanced`). The lemmas of `Lifecycle` give
those steps their meaning.

Where the design intent and the code differ, the model follows the code, with one
exception: id allocation. The handlers let the int32 counter wrap at 2147483647
(cmd/server/server.go:95, services/server/pkg/worker/worker.go:66). The model's
`Lifecycle.Submit`, and hence both `CreateJob` methods, refuse with `IdsExhausted` there
instead (see "## Findings"). Below that value `Lifecycle.SubmitAgreesBelowTop` proves the
model's submission is the handlers' own. Elsewhere:
- The code does not drain before stopping. In `worker.go` a worker may take the cancel
  case while jobs are still buffered, and those jobs stay `pending`.
- `cmd/server/server.go` returns from `main` without waiting for its workers.
  Process exit is not modelled.

## Model

| member | source | states |
|---|---|---|
| `Int32.AddInt32` | cmd/server/server.go:95 | the stored counter is the int32 sum: equal to the true sum when that fits, and the sum minus or plus 2^32 when it overflows or underflows |
| `Lifecycle.Submit` | cmd/server/server.go:80-99 | the corrected submission: checks the method, then the body, and refuses with `IdsExhausted` when the counter is at 2147483647 where the handler wraps; its meaning is proved in `SubmitSpec`, `SubmitKeepsInv` and `SubmitAtLimitRejects` |
| `Lifecycle.SubmitAsWritten` | cmd/server/server.go:80-99 | the submission exactly as written, with the counter advanced by `AddInt32`; `SubmitAgreesBelowTop` and `AsWrittenIdWraps` state how it behaves below and at the top of the id range |
| `Lifecycle.SubmitAgreesBelowTop` | cmd/server/server.go:95 | for every counter in 0..2147483646, the wrapping submission and the corrected one give the same state and the same outcome |
| `Lifecycle.SubmitSpec` | cmd/server/server.go:80-99 | a submission is accepted exactly when it is a POST with a decodable body and ids remain; a rejected one changes nothing; an accepted one gets id `counter+1`, which is fresh and larger than every existing id, and that id becomes `pending` and comes last in the queue while no other entry changes |
| `Lifecycle.SubmitKeepsInv` | cmd/server/server.go:95-99 | a submission that does not block keeps the invariant and moves no status backwards |
| `Lifecycle.SubmitAtLimitRejects` | cmd/server/server.go:95 | with the counter at 2147483647, a valid submission is refused with `IdsExhausted`, and the state stays unchanged and valid |
| `Lifecycle.Start` | cmd/server/server.go:134-136 | one receive plus the "processing" store; `StartSpec` and `StartKeepsInv` state that it returns the head, keeps FIFO order and changes only the head's entry |
| `Lifecycle.StartSpec` | cmd/server/server.go:134-136 | a receive returns exactly the queue head; the head was `pending` and is now `processing`; the rest of the queue stays in order and no other entry changes |
| `Lifecycle.StartKeepsInv` | cmd/server/server.go:134-136 | a receive keeps the invariant and moves no status backwards |
| `Lifecycle.Finish` | cmd/server/server.go:138-145 | the store after `Process` returns; `FinishSpec` and `FinishKeepsInv` state that an error gives `failed`, nil gives `completed`, and nothing else changes |
| `Lifecycle.FinishSpec` | cmd/server/server.go:138-145 | finishing a `processing` job stores `failed` for an error and `completed` for nil; the queue, the counter and every other entry stay as they were |
| `Lifecycle.FinishKeepsInv` | cmd/server/server.go:138-145 | finishing keeps the invariant and moves no status backwards |
| `Lifecycle.StepKeepsInv` | cmd/server/server.go:95-145 | every step that can be taken keeps the invariant, moves no status backwards and never lowers the counter |
| `Lifecycle.Run` | cmd/server/server.go:95-145 | every interleaving of submit, receive and finish steps, one at a time, where a step that would block or is not enabled yields none; `RunKeepsInv`, `PollingIsMonotone` and `SuccessiveIdsIncrease` state what holds over every run |
| `Lifecycle.RunKeepsInv` | cmd/server/server.go:95-145 | the same holds for every sequence of steps |
| `Lifecycle.PollingIsMonotone` | cmd/server/server.go:119-127 | once an id is found, it is found again after any run, with the same status or a later one (polling never sees `pending` after `processing`) |
| `Lifecycle.SuccessiveIdsIncrease` | cmd/server/server.go:95 | of two accepted submissions with any steps between them, the later gets the larger id |
| `Lifecycle.AcceptedIdStaysFound` | cmd/server/server.go:95-98 | once a submission is accepted, a lookup of its id never answers not-found again |
| `Lifecycle.Lookup` | cmd/server/server.go:119-127 | the registry load of the status handler: the stored status or not found; `LookupSpec` states that exactly the issued ids are found |
| `Lifecycle.LookupSpec` | cmd/server/server.go:119-127 | a lookup finds exactly the issued ids `1..counter`; an id never issued is not found |
| `Lifecycle.Drain` | cmd/server/server.go:134-146 | handling the first k queued jobs leaves the counter alone and removes exactly those k jobs from the head of the queue |
| `Lifecycle.DrainSpec` | cmd/server/server.go:131-147 | handling the first k queued jobs with a processor that always succeeds keeps the invariant; it marks exactly those k jobs `completed`, leaves the jobs still queued `pending`, and keeps every other entry |
| `Lifecycle.CyclesReach` | cmd/server/server.go:95-145 | from a registry of k completed jobs, n rounds of submit, receive and finish reach a registry of k+n completed jobs, for any k+n up to 2147483647 |
| `Lifecycle.AsWrittenIdWraps` | cmd/server/server.go:95 | from the empty state, 2147483647 rounds lead to a state where the next submission, with the wrapping counter, gets id -2147483648 and the invariant is broken |
| `Lifecycle.CorrectedIdNeverWraps` | cmd/server/server.go:95 | from that same state the corrected submission refuses with `IdsExhausted`, and the invariant holds |
| `Server.Process` | cmd/server/server.go:34-38 | `StringJobProcessor.Process` returns nil; with it `Server.JobServer.Worker` ends every job `completed` |
| `Server.JobServer.constructor` | cmd/server/server.go:40-49 | the counter is zero, the registry and the queue are empty, the capacity is 100, the channel is open, and the invariant holds |
| `Server.JobServer.CreateJob` | cmd/server/server.go:80-104 | an accepted submission is not allowed on a closed channel (the send panics), nor when it would find the buffer full, while refused requests are answered before and after close; the new state and the outcome are those of `Lifecycle.Submit`; the invariant holds and no status moves backwards |
| `Server.JobServer.JobStatus` | cmd/server/server.go:107-128 | reads only; returns the stored status of the id, and finds the id exactly when it is in `1..counter` |
| `Server.JobServer.Receive` | cmd/server/server.go:134-136 | blocks (not allowed) on an open, empty channel; otherwise returns the head and marks it `processing`, or returns none when the channel is closed and empty |
| `Server.JobServer.Finish` | cmd/server/server.go:138-145 | only for a `processing` job; the new state is `Lifecycle.Finish` with the given outcome; the invariant holds |
| `Server.JobServer.Close` | cmd/server/server.go:67 | closes the channel once, and changes nothing else |
| `Server.JobServer.Worker` | cmd/server/server.go:131-147 | after close, one worker running alone empties the queue in FIFO order; every job that was queued ends `completed`, because `Process` returns nil (server.go:34-38); every other entry stays as it was |
| `Worker.StringJobProcessor.Process` | services/server/pkg/worker/worker.go:44-48 | `Process` returns nil; with it `Worker.StringJobProcessor.Worker` ends every job it takes `completed` |
| `Worker.StringJobProcessor.constructor` | services/server/main.go:24-28 | zero counter, empty registry and queue, capacity 100, not cancelled, the invariant holds |
| `Worker.StringJobProcessor.CreateJob` | services/server/pkg/worker/worker.go:51-75 | not allowed when an accepted job would find the buffer full; the new state and the outcome are those of `Lifecycle.Submit`; the invariant holds and no status moves backwards |
| `Worker.StringJobProcessor.JobStatus` | services/server/pkg/worker/worker.go:78-99 | reads only; returns the stored status of the id, and finds the id exactly when it is in `1..counter` |
| `Worker.StringJobProcessor.Cancel` | services/server/main.go:63 | marks the context cancelled and changes nothing else |
| `Worker.StringJobProcessor.Select` | services/server/pkg/worker/worker.go:105-109 | the job case takes the head and marks it `processing`; the cancel case changes nothing; only a ready case may be taken |
| `Worker.StringJobProcessor.Finish` | services/server/pkg/worker/worker.go:110-116 | only for a `processing` job; the new state is `Lifecycle.Finish` with the given outcome; the invariant holds |
| `Worker.StringJobProcessor.Worker` | services/server/pkg/worker/worker.go:102-123 | after cancellation, a worker running alone takes any number of head jobs up to all of them, not necessarily all, and then returns on the cancel case; the jobs it took end `completed` (Process returns nil, worker.go:44-48); the jobs left in the queue stay `pending`; every other entry is unchanged |

## Left out

- HTTP mechanics are not modelled: status codes, JSON decoding and encoding, response writing.
  A request is reduced to POST or not, and a body that decodes to a `payload` string or not.
  A missing or empty `payload` decodes and is accepted, as in the code.
- The GET check and the `fmt.Sscanf` path parsing of the status handlers are not modelled,
  because the library's acceptance rules are not visible. A query takes an already parsed id.
- True concurrency is not modelled: goroutines, blocking, `sync.Map`, `atomic`.
  In the code, id allocation, the `pending` store and the send are three separate effects
  that other requests can interleave with. Here a submission is one atomic step.
  So "queue order is id order" holds for the atomic model only.
- Timing and randomness are not modelled: `Process` sleeps a random 5 to 30 seconds.
  Only its `error` result is kept.
- Signal handling, the `sync.WaitGroup` join and the server start are not modelled
  (services/server/main.go, and `main` in server.go). They form the lifecycle wiring of the runtime.
  Their only modelled effects are the `closed` and `cancelled` flags, the capacity 100,
  and the zero initial state.
- Closing and cancelling are not steps of `Lifecycle.Run`, because they touch neither the
  registry nor the queue. Run therefore covers every interleaving of the registry and queue
  steps without the flags.
- The two `Worker` loop methods cover only a worker running alone after close or cancellation.
  Before that, a worker's loop is the interleaving of the `Receive`/`Select` and `Finish` steps.
  The liveness claim that every job eventually ends terminal is covered only by these solo runs.
- An unbuffered channel (capacity 0) is not modelled. Both variants use capacity 100.
- cmd/client/client.go is not part of this model: it is a load-testing client with no core logic.
  Also left out: the unused package globals at worker.go:15-19, the unused `JobStatus` structs,
  and all logging.
- Lifecycle.Submit: it refuses with `IdsExhausted` when the counter is at 2147483647, where the
  handlers wrap to -2147483648, and so do `Server.JobServer.CreateJob` and
  `Worker.StringJobProcessor.CreateJob`. This is the correction recorded under "## Findings".
  `Lifecycle.SubmitAsWritten` models the wrap.
- Server.JobServer.CreateJob: a valid submission after `close(jobQueue)` is excluded,
  because the send at server.go:99 panics. Before that panic the handler has already taken an id
  (line 95) and stored "pending" (line 98). The model does not capture those two effects.
- Lifecycle.SubmitAsWritten has no contract of its own. It has a precondition only, and
  `Lifecycle.AsWrittenIdWraps` states what it does at the top of the id space.

## Findings

| source | as written | input that shows it | evidently intended | confidence | as-written member | corrected member |
|---|---|---|---|---|---|---|
| cmd/server/server.go:95 | the id counter is an `int32` advanced with `atomic.AddInt32`, which wraps (the same at services/server/pkg/worker/worker.go:66) | 2147483648 accepted submissions: the last gets id -2147483648, which lies outside the issued range 1..counter and is below 1 | ids stay positive and unique; once the counter is exhausted, a submission is refused rather than given a wrapped id | not executed | `Lifecycle.AsWrittenIdWraps` | `Lifecycle.CorrectedIdNeverWraps` |

# Goods service: storage, cache, change-event relay and HTTP layer

This project is a Dafny model of the core of a Go goods service. The service keeps
goods in PostgreSQL, caches the goods list in Redis, records every mutation in
an outbox table, and relays change events over NATS to an analytical store.
The model covers these parts:

- **Storage** (`storage.dfy`, module `Storage`). The `goods` and `outbox` tables.
  - CreateGood, UpdateGood, DeleteGood, ReprioritizeGood and ListGoods.
  - Each transaction is a pure function of the state before it (`CreateRow`,
    `UpdateTx`, `DeleteTx`, `ReprioritizeTx`). The class `GoodStorage` updates
    its fields in place, and each of its methods is proved equal to its function.
  - The environment's answers are a `Faults` value: which statement fails, what
    it reports, and what the deferred rollback reports.
  - `StorageProperties` adds the outbox invariant over any run of calls and
    soft-delete monotonicity. It also proves two facts about the code as
    written: a missing row is reported as pgx.ErrNoRows, and the requested
    priority is never written.
- **Validators** (`validate.dfy`). The five checks, each as an if-and-only-if,
  with the first failing check's message.
- **Service** (`service.dfy`, class `Service.GoodsService`).
  - Each operation validates, calls storage, then deletes or sets the cached list.
  - Every method states its result, the new storage state and the new cache store.
    It also states the calls it appends to a ghost trace.
  - `Disciplined` is the invariant on that trace. The cache list is deleted only
    right after a committed mutation, and always after one. It is set only right
    after a successful list, with that list.
- **Cache** (`cache.dfy`, class `Cache.Cache`). The Redis goods list under one
  key with a one-minute TTL, and the conversion to and from the cached JSON shape.
- **NATS** (`nats.dfy`). The writer's `SendLog` and the reader's `FetchLogs`,
  with the acknowledgement closure as a value.
- **Syncer** (`syncer.dfy`). The nested read and write loops of `SyncLogs`,
  with their complete behaviour over any sequence of environment answers.
- **HTTP v1** (`http.dfy`). Error classification, URL parameter parsing, the
  response bodies, the five handlers and the routes registered.
- **End to end** (`endtoend.dfy`). Lemmas that follow a request from the handler
  through the service into storage and back.

These are modelled as follows:

- **Go errors** are a datatype of sentinels, leaves, `%w` wraps and `errors.Join`.
- **errors.Is** is the predicate `Domain.Is`.
- **`DriverError`** means an error wraps neither domain sentinel.
- **Int64 and Int32** are bounded subset types. `int32(x)` truncation is written
  out as arithmetic modulo 2^32.

Several behaviours of the code as written contradict what the code itself
sets up. The model follows the code and proves each one:

- `ReprioritizeGood` receives `NewPriority`, which the validator insists is at
  least 1 (validate.go:74-77), but its UPDATE binds the literal `true` to `$1`
  (postgres.go:174-179). The value written never depends on the request
  (`ReprioritizeIgnoresNewPriority`).
- `ListGoods` allocates `make([]domain.Good, listGoods.Limit)` (postgres.go:126)
  and counts every scanned row into `meta` (postgres.go:135-138), but never stores
  a scanned row. The page is `limit` zero goods next to the counts of the real rows
  (`Storage.GoodStorage.ListGoods`, `ListedPageRendersZeros`).
- The HTTP layer maps `domain.ErrGoodNotFound` to 404 (error.go:46-48), but no
  storage path produces it. A missing row comes back as the wrapped pgx.ErrNoRows
  from the existence check (postgres.go:45-51), so it answers 500
  (`MissingRowIsNotNotFound`, `MissingRowAnswersInternalError`).
- `FetchLogs` declares `var nlog nlog` and passes it to `json.Unmarshal` by value
  (reader.go:37-38). encoding/json rejects a non-pointer target, so every
  non-empty batch fails to decode (`NonPointerTargetRejectsEveryBatch`).
- The handlers read `id` and `projectId` with `chi.URLParam`
  (v1.go:266-296), but `Register` declares its patterns without placeholders
  (v1.go:210-217). Every handler then finds its parameters missing and answers
  400 (`RegisteredRoutesAnswerBadRequest`).
- The inner loop of `SyncLogs` (syncer.go:39-45) has no `break` or `return`. After
  the first successful read it writes the same batch on every turn, whether or not
  the write succeeds (`WritingForever`).

## Model

| member | source | states |
|---|---|---|
| Domain.ToInt32 | internal/good/controller/http/v1/v1.go:177-180 | `int32(x)` keeps an in-range value and otherwise agrees with x modulo 2^32 |
| Domain.WrapResult | internal/good/service/service.go:36-39 | wrapping with `%w` keeps success and keeps every errors.Is answer of the wrapped error |
| Domain.BadRequest | internal/good/service/validate.go:9-19 | a validation error wraps ErrBadRequest and not ErrGoodNotFound |
| Validate.ValidateCreateGood | internal/good/service/validate.go:9-19 | nil iff projectId >= 0 and name non-empty; otherwise the BadRequest of the first failing check |
| Validate.ValidateUpdateGood | internal/good/service/validate.go:21-39 | nil iff id, projectId >= 0 and name, description non-empty; otherwise the first failing check's BadRequest, in source order |
| Validate.ValidateDeleteGood | internal/good/service/validate.go:41-51 | nil iff id >= 0 and projectId >= 0; otherwise the first failing check's BadRequest |
| Validate.ValidateListGoods | internal/good/service/validate.go:53-63 | nil iff limit >= 0 and offset >= 0; otherwise the first failing check's BadRequest |
| Validate.ValidateReprioritizeGood | internal/good/service/validate.go:65-79 | nil iff id, projectId >= 0 and newPriority >= 1; otherwise the first failing check's BadRequest |
| Validate.PriorityOneAccepted | internal/good/service/validate.go:74-77 | the guard `NewPriority < 1` accepts 1 and rejects 0 |
| Storage.Aborted | internal/good/storage/good/postgres/postgres.go:36-44 | the error of an aborted transaction answers errors.Is exactly as the failing step's error or the rollback error does |
| Storage.FinishTx | internal/good/storage/good/postgres/postgres.go:60-71 | outbox insert and commit: success iff neither fails; on success one outbox row with a fresh token is appended and the change is kept; on failure both tables are as before the transaction |
| Storage.CreateRow | internal/good/storage/good/postgres/postgres.go:19-28 | the insert succeeds iff the driver does and the id sequence is not exhausted; the new row has the next id, the given project and name and the column defaults; no outbox row |
| Storage.UpdateTx | internal/good/storage/good/postgres/postgres.go:30-73 | commits iff the (id, projectId) row exists and no step fails; then only name and description of that row change and one outbox row is added; on failure the tables are unchanged and the error comes from ErrNoRows, the driver or the rollback |
| Storage.DeleteTx | internal/good/storage/good/postgres/postgres.go:75-116 | commits iff the row exists and no step fails; then only `removed` of that row becomes true (the row stays) and one outbox row is added; on failure nothing changes |
| Storage.ReprioritizeTx | internal/good/storage/good/postgres/postgres.go:151-207 | commits iff the row exists, the bound `true` is accepted and no step fails; then that row's priority becomes the bound value, the result is that one (id, priority) pair and one outbox row is added |
| Storage.Window | internal/good/storage/good/postgres/postgres.go:119-124 | LIMIT/OFFSET: exactly min(limit, rows after offset) rows, none when offset is past the end, the i-th being the (offset+i)-th row in the engine's order |
| Storage.ListError | internal/good/storage/good/postgres/postgres.go:120-143 | a failing query, scan or cursor is wrapped with its step's message and keeps that error's errors.Is answers |
| Storage.CountRemoved | internal/good/storage/good/postgres/postgres.go:128-139 | the removed count is at most the row count, and is zero iff no scanned row is removed |
| Storage.CountRemovedStep | internal/good/storage/good/postgres/postgres.go:128-139 | each scanned row adds one to the removed count exactly when it is removed |
| Storage.ListResult | internal/good/storage/good/postgres/postgres.go:126-147 | the page holds `limit` goods (the pre-sized slice); its meta counts the scanned rows and the removed ones and leaves limit and offset zero |
| Storage.GoodStorage.constructor | internal/good/storage/good/postgres/postgres.go:209-214 | a fresh storage has empty tables, the id sequence at 1 and no token drawn |
| Storage.GoodStorage.Rollback | internal/good/storage/good/postgres/postgres.go:36-44 | the deferred rollback restores both tables and reports `Aborted` |
| Storage.GoodStorage.Finish | internal/good/storage/good/postgres/postgres.go:60-71 | the in-place outbox insert and commit, with the same cases as FinishTx |
| Storage.GoodStorage.CreateGood | internal/good/storage/good/postgres/postgres.go:19-28 | the new state and result are CreateRow's |
| Storage.GoodStorage.UpdateGood | internal/good/storage/good/postgres/postgres.go:30-73 | the new state and result are UpdateTx's |
| Storage.GoodStorage.DeleteGood | internal/good/storage/good/postgres/postgres.go:75-116 | the new state and result are DeleteTx's |
| Storage.GoodStorage.ReprioritizeGood | internal/good/storage/good/postgres/postgres.go:151-207 | the new state and result are ReprioritizeTx's |
| Storage.GoodStorage.ListGoods | internal/good/storage/good/postgres/postgres.go:118-149 | succeeds iff the query, every scan of the window and the cursor succeed; the page is ListResult of the LIMIT/OFFSET window, and every returned good is the zero Good; a failing query, scan or cursor gives that error wrapped "get goods list", "rows scan" or "rows error" |
| StorageProperties.MissingRowIsNotNotFound | internal/good/storage/good/postgres/postgres.go:45-51 | a missing (id, projectId) pair, including a right id under another project, aborts Update, Delete and Reprioritize with nothing changed and an error that is ErrNoRows, never ErrGoodNotFound |
| StorageProperties.ReprioritizeIgnoresNewPriority | internal/good/storage/good/postgres/postgres.go:174-179 | the outcome of ReprioritizeGood does not depend on NewPriority |
| StorageProperties.RemovedIsMonotonic | internal/good/storage/good/postgres/postgres.go:97-102 | no mutation drops a row, Update and Reprioritize keep `removed`, and Delete never turns it back to false |
| StorageProperties.OutboxCountsCommits | internal/good/storage/good/postgres/postgres.go:60-71 | over any sequence of storage calls the outbox keeps its rows and gains exactly one per committed Update, Delete or Reprioritize |
| Cache.ToRedisGoods | internal/good/cache/redis/redis.go:68-90 | the cached goods slice has one entry per good |
| Cache.FromRedisGoods | internal/good/cache/redis/redis.go:92-114 | the decoded goods slice has one entry per cached good |
| Cache.ToRedis | internal/good/cache/redis/redis.go:68-90 | the meta as it is and one cached good per good, in order, none marked removed; with FromRedis the round trip of RoundTripClearsRemoved |
| Cache.FromRedis | internal/good/cache/redis/redis.go:92-114 | the meta as it is and one good per cached good, in order, none removed |
| Cache.ToRedisGoodsAt | internal/good/cache/redis/redis.go:68-90 | each cached good carries the good's id, project, name, description, priority and creation time |
| Cache.FromRedisGoodsAt | internal/good/cache/redis/redis.go:92-114 | each decoded good copies the cached fields and has `removed` false |
| Cache.ClearRemoved | internal/good/cache/redis/redis.go:92-114 | clearing `removed` keeps the number of goods |
| Cache.RoundTripClearsRemoved | internal/good/cache/redis/redis.go:68-114 | reading back a cached list gives the same meta and the same goods with `removed` cleared |
| Cache.Live | internal/good/cache/redis/redis.go:14-17 | the key answers iff it is present and its TTL has not run out |
| Cache.GetOutcome | internal/good/cache/redis/redis.go:35-50 | an absent or expired key is redis.Nil wrapped by "get"; a list read back never has a removed good |
| Cache.GetAfterSet | internal/good/cache/redis/redis.go:23-50 | within the TTL, reading after a set gives the list back with `removed` cleared |
| Cache.ExpiredAfterTtl | internal/good/cache/redis/redis.go:14-17 | once the TTL has run out, a read is a miss |
| Cache.GetAfterDelete | internal/good/cache/redis/redis.go:52-59 | after a delete, a read is a miss |
| Cache.Cache.constructor | internal/good/cache/redis/redis.go:61-66 | NewCache keeps the client's store |
| Cache.Cache.SetGoodsList | internal/good/cache/redis/redis.go:23-33 | an encoding error is wrapped "json marshal"; a client error is returned and changes nothing; otherwise the key holds the encoded list until now + TTL |
| Cache.Cache.GetGoodsList | internal/good/cache/redis/redis.go:35-50 | the answer is GetOutcome of the store; a missing key is redis.Nil |
| Cache.Cache.DeleteGoodsList | internal/good/cache/redis/redis.go:52-59 | deleting removes only the list key (an absent key is no error); a client error is wrapped "del" and changes nothing |
| Nats.ToNLog | internal/good/log/nats/writer.go:39-48 | the wire record carries all seven fields, `removed` included |
| Nats.LogWriter.constructor | internal/good/log/nats/writer.go:18-22 | NewLogWriter sets the subject and leaves the connection nil |
| Nats.LogWriter.SendLog | internal/good/log/nats/writer.go:24-37 | an encoding error is wrapped "json marshal" and nothing is sent; a nil connection gives a driver error; a publish error is wrapped "publish log" and nothing is sent; otherwise exactly one message with the encoded record goes out on the subject |
| Nats.ToLogs | internal/good/log/nats/reader.go:52-65 | one log per wire record |
| Nats.ToLogsAt | internal/good/log/nats/reader.go:52-65 | each log copies six fields and leaves `removed` false |
| Nats.WireRoundTrip | internal/good/log/nats/writer.go:39-48 | converting logs to wire records and back gives the same logs with `removed` cleared |
| Nats.InvokeAck | internal/good/log/nats/reader.go:46-48 | the closure acknowledges the last message of the batch, and indexes out of range (panics) iff the batch is empty |
| Nats.FirstRejected | internal/good/log/nats/reader.go:36-44 | the index found is of a message the decoder rejects, all earlier ones being accepted; none is found iff every message is accepted |
| Nats.FirstRejectedIs | internal/good/log/nats/reader.go:36-44 | the first rejected message is the one a left-to-right scan meets first |
| Nats.FetchLogs | internal/good/log/nats/reader.go:29-50 | a fetch error is wrapped "subscription fetch"; the first rejected payload fails the batch, wrapped "json unmarshal"; otherwise 2n zero logs (the pre-sized slice plus the appended zero records) and the closure over the batch |
| Nats.NonPointerTargetRejectsEveryBatch | internal/good/log/nats/reader.go:36-48 | with a decoder that rejects every payload, every non-empty batch fails at its first message, and only an empty batch succeeds, whose closure then panics |
| Syncer.Step | internal/good/syncer/syncer.go:29-48 | one turn: the context is looked at only before a read, which stops the loop; a turn at the top makes one read; a turn in the inner loop writes the same batch and stays there; the whole run is characterised by RunFromReading |
| Syncer.FirstEvent | internal/good/syncer/syncer.go:30-38 | the first turn at which the context is done or a read succeeds, with every earlier read failed and not cancelled |
| Syncer.WritingForever | internal/good/syncer/syncer.go:39-45 | once a batch is read, every later turn writes that same batch again, whatever the write returns |
| Syncer.RunFromReading | internal/good/syncer/syncer.go:29-48 | the whole run from the top: reads until the first event; stops there if cancelled, else writes the batch read on every remaining turn |
| Syncer.SyncLogs | internal/good/syncer/syncer.go:29-48 | the nested loops make exactly the calls, and reach the state, of the run defined by Step |
| Service.AppendOperation | internal/good/service/service.go:30-124 | one more operation's calls keep the trace disciplined: a deletion of the cached list right after each committed mutation and only then, a set of the list right after each successful list read |
| Service.MutationAnswer | internal/good/service/service.go:49-66 | a mutation succeeds iff validation, storage and the cache deletion all succeed; each failure is wrapped with its step's message; a cache failure is reported even though storage committed |
| Service.MutationAnswerSentinels | internal/good/service/service.go:30-47 | the service keeps errors.Is answers: a validation failure is BadRequest, a storage or cache failure keeps that error's sentinels |
| Service.ListAnswer | internal/good/service/service.go:98-103 | after a successful read the page is returned iff the cache set succeeds; a set failure is wrapped "delete good" |
| Service.GoodsService.constructor | internal/good/service/service.go:126-132 | NewGoodService keeps the storage and the cache, with an empty call trace |
| Service.GoodsService.Create | internal/good/service/service.go:30-47 | result is MutationAnswer of validation, CreateRow and the cache deletion; storage changes only if validation passed; the list key is removed only if the insert and the deletion succeed; the trace stays disciplined |
| Service.GoodsService.Update | internal/good/service/service.go:49-66 | as Create, over UpdateTx |
| Service.GoodsService.Delete | internal/good/service/service.go:68-85 | as Create, over DeleteTx, with the error alone returned |
| Service.GoodsService.Reprioritize | internal/good/service/service.go:106-124 | as Create, over ReprioritizeTx |
| Service.GoodsService.List | internal/good/service/service.go:87-104 | validation failure: BadRequest and no call; storage failure: the storage error (ListError) wrapped "list goods" and nothing cached; otherwise the page is written to the cache as read and ListAnswer is returned |
| HttpV1.Classify | internal/good/controller/http/v1/error.go:41-58 | 404 iff the error is ErrGoodNotFound; 400 iff it is ErrBadRequest and not ErrGoodNotFound; 500 iff it is neither; each with its error body (codes 3, 4, 5) |
| HttpV1.Wrapped | internal/good/controller/http/v1/error.go:41-58 | a handler's own reply passes through; its error is classified |
| HttpV1.ClassifyIgnoresWrapping | internal/good/controller/http/v1/error.go:45-55 | any number of `%w` wraps leave errors.Is and the classification unchanged |
| HttpV1.NumError | internal/good/controller/http/v1/v1.go:272-279 | a strconv error wraps ErrSyntax iff it is a syntax error, and is never a domain error |
| HttpV1.ParseParam | internal/good/controller/http/v1/v1.go:267-280 | a missing parameter or a syntax error is BadRequest; a range error is wrapped "parse int" (500); otherwise the parsed value |
| HttpV1.GetURLParams | internal/good/controller/http/v1/v1.go:266-296 | succeeds iff both id and projectId parse; the id's error wins |
| HttpV1.ParseOffset | internal/good/controller/http/v1/v1.go:163-176 | as ParseParam, except that a syntax error wraps the strconv error, not BadRequest, and so answers 500 |
| HttpV1.ListParams | internal/good/controller/http/v1/v1.go:149-180 | succeeds iff limit and offset parse; the limit's error wins, otherwise the offset's error is returned; both are narrowed to int32 |
| HttpV1.ToGoodResult | internal/good/controller/http/v1/v1.go:67-74 | the response copies six fields and leaves `removed` false |
| HttpV1.ListResponseOf | internal/good/controller/http/v1/v1.go:185-206 | one result per listed good, each its ToGoodResult, and the meta copied |
| HttpV1.ListResponse | internal/good/controller/http/v1/v1.go:185-206 | the append loop builds ListResponseOf |
| HttpV1.PrioritiesResponseOf | internal/good/controller/http/v1/v1.go:246-253 | 2n entries: n zero pairs from the pre-sized slice, then the n pairs in order |
| HttpV1.PrioritiesResponse | internal/good/controller/http/v1/v1.go:246-253 | the append loop builds PrioritiesResponseOf |
| HttpV1.RemoveResponse | internal/good/controller/http/v1/v1.go:136-140 | the reply echoes id and projectId with `removed` true |
| HttpV1.CreateHandler | internal/good/controller/http/v1/v1.go:36-76 | a bad projectId is classified; a body decode error is wrapped "decode json" and answers 500; a service error is classified; 200 iff the parameter, the body and the service all succeed, with the created good's result |
| HttpV1.UpdateHandler | internal/good/controller/http/v1/v1.go:78-115 | a parameter error is classified; otherwise a body decode error is wrapped "decode json", which reaches no domain sentinel and so answers 500; the service's answer is rendered or classified |
| HttpV1.RemoveHandler | internal/good/controller/http/v1/v1.go:117-142 | a parameter error is classified; otherwise 200 with RemoveResponse iff the service succeeds |
| HttpV1.ListHandler | internal/good/controller/http/v1/v1.go:144-208 | a parameter error is classified; otherwise 200 with ListResponseOf iff the service succeeds |
| HttpV1.ReprioritizeHandler | internal/good/controller/http/v1/v1.go:219-257 | a parameter error is classified; otherwise a body decode error is wrapped "decode json" and answers 500; 200 carries PrioritiesResponseOf of the service's answer, an error is classified |
| HttpV1.RegisteredRoutesAnswerBadRequest | internal/good/controller/http/v1/v1.go:210-217 | no registered pattern has a placeholder, so with no URL parameters every handler answers 400 with the bad-request body |
| EndToEnd.StorageErrorsAreDriverErrors | internal/good/storage/good/postgres/postgres.go:30-73 | with driver faults, every storage error is a driver error: neither BadRequest nor ErrGoodNotFound |
| EndToEnd.MissingRowAnswersInternalError | internal/good/storage/good/postgres/postgres.go:45-51 | an update of a missing (id, projectId) with valid input answers 500, not 404 |
| EndToEnd.CommittedUpdateReportedAsFailure | internal/good/service/service.go:55-64 | when the cache deletion fails after a commit, the row is changed and the outbox row added, but the client gets 500 |
| EndToEnd.ListedPageRendersZeros | internal/good/storage/good/postgres/postgres.go:126-147 | a listed page renders `limit` zero results with the scanned counts in its meta |

## Left out

- `cmd/good/main.go` and `pkg/*`: process start-up, configuration and client construction.
- `internal/good/storage/log/clickhouse/clickhouse.go`: the analytical sink appears only as the result of WriteLogs.
- `internal/good/nats/fetcher.go` and `internal/good/syncer/pusher.go`: incomplete code that nothing in the core calls.
- The outbox publisher that would turn outbox rows into NATS messages does not exist in the code.
- Context cancellation is modelled only in the syncer, as an input per turn. Elsewhere `ctx` is dropped.
- The SQL engine's concurrency is not modelled: `FOR UPDATE` row locks, isolation, and the pool.
- ListGoods without ORDER BY returns rows in an order the model takes as a parameter (`order`).
- Column defaults for a new row are a parameter, because the schema is not part of the code.
- `uuid.New()` is a counter of tokens drawn. Uniqueness is all the model relies on.
- The value the driver stores for `true` bound to the integer `priority` column is a parameter (`bound`), because it depends on the driver and the database.
- JSON encoding and decoding are abstract codecs (`Codec`, `encode`, `decode`), assumed faithful where a round trip is stated.
- The Redis client and the NATS connection and subscription are values and fault parameters. Time for the TTL is a parameter.
- `strconv.ParseInt` is an oracle (`parseInt`) that returns a value or a syntax or range error.
- chi's routing is a map of URL parameters. `render` is a `Reply` of status and body.
- The sentinels `domain.ErrBadRequest` and `domain.ErrGoodNotFound` are declared outside the modelled files. The model treats them as distinct sentinels.
- Error message text is kept as wrap labels, not as the formatted string; where the code writes `"%w: msg"` the label order differs from the printed text.
- Service.GoodsService.Create: on a failed cache deletion the Go service also returns the stored good next to the error; the model returns only the error (the HTTP layer ignores the value then).
- Service.GoodsService.Update: as Create.
- Service.GoodsService.Reprioritize: as Create.
- Storage.GoodStorage.UpdateGood: on a failed outbox insert or commit the Go function also returns the scanned good next to the error; the model returns only the error (the service and the HTTP layer ignore the value then).
- Storage.GoodStorage.ReprioritizeGood: on a failure after the scan the Go function also returns the pairs collected so far next to the error; the model returns only the error (ignored by its callers).
- Service.GoodsService.List: on a failed cache set the Go service also returns the page next to the error; the model returns only the error (the HTTP layer ignores the value then).
- Cache.Cache.GetGoodsList is modelled but nothing in the service calls it, so the service's trace never contains a read.
- Syncer.SyncLogs runs over a finite sequence of turns; the Go loop has no bound.
- Storage.GoodStorage.ListGoods: requires a non-negative Limit and Offset, which its only caller, the service's List, guarantees by validating first; with a negative Limit `make` at postgres.go:126 would panic, and a negative Offset is refused by the database server, neither of which is modelled.
- Storage.GoodStorage.ReprioritizeGood: a failing `rows.Err()` after the scan is folded into the failing read-back step.
- Logging through slog is not modelled.

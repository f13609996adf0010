# Postgres service of go-gousu: startup and health, in Dafny

The package `gousupostgres` wraps a PostgreSQL connection in a service with
a simple lifecycle, for the gousu framework. `Start` connects with a bounded
number of attempts and sleeps a fixed interval after each failed one. It then
runs an optional setup SQL script, an optional update SQL script and an
optional query that returns the schema revision. The first error ends `Start`.
`Health` reports the error left by the connection loop if there is one.
Otherwise it pings the database. Only connection errors are kept ("sticky").
Errors from the scripts or the revision query are returned and then forgotten.

## How the model is built

- `Driver` (driver.dfy) stands for the client library (`database/sql` with
  `lib/pq`). Every call into it is replaced by the answer the database gives.
  `Responses` holds those answers for one `Start`:
  - the open and ping results of attempt number i, for every i;
  - the exec results of the setup and update SQL;
  - the result of the revision query.
  Every call that reaches the database, and every sleep, is recorded as an
  `Action`. A call on a nil `*sql.DB` panics inside `database/sql`. The model
  gives that outcome its own name, `NilPointerPanic`. A failed `sql.Open`
  gives back a nil handle, so the db field becomes nil after it.
- `Startup` (startup.dfy) states the startup sequence as pure functions:
  - `ConnectFrom` and `Connect` for the retry loop;
  - `Step`, `AndThen` and `Bootstrap` for the three optional steps;
  - `StartRun` for a whole `Start`;
  - `HealthResult` for `Health`.
- `GousuPostgres` (service.dfy) is the service itself. It is a class with
  the source's `error`, `db` and `options` fields and a ghost `trace` of
  actions. `Start` runs the source's sequence imperatively. Its connection
  loop is the method `OpenWithRetries`, which is split out so that each part
  verifies within the solver's budget. `OpenWithRetries` is proved
  to agree with `Connect`, and `Start` with `StartRun`, field by field. `Health` is proved to agree with
  `HealthResult` and records the ping only when it makes one.
- `StartupProperties` (properties.dfy) proves what the sequence guarantees:
  - how many attempts and sleeps there are;
  - which bootstrap steps run, and in what order;
  - where the sequence stops on an error;
  - which errors are sticky, and what `Health` reports afterwards.

The settings that the source reads from process flags (host, port, user,
password, database, max retries, retry interval) form a `Config` argument of
`Start`. The source reads them when `Start` runs, not at construction.

When max retries is 0 or less, the loop `while retries < max_retries` makes no
attempt at all. The error field then stays nil, and `Start` goes straight to
the bootstrap steps with whatever handle the service already had. On a fresh
service, a requested bootstrap step or any later `Health` call then
dereferences a nil handle (`NoAttemptWithoutRetries`). Only connection errors
are sticky: a failing script or revision query makes `Start` fail, but
`Health` afterwards pings the database (`HealthAfterConnect`).

## Model

| member | source | states |
|---|---|---|
| `GousuPostgres.NullTimeToTime` | service.go:61-67 | the result is absent exactly when the nullable time is not valid, and is otherwise the stored time |
| `GousuPostgres.OptionsOrDefault` | service.go:168-171 | given options are kept; missing options become all three SQL strings empty |
| `GousuPostgres.Service.constructor` | service.go:168-177 | a new service has the defaulted options, no error and no handle |
| `GousuPostgres.Service.Name` | service.go:69-72 | the service's name is the dependency-injection name "postgres" |
| `GousuPostgres.Service.GetDB` | service.go:74-77 | returns the handle held in the db field |
| `GousuPostgres.Service.Start` | service.go:79-150 | return value, error field, db field and recorded actions are those of `StartRun` on the handle Start found; the previous error plays no part |
| `GousuPostgres.Service.OpenWithRetries` | service.go:84-107 | clears the error field, then retry counter, db, error and recorded actions equal the reference loop `Connect` |
| `GousuPostgres.Service.Stop` | service.go:152-155 | Stop returns nil |
| `GousuPostgres.Service.Health` | service.go:157-164 | returns the sticky error without pinging; otherwise pings and returns the ping's result; panics on a nil handle; fields unchanged |
| `Startup.ConnectFrom` | service.go:90-107 | the loop never lowers the counter, never passes max retries, and only appends to the trace |
| `StartupProperties.ConnectFromStops` | service.go:90-107 | every attempt before the stopping one failed; stopping on success leaves the counter below max retries and that attempt's handle stored; stopping on error means max retries reached with the last attempt's error and handle |
| `StartupProperties.ConnectFromCounts` | service.go:90-107 | from any loop state, one open per attempt made and one sleep per failed attempt (none after the successful one), and no bootstrap step |
| `StartupProperties.ConnectBounds` | service.go:88-107 | for every input: no attempt when max retries <= 0; otherwise at most max retries opens, one sleep per failed attempt, no bootstrap step, and a handle whenever no error is left |
| `StartupProperties.AllAttemptsFail` | service.go:88-113 | all attempts failing gives exactly N opens and N sleeps (the last failure sleeps too), counter N, the last attempt's error stored and returned, no bootstrap step |
| `StartupProperties.FirstSuccessAt` | service.go:88-107 | first success at attempt k gives exactly k opens, k-1 sleeps, counter k-1, error nil and that attempt's handle; Start then bootstraps on that handle |
| `StartupProperties.NoAttemptWithoutRetries` | service.go:84-149 | max retries <= 0: no open, no sleep, error nil, db unchanged; nothing to bootstrap returns nil; on a nil handle a bootstrap step or Health panics |
| `StartupProperties.StepRunsPrefix` | service.go:115-124 | one step on a live handle is skipped when its SQL is empty and otherwise runs once and returns its own error |
| `StartupProperties.AndThenRunsPrefix` | service.go:118-134 | running two steps one after the other stops at the first failure; the steps run are a prefix of both plans, and the error is the last step's |
| `StartupProperties.PlannedAreBootstrapSteps` | service.go:115-147 | a step is planned exactly when its SQL string is non-empty, and the planned steps come in the order setup, update, revision query |
| `StartupProperties.BootstrapOnHandle` | service.go:115-149 | on a live handle the steps run are a prefix of setup, update, revision (each only if non-empty); nil means all ran and succeeded; an error is the last step's, all earlier ones succeeded; no panic |
| `StartupProperties.BootstrapOnNilHandle` | service.go:115-147 | on a nil handle nothing reaches the database; nil with no steps planned, panic otherwise |
| `StartupProperties.BootstrapDoesNotConnect` | service.go:115-147 | the bootstrap steps never open a connection and never sleep |
| `StartupProperties.SetupFailureSkipsLaterSteps` | service.go:115-124 | a failing setup script is returned, update and revision never run, and the error field stays nil |
| `StartupProperties.UpdateFailureSkipsRevisionQuery` | service.go:126-135 | a failing update script (after setup succeeded or was skipped) is returned, the revision query never runs, and the error field stays nil |
| `StartupProperties.RevisionFailureIsFatal` | service.go:137-147 | a failing revision query is returned after all planned steps ran, and the error field stays nil |
| `StartupProperties.StartSucceedsIffAllStepsSucceed` | service.go:115-149 | once connected, Start returns nil exactly when every planned step ran and succeeded; it never panics |
| `StartupProperties.OnlyConnectionErrorsAreSticky` | service.go:93-95 | the error field after Start is the one the connection loop left |
| `StartupProperties.HealthAfterFailedConnect` | service.go:158-161 | after a Start whose attempts all failed, Health returns the error Start returned, whatever the ping would answer |
| `StartupProperties.HealthAfterConnect` | service.go:158-164 | after a Start that connected, Health returns the ping's result, even when a script or the revision query made Start fail |
| `StartupProperties.DefaultOptionsRunNoBootstrap` | service.go:168-171 | a service built without options only runs the connection loop and returns exactly the connection error |
| `StartupProperties.ConnectOnThirdAttempt` | service.go:88-149 | three retries, two failures then a success, no SQL: Start returns nil after three opens and two sleeps, and Health reports a nil ping as nil |

## Left out

- The database client library, its connection pool and the PostgreSQL wire protocol: open, ping, exec and query-row are replaced by their answers (`Responses`, and the ping argument of `Health`).
- Formatting the connection string (service.go:86): the library consumes it unchecked, so `Config` carries host, port, user, password and database without using them.
- `time.Sleep` and the clock: a sleep is recorded as `Sleep(retryInterval)` in the trace. A non-positive interval returns at once in Go. The 64-bit product `time.Second * interval` wraps on overflow, to a duration that may be positive, negative or zero. The model only records the argument.
- Logging through `gousu.Log`: it has no effect on control flow. The revision that the query returns is only logged, so the model drops it.
- Process flags (service.go:19-27): replaced by the `Config` argument of `Start`.
- Concurrent calls of `Health` and `Start`: the source has no synchronisation, and the model treats calls as sequential.
- The `ctx` argument and the logger of `NewServiceBase` are unused by the logic and are not modelled.
- GousuPostgres.Service.constructor: copies the options into the service. The source stores the caller's `*Options` pointer, and `Start` reads the SQL strings through it when it runs. A change the caller makes to that struct after construction, or a struct shared by two services, therefore changes what `Start` does. The model does not capture that aliasing.
- GousuPostgres.NullTimeToTime: takes the nullable time by value. The source's result pointer aliases the argument's field, and a nil argument panics; neither is modelled.
- service_mock.go: a test double whose only logic is calling a stored function and counting the calls.
- Go's 64-bit `int`: the retry counter only goes up while it is below max retries, so it never goes past the larger of 0 and max retries. That bound is itself an `int`, so the counter cannot wrap. The model uses unbounded integers.

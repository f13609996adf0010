/** The startup sequence of the postgres service as pure functions of the
    database's answers: the connection loop, the three bootstrap steps and
    the health probe. `GousuPostgres.Service` runs the same sequence
    imperatively and is proved to agree with `StartRun` and `HealthResult`. */
module Startup {
  import opened Wrappers
  import opened Driver

  /** The connection settings, read by Start from process flags. Host, port,
      user, password and database only go into the connection string, which
      the client library consumes; maxRetries and retryInterval drive the loop. */
  datatype Config = Config(
    host: string,
    port: int,
    user: string,
    password: string,
    database: string,
    maxRetries: int,
    retryInterval: int)

  /** SQL supplied at construction; an empty string means "skip this step". */
  datatype Options = Options(setupSql: string, updateSql: string, getDbRevisionSql: string)

  /** The variables of the connection loop: the retry counter, the service's
      db and error fields, and the actions performed so far. */
  datatype LoopState = LoopState(retries: nat, db: Option<Handle>, error: Option<Error>, trace: seq<Action>)

  /** The actions of one attempt: the open, and the ping when the open succeeded. */
  function AttemptTrace(a: Attempt, n: nat): seq<Action>
  {
    if a.open.Failure? then [Open(n)] else [Open(n), Ping(n)]
  }

  /** The loop state after a failed attempt: the error is stored, the
      service sleeps and the counter advances. */
  function AfterFailure(a: Attempt, interval: int, s: LoopState): LoopState
    requires Fails(a)
  {
    LoopState(s.retries + 1, OpenedHandle(a), Some(FailureOf(a)),
              s.trace + AttemptTrace(a, s.retries) + [Sleep(interval)])
  }

  /** The connection loop run from state s until the counter reaches
      maxRetries or an attempt succeeds. A successful attempt leaves the
      counter where it is (the loop breaks before the increment). */
  function ConnectFrom(attempt: nat -> Attempt, maxRetries: int, interval: int, s: LoopState): (r: LoopState)
    ensures s.retries <= r.retries
    ensures s.retries <= maxRetries ==> r.retries <= maxRetries
    ensures s.trace <= r.trace
    decreases maxRetries - s.retries
  {
    if s.retries >= maxRetries then s
    else
      var a := attempt(s.retries);
      if Fails(a) then ConnectFrom(attempt, maxRetries, interval, AfterFailure(a, interval, s))
      else LoopState(s.retries, OpenedHandle(a), None, s.trace + AttemptTrace(a, s.retries))
  }

  /** The connection loop of one Start: the counter starts at 0, the error
      field is cleared, and the db field keeps its previous value until the
      first open. */
  function Connect(attempt: nat -> Attempt, maxRetries: int, interval: int, db: Option<Handle>): LoopState
  {
    ConnectFrom(attempt, maxRetries, interval, LoopState(0, db, None, []))
  }

  /** A stretch of the startup sequence: how it ended and what it did. */
  datatype Phase = Phase(outcome: Outcome, trace: seq<Action>)

  /** One bootstrap step: skipped when its SQL is empty, a panic when the
      handle is nil, otherwise one call whose error is the step's result. */
  function Step(sql: string, db: Option<Handle>, result: Option<Error>, action: Action): Phase
  {
    if sql == "" then Phase(Return(None), [])
    else if db.None? then Phase(NilPointerPanic, [])
    else Phase(Return(result), [action])
  }

  /** Run next only if first returned nil. */
  function AndThen(first: Phase, next: Phase): Phase
  {
    if first.outcome == Return(None) then Phase(next.outcome, first.trace + next.trace) else first
  }

  /** Setup SQL, then update SQL, then the revision query. */
  function Bootstrap(o: Options, r: Responses, db: Option<Handle>): Phase
  {
    AndThen(Step(o.setupSql, db, r.setup, ExecSetup),
      AndThen(Step(o.updateSql, db, r.update, ExecUpdate),
        Step(o.getDbRevisionSql, db, RevisionError(r.revision), QueryRevision)))
  }

  /** The observable result of one Start: what it returns, the values it
      leaves in the error and db fields, the final retry count, and the
      actions it performed. */
  datatype Run = Run(outcome: Outcome, error: Option<Error>, db: Option<Handle>, retries: nat, trace: seq<Action>)

  /** One Start, given the db field it finds. The error field it finds
      plays no part: Start clears it on entry. */
  function StartRun(c: Config, o: Options, r: Responses, db: Option<Handle>): Run
  {
    var conn := Connect(r.attempt, c.maxRetries, c.retryInterval, db);
    if conn.error.Some? then Run(Return(conn.error), conn.error, conn.db, conn.retries, conn.trace)
    else
      var boot := Bootstrap(o, r, conn.db);
      Run(boot.outcome, conn.error, conn.db, conn.retries, conn.trace + boot.trace)
  }

  /** What Health returns given the service's fields and the ping's result. */
  function HealthResult(error: Option<Error>, db: Option<Handle>, ping: Option<Error>): Outcome
  {
    if error.Some? then Return(error)
    else if db.None? then NilPointerPanic
    else Return(ping)
  }

  /** The steps one bootstrap step asks for: none when its SQL is empty. */
  function StepPlan(sql: string, action: Action): seq<Action>
  {
    if sql == "" then [] else [action]
  }

  /** The bootstrap steps the options ask for, in the order Start runs them. */
  function Planned(o: Options): seq<Action>
  {
    StepPlan(o.setupSql, ExecSetup) + (StepPlan(o.updateSql, ExecUpdate) + StepPlan(o.getDbRevisionSql, QueryRevision))
  }

  /** The error the database gives for a bootstrap step. */
  function StepError(r: Responses, a: Action): Option<Error>
  {
    match a
    case ExecSetup => r.setup
    case ExecUpdate => r.update
    case QueryRevision => RevisionError(r.revision)
    case _ => None
  }

  /** The first success (if any) is at attempt number k (counting from 1),
      within the first maxRetries attempts. */
  ghost predicate ConnectsAt(attempt: nat -> Attempt, maxRetries: int, k: nat)
  {
    && 1 <= k <= maxRetries
    && (forall i: nat :: i < k - 1 ==> Fails(attempt(i)))
    && !Fails(attempt(k - 1))
  }
}

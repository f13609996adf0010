/** The database client the service drives (database/sql with the lib/pq
    driver), reduced to the answers it gives. Every call that reaches the
    database is recorded as an Action, so that attempt counts, sleeps and
    the order of the bootstrap steps can be stated. */
module Driver {
  import opened Wrappers

  /** An error value returned by the client library; its text is opaque. */
  datatype Error = Error(message: string)

  /** A `*sql.DB` connection pool handle, known only by its identity. */
  datatype Handle = Handle(id: nat)

  /** What one connection attempt yields: the result of `sql.Open` and, when
      that opened a handle, the result of pinging it. `sql.Open` gives back a
      nil handle together with its error, so a failed open carries no handle. */
  datatype Attempt = Attempt(open: Result<Handle, Error>, ping: Option<Error>)

  /** An attempt fails when the open fails, or when the open succeeds and the ping fails. */
  predicate Fails(a: Attempt)
  {
    a.open.Failure? || a.ping.Some?
  }

  /** The error a failed attempt leaves in the service's error field. */
  function FailureOf(a: Attempt): Error
    requires Fails(a)
  {
    if a.open.Failure? then a.open.error else a.ping.value
  }

  /** The handle an attempt leaves in the service's db field. */
  function OpenedHandle(a: Attempt): Option<Handle>
  {
    if a.open.Success? then Some(a.open.value) else None
  }

  /** Everything the database answers during one Start: the outcome of
      attempt number i (counting from 0) for every i, the result of executing
      the setup and the update SQL, and the result of the revision query
      (one integer, or an error for a failed query, no row or a non-integer). */
  datatype Responses = Responses(
    attempt: nat -> Attempt,
    setup: Option<Error>,
    update: Option<Error>,
    revision: Result<int, Error>)

  /** The error of the revision query, if any. */
  function RevisionError(revision: Result<int, Error>): Option<Error>
  {
    if revision.Failure? then Some(revision.error) else None
  }

  /** A visible effect on the database or the clock. `Open(n)` and `Ping(n)`
      belong to attempt n, `Sleep(s)` is `time.Sleep` of s seconds (a
      non-positive s returns at once), `Probe` is the ping made by Health. */
  datatype Action =
    | Open(attempt: nat)
    | Ping(attempt: nat)
    | Sleep(seconds: int)
    | ExecSetup
    | ExecUpdate
    | QueryRevision
    | Probe

  predicate IsOpen(a: Action) { a.Open? }

  predicate IsSleep(a: Action) { a.Sleep? }

  predicate IsBootstrapStep(a: Action) { a.ExecSetup? || a.ExecUpdate? || a.QueryRevision? }

  /** The number of actions in t that satisfy p. */
  function CountOf(t: seq<Action>, p: Action -> bool): nat
  {
    if t == [] then 0 else (if p(t[0]) then 1 else 0) + CountOf(t[1..], p)
  }

  lemma {:induction false} CountOfAppend(t: seq<Action>, u: seq<Action>, p: Action -> bool)
    ensures CountOf(t + u, p) == CountOf(t, p) + CountOf(u, p)
  {
    if t == [] {
      assert t + u == u;
    } else {
      assert (t + u)[1..] == t[1..] + u;
      CountOfAppend(t[1..], u, p);
    }
  }

  /** What a Go call does: return an error value (None is nil), or panic
      because a method of database/sql was called on a nil `*sql.DB`. */
  datatype Outcome = Return(err: Option<Error>) | NilPointerPanic
}

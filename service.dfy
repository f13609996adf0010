/** The postgres service of the gousu framework: a lifecycle wrapper that
    connects with bounded retries, runs optional setup and update SQL,
    checks the schema revision, and answers health probes. */
module GousuPostgres {
  import opened Wrappers
  import opened Driver
  import opened Startup

  /** The name under which the service is registered for dependency injection. */
  const ServiceName := "postgres"

  /** Stands for Go's `time.Time`; its representation plays no part here. */
  datatype Time = Time(unixNanos: int)

  /** lib/pq's `NullTime`: a time that may be SQL NULL (`valid` false). */
  datatype NullTime = NullTime(time: Time, valid: bool)

  /** A nullable time column as an optional time. */
  function NullTimeToTime(nt: NullTime): (r: Option<Time>)
    ensures r.None? <==> !nt.valid
    ensures r.Some? ==> r.value == nt.time
  {
    if !nt.valid then None else Some(nt.time)
  }

  /** The options a service is built with: those given, or all three SQL
      strings empty when none are given. */
  function OptionsOrDefault(options: Option<Options>): (r: Options)
    ensures options.Some? ==> r == options.value
    ensures options.None? ==> r.setupSql == "" && r.updateSql == "" && r.getDbRevisionSql == ""
  {
    if options.None? then Options("", "", "") else options.value
  }

  class Service {
    /** The sticky error: set by the connection loop, read by Health. */
    var error: Option<Error>
    /** The connection pool handle, nil until an open succeeds. */
    var db: Option<Handle>
    const options: Options
    /** Every action this service has performed on the database and the clock. */
    ghost var trace: seq<Action>

    /** NewServiceBase: a service with no error and no handle yet. */
    constructor (options: Option<Options>)
      ensures this.options == OptionsOrDefault(options)
      ensures error == None && db == None && trace == []
    {
      this.options := OptionsOrDefault(options);
      error := None;
      db := None;
      trace := [];
    }

    function Name(): (r: string)
      ensures r == ServiceName
    {
      ServiceName
    }

    function GetDB(): (r: Option<Handle>)
      reads this
      ensures r == db
    {
      db
    }

    /** Connects, retrying up to config.maxRetries times, then runs the setup
        SQL, the update SQL and the revision query, each only when its text
        is non-empty; the first error ends Start. Only connection errors are
        kept in the error field. */
    method Start(config: Config, responses: Responses) returns (r: Outcome)
      modifies this
      ensures var run := StartRun(config, options, responses, old(db));
        && r == run.outcome
        && error == run.error
        && db == run.db
        && trace == old(trace) + run.trace
    {
      ghost var conn := Connect(responses.attempt, config.maxRetries, config.retryInterval, db);
      var retries := OpenWithRetries(config, responses);
      if error != None {
        r := Return(error);
        return;
      }

      // From here on only the bootstrap steps remain; boot is what they do.
      ghost var boot := Bootstrap(options, responses, db);
      ghost var done: seq<Action> := [];
      assert trace == old(trace) + (conn.trace + done);

      if options.setupSql != "" {
        if db == None {
          r := NilPointerPanic;
          assert boot == Phase(r, done);
          return;
        }
        trace, done := trace + [ExecSetup], done + [ExecSetup];
        assert trace == old(trace) + (conn.trace + done);
        if responses.setup != None {
          r := Return(responses.setup);
          assert boot == Phase(r, done);
          return;
        }
      }
      assert trace == old(trace) + (conn.trace + done);

      if options.updateSql != "" {
        if db == None {
          r := NilPointerPanic;
          assert boot == Phase(r, done);
          return;
        }
        trace, done := trace + [ExecUpdate], done + [ExecUpdate];
        assert trace == old(trace) + (conn.trace + done);
        if responses.update != None {
          r := Return(responses.update);
          assert boot == Phase(r, done);
          return;
        }
      }
      assert trace == old(trace) + (conn.trace + done);

      if options.getDbRevisionSql != "" {
        if db == None {
          r := NilPointerPanic;
          assert boot == Phase(r, done);
          return;
        }
        trace, done := trace + [QueryRevision], done + [QueryRevision];
        assert trace == old(trace) + (conn.trace + done);
        if responses.revision.Failure? {
          r := Return(Some(responses.revision.error));
          assert boot == Phase(r, done);
          return;
        }
      }

      r := Return(None);
      assert boot == Phase(r, done);
    }

    /** The connection loop of Start: clears the error field, then opens and
        pings until an attempt succeeds or config.maxRetries attempts have
        failed, sleeping after every failed attempt. */
    method OpenWithRetries(config: Config, responses: Responses) returns (retries: nat)
      modifies this`db, this`error, this`trace
      ensures var conn := Connect(responses.attempt, config.maxRetries, config.retryInterval, old(db));
        && retries == conn.retries
        && db == conn.db
        && error == conn.error
        && trace == old(trace) + conn.trace
    {
      ghost var conn := Connect(responses.attempt, config.maxRetries, config.retryInterval, db);
      error := None;
      retries := 0;
      ghost var t: seq<Action> := [];
      while retries < config.maxRetries
        invariant trace == old(trace)
        invariant ConnectFrom(responses.attempt, config.maxRetries, config.retryInterval, LoopState(retries, db, error, t)) == conn
        decreases config.maxRetries - retries
      {
        ghost var before := LoopState(retries, db, error, t);
        var a := responses.attempt(retries);
        t := t + [Open(retries)];
        if a.open.Success? {
          db, error := Some(a.open.value), None;
        } else {
          db, error := None, Some(a.open.error);
        }
        if error == None {
          t := t + [Ping(retries)];
          error := a.ping;
          if error == None {
            assert t == before.trace + AttemptTrace(a, retries);
            assert LoopState(retries, db, error, t) == conn;
            break;
          }
        }
        assert t == before.trace + AttemptTrace(a, retries);
        t := t + [Sleep(config.retryInterval)];
        retries := retries + 1;
        assert LoopState(retries, db, error, t) == AfterFailure(a, config.retryInterval, before);
      }
      assert LoopState(retries, db, error, t) == conn;
      trace := trace + t;
    }

    /** Stop does nothing and reports no error. */
    method Stop() returns (r: Option<Error>)
      ensures r == None
    {
      r := None;
    }

    /** The sticky error if there is one, without touching the database;
        otherwise the result of pinging the handle (ping is the database's
        answer to that ping). */
    method Health(ping: Option<Error>) returns (r: Outcome)
      modifies this`trace
      ensures r == HealthResult(error, db, ping)
      ensures error.Some? ==> r == Return(error) && trace == old(trace)
      ensures error.None? && db.Some? ==> r == Return(ping) && trace == old(trace) + [Probe]
      ensures error.None? && db.None? ==> r == NilPointerPanic && trace == old(trace)
    {
      if error != None {
        r := Return(error);
        return;
      }
      if db == None {
        r := NilPointerPanic;
        return;
      }
      trace := trace + [Probe];
      r := Return(ping);
    }
  }
}

/** What the startup sequence guarantees: how many attempts and sleeps the
    connection loop makes, which bootstrap steps run and in what order, which
    errors are sticky, and what Health reports afterwards. */
module StartupProperties {
  import opened Wrappers
  import opened Driver
  import opened Startup
  import GousuPostgres

  // ---------------------------------------------------------------------
  // The connection loop

  /** The connection loop run from any state: every attempt before the one
      it stops at failed; it stops either at a successful attempt, holding
      that attempt's handle, or after attempt maxRetries failed, holding that
      attempt's error. */
  lemma {:induction false} ConnectFromStops(attempt: nat -> Attempt, maxRetries: int, interval: int, s: LoopState)
    requires s.retries < maxRetries
    ensures var r := ConnectFrom(attempt, maxRetries, interval, s);
      && (forall i: nat :: s.retries <= i < r.retries ==> Fails(attempt(i)))
      && (r.error.Some? ==>
            r.retries == maxRetries && Fails(attempt(r.retries - 1))
            && r.error == Some(FailureOf(attempt(r.retries - 1))) && r.db == OpenedHandle(attempt(r.retries - 1)))
      && (r.error.None? ==>
            r.retries < maxRetries && !Fails(attempt(r.retries))
            && r.db == OpenedHandle(attempt(r.retries)) && r.db.Some?)
    decreases maxRetries - s.retries
  {
    var a := attempt(s.retries);
    if Fails(a) {
      var next := AfterFailure(a, interval, s);
      if next.retries < maxRetries {
        ConnectFromStops(attempt, maxRetries, interval, next);
      }
    }
  }

  /** The connection loop run from any state opens once per attempt and
      sleeps after every failed attempt, but not after a successful one. */
  lemma {:induction false} ConnectFromCounts(attempt: nat -> Attempt, maxRetries: int, interval: int, s: LoopState)
    requires s.retries < maxRetries
    ensures var r := ConnectFrom(attempt, maxRetries, interval, s);
      && CountOf(r.trace, IsOpen) == CountOf(s.trace, IsOpen) + (r.retries - s.retries) + (if r.error.None? then 1 else 0)
      && CountOf(r.trace, IsSleep) == CountOf(s.trace, IsSleep) + (r.retries - s.retries)
      && CountOf(r.trace, IsBootstrapStep) == CountOf(s.trace, IsBootstrapStep)
    decreases maxRetries - s.retries
  {
    var a := attempt(s.retries);
    var tried := s.trace + AttemptTrace(a, s.retries);
    var shown := AttemptTrace(a, s.retries);
    CountOfAppend(s.trace, shown, IsOpen);
    CountOfAppend(s.trace, shown, IsSleep);
    CountOfAppend(s.trace, shown, IsBootstrapStep);
    AttemptTraceCounts(a, s.retries);
    if Fails(a) {
      var next := AfterFailure(a, interval, s);
      CountOfAppend(tried, [Sleep(interval)], IsOpen);
      CountOfAppend(tried, [Sleep(interval)], IsSleep);
      CountOfAppend(tried, [Sleep(interval)], IsBootstrapStep);
      if next.retries < maxRetries {
        ConnectFromCounts(attempt, maxRetries, interval, next);
      }
    }
  }

  lemma AttemptTraceCounts(a: Attempt, n: nat)
    ensures CountOf(AttemptTrace(a, n), IsOpen) == 1
    ensures CountOf(AttemptTrace(a, n), IsSleep) == 0
    ensures CountOf(AttemptTrace(a, n), IsBootstrapStep) == 0
  {
    var t := AttemptTrace(a, n);
    assert [Open(n)][1..] == [];
    if a.open.Success? {
      assert [Ping(n)][1..] == [];
      assert t == [Open(n)] + [Ping(n)];
      CountOfAppend([Open(n)], [Ping(n)], IsOpen);
      CountOfAppend([Open(n)], [Ping(n)], IsSleep);
      CountOfAppend([Open(n)], [Ping(n)], IsBootstrapStep);
    }
  }

  /** One Start's connection loop, for every input: it makes at most
      maxRetries attempts (none at all when maxRetries <= 0), sleeps once per
      failed attempt, and when it ends without an error after at least one
      attempt it holds an open handle. */
  lemma ConnectBounds(attempt: nat -> Attempt, maxRetries: int, interval: int, db: Option<Handle>)
    ensures var r := Connect(attempt, maxRetries, interval, db);
      && (maxRetries <= 0 ==> r == LoopState(0, db, None, []))
      && (maxRetries > 0 ==>
            && r.retries <= maxRetries
            && CountOf(r.trace, IsOpen) == r.retries + (if r.error.None? then 1 else 0)
            && CountOf(r.trace, IsOpen) <= maxRetries
            && CountOf(r.trace, IsSleep) == r.retries
            && CountOf(r.trace, IsBootstrapStep) == 0
            && (r.error.None? ==> r.db.Some?))
  {
    if maxRetries > 0 {
      ConnectFromStops(attempt, maxRetries, interval, LoopState(0, db, None, []));
      ConnectFromCounts(attempt, maxRetries, interval, LoopState(0, db, None, []));
    }
  }

  /** When every attempt fails, Start makes exactly maxRetries attempts and
      as many sleeps (the last failed attempt sleeps too), stores and returns
      the error of the last attempt, and runs no bootstrap step. */
  lemma AllAttemptsFail(c: Config, o: Options, r: Responses, db: Option<Handle>)
    requires c.maxRetries > 0
    requires forall i: nat :: i < c.maxRetries ==> Fails(r.attempt(i))
    ensures var run := StartRun(c, o, r, db);
      && run.retries == c.maxRetries
      && CountOf(run.trace, IsOpen) == c.maxRetries
      && CountOf(run.trace, IsSleep) == c.maxRetries
      && CountOf(run.trace, IsBootstrapStep) == 0
      && run.error == Some(FailureOf(r.attempt(c.maxRetries - 1)))
      && run.outcome == Return(run.error)
  {
    var conn := Connect(r.attempt, c.maxRetries, c.retryInterval, db);
    ConnectFromStops(r.attempt, c.maxRetries, c.retryInterval, LoopState(0, db, None, []));
    ConnectFromCounts(r.attempt, c.maxRetries, c.retryInterval, LoopState(0, db, None, []));
  }

  /** When the first successful attempt is number k, the loop stops after
      exactly k attempts and k - 1 sleeps with the counter at k - 1, the error
      field nil and the handle of attempt k stored; Start then runs the
      bootstrap steps on that handle. */
  lemma FirstSuccessAt(c: Config, o: Options, r: Responses, db: Option<Handle>, k: nat)
    requires ConnectsAt(r.attempt, c.maxRetries, k)
    ensures var conn := Connect(r.attempt, c.maxRetries, c.retryInterval, db);
      && conn.retries == k - 1
      && CountOf(conn.trace, IsOpen) == k
      && CountOf(conn.trace, IsSleep) == k - 1
      && conn.error == None
      && conn.db == OpenedHandle(r.attempt(k - 1)) && conn.db.Some?
    ensures var conn := Connect(r.attempt, c.maxRetries, c.retryInterval, db);
      var run := StartRun(c, o, r, db);
      var boot := Bootstrap(o, r, conn.db);
      && run.retries == k - 1
      && run.error == None
      && run.db == conn.db
      && run.outcome == boot.outcome
      && run.trace == conn.trace + boot.trace
  {
    var conn := Connect(r.attempt, c.maxRetries, c.retryInterval, db);
    ConnectFromStops(r.attempt, c.maxRetries, c.retryInterval, LoopState(0, db, None, []));
    ConnectFromCounts(r.attempt, c.maxRetries, c.retryInterval, LoopState(0, db, None, []));
  }

  /** With maxRetries <= 0 the loop body never runs: no attempt, the error
      field stays nil and the db field keeps the handle Start found. With
      nothing to bootstrap Start then returns nil; on a service that never
      opened a handle, any bootstrap step and any Health call panics. */
  lemma NoAttemptWithoutRetries(c: Config, o: Options, r: Responses, db: Option<Handle>, ping: Option<Error>)
    requires c.maxRetries <= 0
    ensures var run := StartRun(c, o, r, db);
      && run.retries == 0
      && CountOf(run.trace, IsOpen) == 0
      && CountOf(run.trace, IsSleep) == 0
      && run.error == None
      && run.db == db
      && (Planned(o) == [] ==> run.outcome == Return(None) && run.trace == [])
      && (db.None? && Planned(o) != [] ==> run.outcome == NilPointerPanic && run.trace == [])
      && (db.None? ==> HealthResult(run.error, run.db, ping) == NilPointerPanic)
  {
    BootstrapDoesNotConnect(o, r, db);
    var t := Bootstrap(o, r, db).trace;
    assert StartRun(c, o, r, db).trace == [] + t == t;
  }

  // ---------------------------------------------------------------------
  // The bootstrap steps

  /** Every step in t succeeded. */
  ghost predicate AllSucceed(r: Responses, t: seq<Action>)
  {
    forall i :: 0 <= i < |t| ==> StepError(r, t[i]).None?
  }

  /** A phase ran a prefix of plan and stopped at its first failure: nil
      means the whole plan ran and every step succeeded; an error is the
      error of the last step run, and every step before it succeeded. */
  ghost predicate RunsPrefixOf(p: Phase, plan: seq<Action>, r: Responses)
  {
    && p.trace <= plan
    && p.outcome.Return?
    && (p.outcome.err.None? ==> p.trace == plan && AllSucceed(r, p.trace))
    && (p.outcome.err.Some? ==>
          && |p.trace| > 0
          && AllSucceed(r, p.trace[..|p.trace| - 1])
          && StepError(r, p.trace[|p.trace| - 1]) == p.outcome.err)
  }

  lemma StepRunsPrefix(sql: string, h: Handle, r: Responses, action: Action)
    ensures RunsPrefixOf(Step(sql, Some(h), StepError(r, action), action), StepPlan(sql, action), r)
  {
  }

  /** Sequencing two phases that each stop at their first failure runs a
      prefix of the two plans one after the other and stops at the first
      failure of either. */
  lemma AndThenRunsPrefix(first: Phase, next: Phase, plan1: seq<Action>, plan2: seq<Action>, r: Responses)
    requires RunsPrefixOf(first, plan1, r)
    requires RunsPrefixOf(next, plan2, r)
    ensures RunsPrefixOf(AndThen(first, next), plan1 + plan2, r)
  {
  }

  /** The position of a bootstrap step in the sequence Start runs. */
  function StepRank(a: Action): nat
  {
    match a
    case ExecSetup => 0
    case ExecUpdate => 1
    case _ => 2
  }

  /** A bootstrap step is planned exactly when its SQL is non-empty, and the
      planned steps come in the order setup SQL, update SQL, revision query. */
  lemma PlannedAreBootstrapSteps(o: Options)
    ensures forall i :: 0 <= i < |Planned(o)| ==> IsBootstrapStep(Planned(o)[i])
    ensures forall i, j :: 0 <= i < j < |Planned(o)| ==> StepRank(Planned(o)[i]) < StepRank(Planned(o)[j])
    ensures (ExecSetup in Planned(o)) == (o.setupSql != "")
    ensures (ExecUpdate in Planned(o)) == (o.updateSql != "")
    ensures (QueryRevision in Planned(o)) == (o.getDbRevisionSql != "")
  {
  }

  /** On an open handle the bootstrap runs the steps its options ask for in
      the order setup, update, revision query, and stops at the first one
      that fails, returning that step's error; it never panics. */
  lemma BootstrapOnHandle(o: Options, r: Responses, h: Handle)
    ensures RunsPrefixOf(Bootstrap(o, r, Some(h)), Planned(o), r)
  {
    var s1 := Step(o.setupSql, Some(h), r.setup, ExecSetup);
    var s2 := Step(o.updateSql, Some(h), r.update, ExecUpdate);
    var s3 := Step(o.getDbRevisionSql, Some(h), RevisionError(r.revision), QueryRevision);
    StepRunsPrefix(o.setupSql, h, r, ExecSetup);
    StepRunsPrefix(o.updateSql, h, r, ExecUpdate);
    StepRunsPrefix(o.getDbRevisionSql, h, r, QueryRevision);
    AndThenRunsPrefix(s2, s3, StepPlan(o.updateSql, ExecUpdate), StepPlan(o.getDbRevisionSql, QueryRevision), r);
    AndThenRunsPrefix(s1, AndThen(s2, s3), StepPlan(o.setupSql, ExecSetup),
                      StepPlan(o.updateSql, ExecUpdate) + StepPlan(o.getDbRevisionSql, QueryRevision), r);
  }

  /** On a nil handle the bootstrap reaches no database: it returns nil when
      there is nothing to run and panics otherwise. */
  lemma BootstrapOnNilHandle(o: Options, r: Responses)
    ensures Bootstrap(o, r, None) == Phase(if Planned(o) == [] then Return(None) else NilPointerPanic, [])
  {
  }

  /** A trace without opens and sleeps. */
  ghost predicate Unconnected(t: seq<Action>)
  {
    CountOf(t, IsOpen) == 0 && CountOf(t, IsSleep) == 0
  }

  /** The bootstrap steps neither open nor sleep. */
  lemma BootstrapDoesNotConnect(o: Options, r: Responses, db: Option<Handle>)
    ensures Unconnected(Bootstrap(o, r, db).trace)
  {
    var s1 := Step(o.setupSql, db, r.setup, ExecSetup);
    var s2 := Step(o.updateSql, db, r.update, ExecUpdate);
    var s3 := Step(o.getDbRevisionSql, db, RevisionError(r.revision), QueryRevision);
    var q := AndThen(s2, s3);
    assert [ExecSetup][1..] == [] && [ExecUpdate][1..] == [] && [QueryRevision][1..] == [];
    assert Unconnected(s1.trace) && Unconnected(s2.trace) && Unconnected(s3.trace);
    CountOfAppend(s2.trace, s3.trace, IsOpen);
    CountOfAppend(s2.trace, s3.trace, IsSleep);
    assert Unconnected(q.trace);
    CountOfAppend(s1.trace, q.trace, IsOpen);
    CountOfAppend(s1.trace, q.trace, IsSleep);
  }

  /** When the setup SQL fails, Start returns its error, runs neither the
      update SQL nor the revision query, and leaves the error field nil. */
  lemma SetupFailureSkipsLaterSteps(c: Config, o: Options, r: Responses, db: Option<Handle>, k: nat)
    requires ConnectsAt(r.attempt, c.maxRetries, k)
    requires o.setupSql != "" && r.setup.Some?
    ensures var conn := Connect(r.attempt, c.maxRetries, c.retryInterval, db);
      var run := StartRun(c, o, r, db);
      && run.outcome == Return(r.setup)
      && run.trace == conn.trace + [ExecSetup]
      && run.error == None
  {
    FirstSuccessAt(c, o, r, db, k);
  }

  /** When the update SQL fails after the setup SQL succeeded or was skipped,
      Start returns its error, does not run the revision query, and leaves
      the error field nil. */
  lemma UpdateFailureSkipsRevisionQuery(c: Config, o: Options, r: Responses, db: Option<Handle>, k: nat)
    requires ConnectsAt(r.attempt, c.maxRetries, k)
    requires o.setupSql == "" || r.setup.None?
    requires o.updateSql != "" && r.update.Some?
    ensures var conn := Connect(r.attempt, c.maxRetries, c.retryInterval, db);
      var run := StartRun(c, o, r, db);
      && run.outcome == Return(r.update)
      && run.trace == conn.trace + (if o.setupSql != "" then [ExecSetup] else []) + [ExecUpdate]
      && run.error == None
  {
    FirstSuccessAt(c, o, r, db, k);
  }

  /** A failing revision query is fatal to Start even though the connection
      and both scripts succeeded, and it too leaves the error field nil. */
  lemma RevisionFailureIsFatal(c: Config, o: Options, r: Responses, db: Option<Handle>, k: nat)
    requires ConnectsAt(r.attempt, c.maxRetries, k)
    requires o.setupSql == "" || r.setup.None?
    requires o.updateSql == "" || r.update.None?
    requires o.getDbRevisionSql != "" && r.revision.Failure?
    ensures var conn := Connect(r.attempt, c.maxRetries, c.retryInterval, db);
      var run := StartRun(c, o, r, db);
      && run.outcome == Return(Some(r.revision.error))
      && run.trace == conn.trace + Planned(o)
      && run.error == None
  {
    FirstSuccessAt(c, o, r, db, k);
  }

  /** Once connected, Start returns nil exactly when every step its options
      ask for ran and succeeded. */
  lemma StartSucceedsIffAllStepsSucceed(c: Config, o: Options, r: Responses, db: Option<Handle>, k: nat)
    requires ConnectsAt(r.attempt, c.maxRetries, k)
    ensures var conn := Connect(r.attempt, c.maxRetries, c.retryInterval, db);
      var run := StartRun(c, o, r, db);
      && run.outcome.Return?
      && (run.outcome == Return(None) <==>
            run.trace == conn.trace + Planned(o) && AllSucceed(r, Planned(o)))
  {
    FirstSuccessAt(c, o, r, db, k);
    var conn := Connect(r.attempt, c.maxRetries, c.retryInterval, db);
    BootstrapOnHandle(o, r, conn.db.value);
    var boot := Bootstrap(o, r, conn.db);
    if boot.outcome.err.Some? && boot.trace == Planned(o) {
      assert !AllSucceed(r, Planned(o)) by {
        assert StepError(r, Planned(o)[|Planned(o)| - 1]).Some?;
      }
    }
  }

  // ---------------------------------------------------------------------
  // Sticky errors and Health

  /** Start never changes the error field after the connection loop: only a
      connection error is sticky. */
  lemma OnlyConnectionErrorsAreSticky(c: Config, o: Options, r: Responses, db: Option<Handle>)
    ensures StartRun(c, o, r, db).error == Connect(r.attempt, c.maxRetries, c.retryInterval, db).error
  {
  }

  /** After a Start whose attempts all failed, every Health call returns the
      error Start returned, whatever the ping would answer. */
  lemma HealthAfterFailedConnect(c: Config, o: Options, r: Responses, db: Option<Handle>, ping: Option<Error>)
    requires c.maxRetries > 0
    requires forall i: nat :: i < c.maxRetries ==> Fails(r.attempt(i))
    ensures var run := StartRun(c, o, r, db);
      && run.outcome.Return? && run.outcome.err.Some?
      && HealthResult(run.error, run.db, ping) == run.outcome
  {
    AllAttemptsFail(c, o, r, db);
  }

  /** After a Start that connected, Health pings the handle and returns the
      ping's result, even when a bootstrap step made Start fail, and whatever
      error an earlier Start left behind. */
  lemma HealthAfterConnect(c: Config, o: Options, r: Responses, db: Option<Handle>, k: nat, ping: Option<Error>)
    requires ConnectsAt(r.attempt, c.maxRetries, k)
    ensures var run := StartRun(c, o, r, db);
      HealthResult(run.error, run.db, ping) == Return(ping)
  {
    FirstSuccessAt(c, o, r, db, k);
  }

  /** A service built without options has nothing to bootstrap: Start
      performs only the connection loop and returns exactly the connection
      error, nil when it connected or made no attempt. */
  lemma DefaultOptionsRunNoBootstrap(c: Config, r: Responses, db: Option<Handle>)
    ensures var o := GousuPostgres.OptionsOrDefault(None);
      var run := StartRun(c, o, r, db);
      && Planned(o) == []
      && run.trace == Connect(r.attempt, c.maxRetries, c.retryInterval, db).trace
      && run.outcome == Return(run.error)
  {
  }

  /** With three retries, two failed attempts and a success, and no SQL
      configured, Start returns nil after three attempts and two sleeps, and
      Health then reports the ping's nil. */
  lemma ConnectOnThirdAttempt(c: Config, r: Responses, db: Option<Handle>)
    requires c.maxRetries == 3
    requires Fails(r.attempt(0)) && Fails(r.attempt(1)) && !Fails(r.attempt(2))
    ensures var run := StartRun(c, Options("", "", ""), r, db);
      && run.outcome == Return(None)
      && CountOf(run.trace, IsOpen) == 3
      && CountOf(run.trace, IsSleep) == 2
      && HealthResult(run.error, run.db, None) == Return(None)
  {
    var o := Options("", "", "");
    assert ConnectsAt(r.attempt, c.maxRetries, 3);
    FirstSuccessAt(c, o, r, db, 3);
    var conn := Connect(r.attempt, c.maxRetries, c.retryInterval, db);
    assert StartRun(c, o, r, db).trace == conn.trace + [] == conn.trace;
  }
}

// The bun client bring-up of postgresql/bunframework (config.go and
// utils.go): connect, wait for the database, optionally reset the test
// schema, optionally migrate. Each external step's outcome is an input,
// and the steps taken are reported as a trace of events.
module BunFramework {
  import opened Wrappers
  import opened GoErrors
  import opened Drivers
  import Communication
  import Migrations

  /**
   * The DriverConfig interface: Connect(options) for some driver
   * (PgConfig.Connect, PgxConfig.Connect or any other implementation).
   */
  type DriverConfig = seq<DbOption> -> ConnectResult

  datatype Config = Config(
    driver: DriverConfig,
    migrations: Migrations.MigrateConfig?,
    discardUnknownColumns: bool,
    resetOnConn: bool,
    options: seq<DbOption>)

  /** computeInternalOptions: the configured options, then the discard option when asked for. */
  function ComputeInternalOptions(config: Config): (options: seq<DbOption>)
    ensures |options| == |config.options| + (if config.discardUnknownColumns then 1 else 0)
    ensures options[..|config.options|] == config.options
    ensures config.discardUnknownColumns ==> options[|options| - 1] == WithDiscardUnknownColumns
  {
    if config.discardUnknownColumns then config.options + [WithDiscardUnknownColumns] else config.options
  }

  /** PingDatabase: the k-th probe is the k-th PingContext on the given handle. */
  function PingDatabase(database: DB, pingContext: (DB, nat) -> Option<Error>): (ping: nat -> Option<Error>)
    ensures forall k: nat :: ping(k) == pingContext(database, k)
  {
    (k: nat) => pingContext(database, k)
  }

  /** What NewClient does to the outside world, in order. */
  datatype Event =
    | Pinged(pings: nat)
    | Exec(statement: string)
    | CloseDB
    | CloseSql
    | Migrated(result: Option<Error>)

  const ConnectFailure := "failed to connect to database client: "
  const PingFailure := "failed to reach postgres database: "
  const ErrResetOutsideTests := Leaf("ResetOnConn flag is only available in test environments")
  const DropSchema := "DROP SCHEMA IF EXISTS test CASCADE;"
  const CreateSchema := "CREATE SCHEMA IF NOT EXISTS test;"
  const GrantSchema := "GRANT ALL ON SCHEMA test TO test;"

  /** The reset statements in the order they run; the grant is issued twice. */
  const ResetStatements := [DropSchema, CreateSchema, GrantSchema, GrantSchema]

  /** The statements a trace executed, in order. */
  function Statements(trace: seq<Event>): seq<string>
  {
    if |trace| == 0 then []
    else Statements(trace[..|trace| - 1]) + (if trace[|trace| - 1].Exec? then [trace[|trace| - 1].statement] else [])
  }

  lemma {:induction false} StatementsAppend(trace: seq<Event>, more: seq<Event>)
    ensures Statements(trace + more) == Statements(trace) + Statements(more)
    decreases |more|
  {
    if |more| == 0 {
      assert trace + more == trace;
    } else {
      assert (trace + more)[..|trace + more| - 1] == trace + more[..|more| - 1];
      StatementsAppend(trace, more[..|more| - 1]);
    }
  }

  /** Both handles closed, once each, as the last two events. */
  predicate ClosedOnce(trace: seq<Event>)
  {
    && |trace| >= 2
    && trace[|trace| - 2..] == [CloseDB, CloseSql]
    && CloseDB !in trace[..|trace| - 2]
    && CloseSql !in trace[..|trace| - 2]
  }

  /**
   * The discipline of every trace that got past the connection: both
   * handles closed once at the end of a failure and never on success;
   * the reset statements run as a prefix of their list, only when
   * ResetOnConn is set and ENV is "test", and all of them on success;
   * migrations run only when there is something to migrate, on success
   * always, and their failure is the error returned.
   */
  predicate WellSequenced(config: Config, env: string, trace: seq<Event>, err: Option<Error>)
    reads config.migrations
  {
    && (err.None? ==> CloseDB !in trace && CloseSql !in trace)
    && (err.Some? ==> ClosedOnce(trace))
    && Statements(trace) <= ResetStatements
    && (!config.resetOnConn || env != "test" ==> Statements(trace) == [])
    && (err.None? && config.resetOnConn ==> Statements(trace) == ResetStatements)
    && (!HasSources(config.migrations) ==> forall ev :: ev in trace ==> !ev.Migrated?)
    && (err.None? && HasSources(config.migrations) ==> Migrated(None) in trace)
    && (forall ev :: ev in trace && ev.Migrated? && ev.result.Some? ==> err == ev.result)
  }

  predicate HasSources(m: Migrations.MigrateConfig?)
    reads m
  {
    m != null && (|m.files| > 0 || |m.goMigrations| > 0)
  }

  /** One more event: only an Exec adds a statement, its own, at the end. */
  lemma StatementsSnoc(trace: seq<Event>, ev: Event)
    ensures Statements(trace + [ev]) == Statements(trace) + (if ev.Exec? then [ev.statement] else [])
  {
    assert (trace + [ev])[..|trace|] == trace;
  }

  /** Closing both handles adds no statement. */
  lemma ClosesAddNothing(trace: seq<Event>)
    ensures Statements(trace + [CloseDB, CloseSql]) == Statements(trace)
  {
    StatementsSnoc(trace, CloseDB);
    StatementsSnoc(trace + [CloseDB], CloseSql);
    assert trace + [CloseDB] + [CloseSql] == trace + [CloseDB, CloseSql];
  }

  /** The events of the first `n` reset statements. */
  function ExecsOf(n: nat): seq<Event>
    requires n <= |ResetStatements|
  {
    seq(n, i requires 0 <= i < n => Exec(ResetStatements[i]))
  }

  /** The first `n` reset events are Exec events whose statements are the first `n` of the list. */
  lemma {:induction false} ExecsOfFacts(n: nat)
    requires n <= |ResetStatements|
    ensures forall ev :: ev in ExecsOf(n) ==> ev.Exec?
    ensures Statements(ExecsOf(n)) == ResetStatements[..n]
  {
    if n > 0 {
      ExecsOfFacts(n - 1);
      assert ExecsOf(n) == ExecsOf(n - 1) + [Exec(ResetStatements[n - 1])];
      StatementsSnoc(ExecsOf(n - 1), Exec(ResetStatements[n - 1]));
      assert ResetStatements[..n] == ResetStatements[..n - 1] + [ResetStatements[n - 1]];
    }
  }

  /**
   * How many reset statements run when `exec(i)` is the result of the
   * i-th: every one up to and including the first that fails.
   */
  function ResetCount(exec: nat -> Option<Error>): (n: nat)
    ensures 1 <= n <= |ResetStatements|
    ensures forall i :: 0 <= i < n - 1 ==> exec(i).None?
    ensures n < |ResetStatements| ==> exec(n - 1).Some?
  {
    if exec(0).Some? then 1
    else if exec(1).Some? then 2
    else if exec(2).Some? then 3
    else 4
  }

  /** The reset fails exactly when one of its statements fails, and then with the first such failure. */
  lemma ResetFailsAtFirst(exec: nat -> Option<Error>)
    ensures exec(ResetCount(exec) - 1).None? <==> forall i :: 0 <= i < |ResetStatements| ==> exec(i).None?
    ensures exec(ResetCount(exec) - 1).Some? ==>
      exists k :: 0 <= k < |ResetStatements| && exec(k).Some? && exec(ResetCount(exec) - 1) == exec(k)
        && forall i :: 0 <= i < k ==> exec(i).None?
  {
    var n := ResetCount(exec);
    if exec(n - 1).Some? {
      assert 0 <= n - 1 < |ResetStatements| && exec(n - 1).Some?;
    }
  }

  /**
   * The reset of the test schema: each statement in turn, stopping at
   * the first one that fails. Only Exec events are produced.
   */
  method ResetSchema(exec: nat -> Option<Error>) returns (executed: seq<Event>, err: Option<Error>)
    ensures executed == ExecsOf(ResetCount(exec))
    ensures forall ev :: ev in executed ==> ev.Exec?
    ensures Statements(executed) == ResetStatements[..ResetCount(exec)]
    ensures 1 <= |Statements(executed)|
    ensures forall i :: 0 <= i < |Statements(executed)| - 1 ==> exec(i).None?
    ensures err == exec(|Statements(executed)| - 1)
    ensures err.None? ==> Statements(executed) == ResetStatements
    ensures |Statements(executed)| < |ResetStatements| ==> err.Some?
  {
    executed := ExecsOf(1);
    err := exec(0);
    ExecsOfFacts(1);
    if err.Some? {
      return;
    }

    executed := ExecsOf(2);
    err := exec(1);
    ExecsOfFacts(2);
    if err.Some? {
      return;
    }

    executed := ExecsOf(3);
    err := exec(2);
    ExecsOfFacts(3);
    if err.Some? {
      return;
    }

    executed := ExecsOf(4);
    err := exec(3);
    ExecsOfFacts(4);
    assert ResetStatements[..4] == ResetStatements;
  }

  /**
   * NewClient. `pingContext(db, k)` is the k-th PingContext result,
   * `elapsed` the readiness wait's clock, `env` the ENV variable,
   * `exec(i)` the result of the i-th reset statement, and `store` /
   * `backend` the migration table and library behind the handle.
   */
  method NewClient(
    config: Config,
    pingContext: (DB, nat) -> Option<Error>,
    elapsed: nat -> int,
    env: string,
    exec: nat -> Option<Error>,
    store: Migrations.Database,
    backend: Migrations.Backend)
    returns (db: Option<DB>, sqlDB: Option<SqlDB>, err: Option<Error>, trace: seq<Event>)
    requires Communication.ClockAdvances(elapsed, Communication.DefaultRetryInterval)
    modifies config.migrations, store
    ensures var c := old(config.driver(ComputeInternalOptions(config)));
      c.ConnectFailed? ==> err == Some(Wrapped(ConnectFailure, c.err, "")) && trace == []
    ensures var c := old(config.driver(ComputeInternalOptions(config)));
      c.Connected? ==>
        && |trace| >= 1 && trace[0].Pinged? && 1 <= trace[0].pings <= 41
        && Communication.StoppedAt(PingDatabase(c.db, pingContext), elapsed, Communication.DefaultRetryTimeout, trace[0].pings)
    ensures var c := old(config.driver(ComputeInternalOptions(config)));
      c.Connected? && |trace| >= 1 && trace[0].Pinged? && trace[0].pings >= 1
      && old(pingContext(c.db, trace[0].pings - 1)).Some? ==>
        && trace == [trace[0], CloseDB, CloseSql]
        && err == Some(Wrapped(PingFailure, old(pingContext(c.db, trace[0].pings - 1)).value, ""))
    ensures var c := old(config.driver(ComputeInternalOptions(config)));
      c.Connected? && |trace| >= 1 && trace[0].Pinged? && trace[0].pings >= 1
      && old(pingContext(c.db, trace[0].pings - 1)).None? ==>
        && err == old(ConfigureResult(config, env, exec, store.applied, backend))
        && (err.None? ==> db == Some(c.db) && sqlDB == Some(c.sqlDB) && CloseDB !in trace && CloseSql !in trace)
    ensures var c := old(config.driver(ComputeInternalOptions(config)));
      c.Connected? && err.None? ==> db == Some(c.db) && sqlDB == Some(c.sqlDB)
    ensures err.Some? ==> db.None? && sqlDB.None?
    ensures trace != [] ==> WellSequenced(config, env, trace, err)
    ensures config.resetOnConn && env != "test" && trace != [] ==> err.Some?
  {
    db, sqlDB, trace := None, None, [];
    var c := config.driver(ComputeInternalOptions(config));
    if c.ConnectFailed? {
      return None, None, Some(Wrapped(ConnectFailure, c.err, "")), [];
    }
    var database := c.db;

    var ping := PingDatabase(database, pingContext);
    var pingErr, pings, _ := Communication.WaitForPingAuto(ping, elapsed);
    assert pingErr == pingContext(database, pings - 1);
    if pingErr.Some? {
      PingFailed(config, env, pings, Wrapped(PingFailure, pingErr.value, ""));
      trace := [Pinged(pings), CloseDB, CloseSql];
      return None, None, Some(Wrapped(PingFailure, pingErr.value, "")), trace;
    }

    var steps, e := Configure(config, env, exec, store, backend);
    AfterPing(config, env, pings, steps, e);
    trace := [Pinged(pings)] + steps;
    if e.Some? {
      return None, None, e, trace;
    }
    return Some(database), Some(c.sqlDB), None, trace;
  }

  /** The ping event in front of the later steps adds no statement, no close and no migration. */
  lemma AfterPing(config: Config, env: string, pings: nat, steps: seq<Event>, err: Option<Error>)
    requires WellSequenced(config, env, steps, err)
    ensures WellSequenced(config, env, [Pinged(pings)] + steps, err)
  {
    var trace := [Pinged(pings)] + steps;
    StatementsAppend([Pinged(pings)], steps);
    assert Statements([Pinged(pings)]) == [] by {
      assert [Pinged(pings)][..0] == [];
    }
    if err.Some? {
      assert trace[|trace| - 2..] == steps[|steps| - 2..];
      assert trace[..|trace| - 2] == [Pinged(pings)] + steps[..|steps| - 2];
    }
    assert forall ev :: ev in trace && ev.Migrated? ==> ev in steps;
  }

  /** A failed readiness wait closes both handles and does nothing else. */
  lemma PingFailed(config: Config, env: string, pings: nat, e: Error)
    ensures WellSequenced(config, env, [Pinged(pings), CloseDB, CloseSql], Some(e))
  {
    ClosesAddNothing([]);
    assert [] + [CloseDB, CloseSql] == [CloseDB, CloseSql];
    StatementsAppend([Pinged(pings)], [CloseDB, CloseSql]);
    assert Statements([Pinged(pings)]) == [] by {
      assert [Pinged(pings)][..0] == [];
    }
    assert [Pinged(pings)] + [CloseDB, CloseSql] == [Pinged(pings), CloseDB, CloseSql];
  }

  /**
   * The error of the steps after the readiness wait: the reset's, else
   * the error Execute gives on the table `applied` when there is
   * something to migrate.
   */
  function ConfigureResult(
    config: Config,
    env: string,
    exec: nat -> Option<Error>,
    applied: seq<Migrations.Record>,
    backend: Migrations.Backend): Option<Error>
    reads config.migrations
  {
    var reset := ResetResult(config, env, exec);
    if reset.Some? then reset
    else if HasSources(config.migrations) then
      Migrations.ExecuteError(config.migrations.files, config.migrations.goMigrations, applied, backend)
    else None
  }

  /**
   * The steps after the readiness wait succeed exactly when the reset is
   * off or runs all four statements in the test environment, and the
   * migrations, if any, run without error.
   */
  lemma ConfigureSucceeds(
    config: Config,
    env: string,
    exec: nat -> Option<Error>,
    applied: seq<Migrations.Record>,
    backend: Migrations.Backend)
    ensures ConfigureResult(config, env, exec, applied, backend).None? <==>
      && (!config.resetOnConn || (env == "test" && forall i :: 0 <= i < |ResetStatements| ==> exec(i).None?))
      && (HasSources(config.migrations) ==>
            Migrations.ExecuteError(config.migrations.files, config.migrations.goMigrations, applied, backend).None?)
  {
    ResetFailsAtFirst(exec);
  }

  /**
   * The steps of NewClient once the database answers: the guarded reset
   * of the test schema, then the migrations. Every failure closes both
   * handles before returning.
   */
  method Configure(
    config: Config,
    env: string,
    exec: nat -> Option<Error>,
    store: Migrations.Database,
    backend: Migrations.Backend)
    returns (steps: seq<Event>, err: Option<Error>)
    modifies config.migrations, store
    ensures err == old(ConfigureResult(config, env, exec, store.applied, backend))
    ensures forall ev :: ev in steps && ev.Migrated? ==> ev.result == err
    ensures ResetResult(config, env, exec).None? && old(HasSources(config.migrations)) ==> Migrated(err) in steps
    ensures WellSequenced(config, env, steps, err)
    ensures config.resetOnConn && env != "test" ==> err == Some(ErrResetOutsideTests) && steps == [CloseDB, CloseSql]
  {
    steps, err := ResetStage(config, env, exec);
    if err.Some? {
      return;
    }

    var migrations := config.migrations;
    if migrations != null && (|migrations.files| > 0 || |migrations.goMigrations| > 0) {
      var e := migrations.Execute(store, backend);
      if e.Some? {
        MigrationFailed(steps, e);
        return steps + [Migrated(e)] + [CloseDB, CloseSql], e;
      }
      MigrationDone(steps, e);
      steps := steps + [Migrated(None)];
    }
  }

  /** A migration that failed after the reset: its event, then both closes, and no statement. */
  lemma MigrationFailed(steps: seq<Event>, result: Option<Error>)
    requires forall ev :: ev in steps ==> ev.Exec?
    ensures var failed := steps + [Migrated(result)] + [CloseDB, CloseSql];
      && ClosedOnce(failed)
      && Statements(failed) == Statements(steps)
      && (forall ev :: ev in failed ==> !ev.Pinged?)
      && (forall ev :: ev in failed && ev.Migrated? ==> ev == Migrated(result))
  {
    MigrationDone(steps, result);
    var done := steps + [Migrated(result)];
    ClosesAddNothing(done);
    CloseAfter(done);
  }

  /** Both closes appended to a trace that has none are closed once. */
  lemma CloseAfter(trace: seq<Event>)
    requires CloseDB !in trace && CloseSql !in trace
    ensures ClosedOnce(trace + [CloseDB, CloseSql])
  {
    var closed := trace + [CloseDB, CloseSql];
    assert closed[..|closed| - 2] == trace;
    assert closed[|closed| - 2..] == [CloseDB, CloseSql];
  }

  /** A migration that succeeded after the reset: its event only, and no statement. */
  lemma MigrationDone(steps: seq<Event>, result: Option<Error>)
    requires forall ev :: ev in steps ==> ev.Exec?
    ensures var done := steps + [Migrated(result)];
      && Statements(done) == Statements(steps)
      && CloseDB !in done && CloseSql !in done
      && (forall ev :: ev in done ==> !ev.Pinged?)
      && (forall ev :: ev in done && ev.Migrated? ==> ev == Migrated(result))
  {
    StatementsSnoc(steps, Migrated(result));
  }

  /** The error of the reset half of Configure: the ENV guard, then the first failing statement. */
  function ResetResult(config: Config, env: string, exec: nat -> Option<Error>): Option<Error>
  {
    if !config.resetOnConn then None
    else if env != "test" then Some(ErrResetOutsideTests)
    else exec(ResetCount(exec) - 1)
  }

  /** The reset half of Configure: the ENV guard, then the reset statements. */
  method ResetStage(config: Config, env: string, exec: nat -> Option<Error>) returns (steps: seq<Event>, err: Option<Error>)
    ensures err == ResetResult(config, env, exec)
    ensures config.resetOnConn && env == "test" ==>
      && Statements(steps) == ResetStatements[..ResetCount(exec)]
      && (err.None? <==> forall i :: 0 <= i < |ResetStatements| ==> exec(i).None?)
    ensures err.None? ==> forall ev :: ev in steps ==> ev.Exec?
    ensures err.Some? ==> ClosedOnce(steps) && forall ev :: ev in steps ==> ev.Exec? || ev.CloseDB? || ev.CloseSql?
    ensures Statements(steps) <= ResetStatements
    ensures !config.resetOnConn || env != "test" ==> Statements(steps) == []
    ensures config.resetOnConn && env != "test" ==> err == Some(ErrResetOutsideTests) && steps == [CloseDB, CloseSql]
    ensures err.None? && config.resetOnConn ==> Statements(steps) == ResetStatements
  {
    steps, err := [], None;
    if config.resetOnConn {
      if env != "test" {
        ClosesAddNothing([]);
        return [CloseDB, CloseSql], Some(ErrResetOutsideTests);
      }

      var executed, e := ResetSchema(exec);
      ResetFailsAtFirst(exec);
      assert CloseDB !in executed && CloseSql !in executed;
      if e.Some? {
        ClosesAddNothing(executed);
        return executed + [CloseDB, CloseSql], e;
      }
      steps := executed;
    }
  }

  /** NewClientWithDriver: the driver's Connect with no option, and nothing else. */
  method NewClientWithDriver(driver: DriverConfig) returns (r: ConnectResult)
    ensures r == driver([])
  {
    r := driver([]);
  }
}

/**
 * The library surfaces the framework configures: pgdriver options, the record pgx parses a DSN into,
 * bun's DB options and the handles a driver's Connect returns. Their internals are not modelled;
 * opaque library values (TLS configurations, loggers, caller-supplied options) are identified by a number.
 */
module Drivers {
  import opened Wrappers
  import opened GoErrors

  /** A *tls.Config. */
  datatype TlsConfig = TlsConfig(id: nat)

  /** A value of a connection parameter (an interface{} in the source). */
  datatype ParamValue = ParamValue(id: nat)

  /** A pgdriver.Option. Durations are nanosecond counts. */
  datatype PgOption =
    | CustomPgOption(id: nat)
    | WithDSN(dsn: string)
    | WithAddr(addr: string)
    | WithApplicationName(appName: string)
    | WithConnParams(params: map<string, ParamValue>)
    | WithDatabase(database: string)
    | WithDialTimeout(dialTimeout: int)
    | WithInsecure(insecure: bool)
    | WithNetwork(network: string)
    | WithPassword(password: string)
    | WithReadTimeout(readTimeout: int)
    | WithTimeout(timeout: int)
    | WithUser(user: string)
    | WithWriteTimeout(writeTimeout: int)
    | WithTLSConfig(tls: TlsConfig)

  /** A pgx.Logger and a pgx.BuildStatementCacheFunc. */
  datatype Logger = Logger(id: nat)
  datatype StatementCacheBuilder = StatementCacheBuilder(id: nat)

  /** The fields of pgx.ConnConfig the framework touches; `rest` stands for everything else pgx.ParseConfig fills in. */
  datatype ConnConfig = ConnConfig(
    preferSimpleProtocol: bool,
    logger: Option<Logger>,
    logLevel: int,
    buildStatementCache: Option<StatementCacheBuilder>,
    rest: nat)

  /** What pgx.ParseConfig makes of a DSN. */
  datatype ParseOutcome = Parsed(config: ConnConfig) | ParseFailed(err: Error)

  /** A bun.DBOption. */
  datatype DbOption = CustomDbOption(id: nat) | WithDiscardUnknownColumns

  /** The *sql.DB behind a bun handle: a pgdriver connector or a pgx connection configuration. */
  datatype SqlDB = PgConnector(pgOptions: seq<PgOption>) | PgxConnector(pgxConfig: ConnConfig)

  /** A *bun.DB: the sql handle, the Postgres dialect (the only one used), and the options it was opened with. */
  datatype DB = DB(sqlDB: SqlDB, options: seq<DbOption>)

  /** The three results of DriverConfig.Connect. */
  datatype ConnectResult = Connected(db: DB, sqlDB: SqlDB) | ConnectFailed(err: Error)

  /**
   * bun.NewDB over an sql handle, with the Postgres dialect: the record
   * standing for the *bun.DB a Connect returns next to its *sql.DB.
   */
  function OpenDB(sqlDB: SqlDB, options: seq<DbOption>): ConnectResult
  {
    Connected(DB(sqlDB, options), sqlDB)
  }
}

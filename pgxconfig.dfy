/**
 * pgxconfig: the Driver record for jackc/pgx, and the conditional overrides it applies to the
 * connection configuration pgx parses from the DSN.
 */
module PgxConfig {
  import opened Wrappers
  import opened GoErrors
  import opened Drivers

  /** The Driver record; nil Logger / BuildStatementCache are None, and a zero LogLevel means "no override". */
  datatype Driver = Driver(
    dsn: string,
    keepImplicitPreparedStatements: bool,
    logger: Option<Logger>,
    logLevel: int,
    buildStatementCache: Option<StatementCacheBuilder>)

  /** A Driver with only a DSN. */
  function NewDriverWithDSN(dsn: string): (d: Driver)
    ensures d.dsn == dsn
    ensures !d.keepImplicitPreparedStatements && d.logger.None? && d.logLevel == 0 && d.buildStatementCache.None?
  {
    Driver(dsn, false, None, 0, None)
  }

  /**
   * Driver.Connect. `parseConfig` stands for pgx.ParseConfig. The parsed record is updated field by
   * field: the simple protocol is forced unless implicit prepared statements are kept, and the
   * logger, log level and statement cache builder are replaced only when the Driver sets them.
   */
  method Connect(config: Driver, parseConfig: string -> ParseOutcome, options: seq<DbOption>)
    returns (r: ConnectResult)
    ensures parseConfig(config.dsn).ParseFailed? ==> r == ConnectFailed(parseConfig(config.dsn).err)
    ensures parseConfig(config.dsn).Parsed? ==>
      && r.Connected?
      && r.db.options == options
      && r.db.sqlDB == r.sqlDB
      && r.sqlDB.PgxConnector?
      && var parsed := parseConfig(config.dsn).config;
      var used := r.sqlDB.pgxConfig;
      && used.preferSimpleProtocol == (!config.keepImplicitPreparedStatements || parsed.preferSimpleProtocol)
      && used.logger == (if config.logger.Some? then config.logger else parsed.logger)
      && used.logLevel == (if config.logLevel != 0 then config.logLevel else parsed.logLevel)
      && used.buildStatementCache == (if config.buildStatementCache.Some? then config.buildStatementCache else parsed.buildStatementCache)
      && used.rest == parsed.rest
      && used == Overridden(config, parsed)
  {
    var outcome := parseConfig(config.dsn);
    if outcome.ParseFailed? {
      return ConnectFailed(outcome.err);
    }
    var pgxConfig := outcome.config;

    if !config.keepImplicitPreparedStatements {
      pgxConfig := pgxConfig.(preferSimpleProtocol := true);
    }

    if config.logger.Some? {
      pgxConfig := pgxConfig.(logger := config.logger);
    }
    if config.logLevel != 0 {
      pgxConfig := pgxConfig.(logLevel := config.logLevel);
    }
    if config.buildStatementCache.Some? {
      pgxConfig := pgxConfig.(buildStatementCache := config.buildStatementCache);
    }

    var sqlDB := PgxConnector(pgxConfig);
    r := OpenDB(sqlDB, options);
  }

  /** The parsed record after Connect's overrides. */
  function Overridden(config: Driver, parsed: ConnConfig): ConnConfig
  {
    parsed.(
      preferSimpleProtocol := !config.keepImplicitPreparedStatements || parsed.preferSimpleProtocol,
      logger := if config.logger.Some? then config.logger else parsed.logger,
      logLevel := if config.logLevel != 0 then config.logLevel else parsed.logLevel,
      buildStatementCache := if config.buildStatementCache.Some? then config.buildStatementCache else parsed.buildStatementCache)
  }

  /** A Driver made from a DSN alone forces the simple protocol and leaves the rest as parsed. */
  lemma DsnOnlyForcesSimpleProtocol(dsn: string, parsed: ConnConfig)
    ensures Overridden(NewDriverWithDSN(dsn), parsed) == parsed.(preferSimpleProtocol := true)
  {
  }

  /**
   * Keeping implicit prepared statements never turns the simple protocol off: a DSN that asks
   * for it keeps it, whatever the Driver says.
   */
  lemma SimpleProtocolNeverCleared(config: Driver, parsed: ConnConfig)
    requires parsed.preferSimpleProtocol
    ensures Overridden(config, parsed).preferSimpleProtocol
  {
  }

  /** The overrides settle in one application: applying them again changes nothing. */
  lemma OverridesSettle(config: Driver, parsed: ConnConfig)
    ensures Overridden(config, Overridden(config, parsed)) == Overridden(config, parsed)
  {
  }
}

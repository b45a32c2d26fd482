/**
 * The option choices `TaskUtil` makes when it builds connection pools and
 * metadata managers. URL parsing, connecting and the metadata scan are
 * foreign calls, given as the fields of a `Database`; the model keeps the
 * options each call is made with and how its errors are propagated.
 */
module TaskUtil {
  import opened Common

  /** The `log` crate's level filters, from silent to most verbose. */
  datatype LevelFilter = Off | Error | Warn | Info | Debug | Trace

  function Verbosity(l: LevelFilter): nat
  {
    match l
    case Off => 0
    case Error => 1
    case Warn => 2
    case Info => 3
    case Debug => 4
    case Trace => 5
  }

  /**
   * The level filters by their exact lower-case names. Unlike the `log` crate's
   * case-insensitive parsing, any other spelling (`"DEBUG"`) names none here.
   */
  function ParseLevel(s: string): Option<LevelFilter>
  {
    if s == "off" then Some(Off)
    else if s == "error" then Some(Error)
    else if s == "warn" then Some(Warn)
    else if s == "info" then Some(Info)
    else if s == "debug" then Some(Debug)
    else if s == "trace" then Some(Trace)
    else None
  }

  /** SQL statement logging is wanted exactly when the task logs at debug or trace. */
  function CheckEnableSqlxLog(logLevel: string): (enabled: bool)
    ensures enabled <==> ParseLevel(logLevel).Some? && Verbosity(ParseLevel(logLevel).value) >= Verbosity(Debug)
  {
    logLevel == "debug" || logLevel == "trace"
  }

  /** The comparison is exact: only the two lower-case names enable logging. */
  lemma SqlxLogLevels()
    ensures CheckEnableSqlxLog("debug") && CheckEnableSqlxLog("trace")
    ensures !CheckEnableSqlxLog("info") && !CheckEnableSqlxLog("") && !CheckEnableSqlxLog("DEBUG")
    ensures !CheckEnableSqlxLog("Trace") && !CheckEnableSqlxLog(" debug")
  {
  }

  datatype Dialect = MySql | Postgres

  /** Where a connection goes, as parsed from the URL. */
  datatype Endpoint = Endpoint(host: string, port: nat, database: string, username: string)

  /** The statement-logging settings of a connection. */
  datatype StatementLogging = StatementLogging(
    statements: LevelFilter,
    slowStatements: LevelFilter,
    slowThresholdMillis: nat)

  datatype ConnectOptions = ConnectOptions(endpoint: Endpoint, logging: StatementLogging)

  datatype PoolOptions = PoolOptions(maxConnections: u32, connect: ConnectOptions)

  /** A connected pool, known by the options it was opened with. */
  datatype Pool = Pool(dialect: Dialect, options: PoolOptions)

  /** A metadata manager over its pool, after a successful `init`. */
  datatype MetaManager = MetaManager(dialect: Dialect, pool: Pool)

  datatype Error = Failure(message: string)

  /**
   * The foreign calls: parsing a URL into connect options, opening a pool
   * (`None` when it connects), and a metadata manager's `init` on a pool.
   */
  datatype Database = Database(
    parseUrl: (Dialect, string) -> Result<ConnectOptions, Error>,
    connect: (Dialect, PoolOptions) -> Option<Error>,
    initMeta: (Dialect, Pool) -> Option<Error>)

  /** Whether any statement is logged. */
  predicate LogsStatements(l: StatementLogging)
  {
    l.statements != Off || l.slowStatements != Off
  }

  const SlowStatementThresholdMillis: nat := 1000

  /** `disable_statement_logging`: both levels off, threshold reset to zero. */
  function DisableStatementLogging(o: ConnectOptions): (r: ConnectOptions)
    ensures r.endpoint == o.endpoint && !LogsStatements(r.logging)
  {
    o.(logging := StatementLogging(Off, Off, 0))
  }

  /**
   * Statements and slow statements logged at info with a one-second
   * threshold, then everything switched off unless logging is enabled.
   */
  function ConfigureLogging(o: ConnectOptions, enableSqlxLog: bool): (r: ConnectOptions)
    ensures r.endpoint == o.endpoint
    ensures LogsStatements(r.logging) <==> enableSqlxLog
    ensures enableSqlxLog ==> r.logging == StatementLogging(Info, Info, SlowStatementThresholdMillis)
    ensures !enableSqlxLog ==> r.logging.statements == Off && r.logging.slowStatements == Off
  {
    var logged := o.(logging := StatementLogging(Info, Info, SlowStatementThresholdMillis));
    if enableSqlxLog then logged else DisableStatementLogging(logged)
  }

  /** The logging settings do not depend on those the URL carried. */
  lemma LoggingIgnoresParsedSettings(a: ConnectOptions, b: ConnectOptions, enableSqlxLog: bool)
    ensures ConfigureLogging(a, enableSqlxLog).logging == ConfigureLogging(b, enableSqlxLog).logging
  {
  }

  /**
   * Parses the URL, sets the logging options, opens a pool of at most
   * `maxConnections`; a parse or connect error is returned as it is.
   */
  function CreateConnPool(db: Database, dialect: Dialect, url: string, maxConnections: u32, enableSqlxLog: bool)
    : (r: Result<Pool, Error>)
    ensures db.parseUrl(dialect, url).Err? ==> r == Err(db.parseUrl(dialect, url).error)
    ensures r.Ok? ==>
              && db.parseUrl(dialect, url).Ok?
              && r.value.dialect == dialect
              && r.value.options.maxConnections == maxConnections
              && r.value.options.connect.endpoint == db.parseUrl(dialect, url).value.endpoint
              && (LogsStatements(r.value.options.connect.logging) <==> enableSqlxLog)
              && db.connect(dialect, r.value.options).None?
    ensures db.parseUrl(dialect, url).Ok? ==>
              var options := PoolOptions(maxConnections, ConfigureLogging(db.parseUrl(dialect, url).value, enableSqlxLog));
              r == (if db.connect(dialect, options).Some? then Err(db.connect(dialect, options).value)
                    else Ok(Pool(dialect, options)))
  {
    match db.parseUrl(dialect, url)
    case Err(e) => Err(e)
    case Ok(parsed) =>
      var options := PoolOptions(maxConnections, ConfigureLogging(parsed, enableSqlxLog));
      match db.connect(dialect, options)
      case Some(e) => Err(e)
      case None => Ok(Pool(dialect, options))
  }

  function CreateMysqlConnPool(db: Database, url: string, maxConnections: u32, enableSqlxLog: bool)
    : (r: Result<Pool, Error>)
    ensures db.parseUrl(MySql, url).Err? ==> r.Err?
    ensures r.Ok? ==> r.value.dialect == MySql && r.value.options.maxConnections == maxConnections
    ensures r.Ok? ==> (LogsStatements(r.value.options.connect.logging) <==> enableSqlxLog)
  {
    CreateConnPool(db, MySql, url, maxConnections, enableSqlxLog)
  }

  function CreatePgConnPool(db: Database, url: string, maxConnections: u32, enableSqlxLog: bool)
    : (r: Result<Pool, Error>)
    ensures db.parseUrl(Postgres, url).Err? ==> r.Err?
    ensures r.Ok? ==> r.value.dialect == Postgres && r.value.options.maxConnections == maxConnections
    ensures r.Ok? ==> (LogsStatements(r.value.options.connect.logging) <==> enableSqlxLog)
  {
    CreateConnPool(db, Postgres, url, maxConnections, enableSqlxLog)
  }

  /**
   * A metadata manager over a single-connection pool whose statement logging
   * follows the log level; any error is returned as it is.
   */
  function CreateMetaManager(db: Database, dialect: Dialect, url: string, logLevel: string)
    : (r: Result<MetaManager, Error>)
    ensures r.Ok? ==>
              && r.value.dialect == dialect
              && r.value.pool.options.maxConnections == 1
              && (LogsStatements(r.value.pool.options.connect.logging) <==> CheckEnableSqlxLog(logLevel))
              && db.initMeta(dialect, r.value.pool).None?
    ensures db.parseUrl(dialect, url).Err? ==> r == Err(db.parseUrl(dialect, url).error)
    ensures CreateConnPool(db, dialect, url, 1, CheckEnableSqlxLog(logLevel)).Err? ==>
              r == Err(CreateConnPool(db, dialect, url, 1, CheckEnableSqlxLog(logLevel)).error)
    ensures CreateConnPool(db, dialect, url, 1, CheckEnableSqlxLog(logLevel)).Ok? &&
            db.initMeta(dialect, CreateConnPool(db, dialect, url, 1, CheckEnableSqlxLog(logLevel)).value).Some? ==>
              r == Err(db.initMeta(dialect, CreateConnPool(db, dialect, url, 1, CheckEnableSqlxLog(logLevel)).value).value)
  {
    match CreateConnPool(db, dialect, url, 1, CheckEnableSqlxLog(logLevel))
    case Err(e) => Err(e)
    case Ok(pool) =>
      match db.initMeta(dialect, pool)
      case Some(e) => Err(e)
      case None => Ok(MetaManager(dialect, pool))
  }

  function CreateMysqlMetaManager(db: Database, url: string, logLevel: string): (r: Result<MetaManager, Error>)
    ensures r.Ok? ==> r.value.dialect == MySql && r.value.pool.options.maxConnections == 1
    ensures r.Ok? ==> (LogsStatements(r.value.pool.options.connect.logging) <==> CheckEnableSqlxLog(logLevel))
  {
    CreateMetaManager(db, MySql, url, logLevel)
  }

  function CreatePgMetaManager(db: Database, url: string, logLevel: string): (r: Result<MetaManager, Error>)
    ensures r.Ok? ==> r.value.dialect == Postgres && r.value.pool.options.maxConnections == 1
    ensures r.Ok? ==> (LogsStatements(r.value.pool.options.connect.logging) <==> CheckEnableSqlxLog(logLevel))
  {
    CreateMetaManager(db, Postgres, url, logLevel)
  }

  /**
   * A metadata manager is built exactly when the URL parses, the
   * single-connection pool opens and `init` succeeds on it.
   */
  lemma MetaManagerSucceedsIff(db: Database, dialect: Dialect, url: string, logLevel: string)
    ensures CreateMetaManager(db, dialect, url, logLevel).Ok? <==>
              && db.parseUrl(dialect, url).Ok?
              && var options := PoolOptions(1, ConfigureLogging(db.parseUrl(dialect, url).value, CheckEnableSqlxLog(logLevel)));
              && db.connect(dialect, options).None?
              && db.initMeta(dialect, Pool(dialect, options)).None?
  {
  }
}

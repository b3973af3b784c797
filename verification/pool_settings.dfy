/**
 * The database pool configuration (poolConfig in the web command): the
 * configuration parsed from the connection string, with six pool settings
 * overridden by the application's configuration wherever that configuration
 * gives a nonzero value. Parsing the connection string is not part of this
 * model: the parsed configuration is a parameter.
 */
module PoolSettings {
  import opened GoTypes
  import Settings

  /** The connection part of a pool configuration (pgconn.Config, the fields kept here). */
  datatype ConnConfig = ConnConfig(host: string, port: int, database: string, user: string, connectTimeout: Duration)

  /** A pool configuration (pgxpool.Config, the fields kept here). */
  datatype PgxPoolConfig = PgxPoolConfig(
    connString: string,
    connConfig: ConnConfig,
    maxConns: Int32,
    minConns: Int32,
    maxConnLifetime: Duration,
    maxConnLifetimeJitter: Duration,
    maxConnIdleTime: Duration,
    healthCheckPeriod: Duration)

  /** The parsed configuration with each of the six settings taken from `conf` where it is nonzero. */
  function Overridden(conf: Settings.Config, parsed: PgxPoolConfig): (r: PgxPoolConfig)
    ensures conf.dbPoolMaxConns != 0 ==> r.maxConns == conf.dbPoolMaxConns
    ensures conf.dbPoolMaxConns == 0 ==> r.maxConns == parsed.maxConns
    ensures conf.dbPoolMinConns != 0 ==> r.minConns == conf.dbPoolMinConns
    ensures conf.dbPoolMinConns == 0 ==> r.minConns == parsed.minConns
    ensures conf.dbPoolMaxConnLifetime != 0 ==> r.maxConnLifetime == conf.dbPoolMaxConnLifetime
    ensures conf.dbPoolMaxConnLifetime == 0 ==> r.maxConnLifetime == parsed.maxConnLifetime
    ensures conf.dbPoolMaxConnIdleTime != 0 ==> r.maxConnIdleTime == conf.dbPoolMaxConnIdleTime
    ensures conf.dbPoolMaxConnIdleTime == 0 ==> r.maxConnIdleTime == parsed.maxConnIdleTime
    ensures conf.dbPoolHealthCheckPeriod != 0 ==> r.healthCheckPeriod == conf.dbPoolHealthCheckPeriod
    ensures conf.dbPoolHealthCheckPeriod == 0 ==> r.healthCheckPeriod == parsed.healthCheckPeriod
    ensures conf.dbPoolConnectTimeout != 0 ==> r.connConfig.connectTimeout == conf.dbPoolConnectTimeout
    ensures conf.dbPoolConnectTimeout == 0 ==> r.connConfig.connectTimeout == parsed.connConfig.connectTimeout
    ensures r.connString == parsed.connString && r.maxConnLifetimeJitter == parsed.maxConnLifetimeJitter
    ensures r.connConfig.(connectTimeout := parsed.connConfig.connectTimeout) == parsed.connConfig
  {
    PgxPoolConfig(
      parsed.connString,
      parsed.connConfig.(connectTimeout := Pick(conf.dbPoolConnectTimeout, parsed.connConfig.connectTimeout)),
      Pick32(conf.dbPoolMaxConns, parsed.maxConns),
      Pick32(conf.dbPoolMinConns, parsed.minConns),
      Pick(conf.dbPoolMaxConnLifetime, parsed.maxConnLifetime),
      parsed.maxConnLifetimeJitter,
      Pick(conf.dbPoolMaxConnIdleTime, parsed.maxConnIdleTime),
      Pick(conf.dbPoolHealthCheckPeriod, parsed.healthCheckPeriod))
  }

  /** A configured value, or the parsed one when the configured value is zero. */
  function Pick(configured: Duration, parsed: Duration): Duration
  {
    if configured != 0 then configured else parsed
  }

  function Pick32(configured: Int32, parsed: Int32): Int32
  {
    if configured != 0 then configured else parsed
  }

  /** poolConfig: applies the six guarded overrides to the parsed configuration in turn. */
  method PoolConfig(conf: Settings.Config, parsed: PgxPoolConfig) returns (dbConfig: PgxPoolConfig)
    ensures dbConfig == Overridden(conf, parsed)
  {
    dbConfig := parsed;
    if conf.dbPoolMaxConns != 0 {
      dbConfig := dbConfig.(maxConns := conf.dbPoolMaxConns);
    }
    if conf.dbPoolMinConns != 0 {
      dbConfig := dbConfig.(minConns := conf.dbPoolMinConns);
    }
    if conf.dbPoolMaxConnLifetime != 0 {
      dbConfig := dbConfig.(maxConnLifetime := conf.dbPoolMaxConnLifetime);
    }
    if conf.dbPoolMaxConnIdleTime != 0 {
      dbConfig := dbConfig.(maxConnIdleTime := conf.dbPoolMaxConnIdleTime);
    }
    if conf.dbPoolHealthCheckPeriod != 0 {
      dbConfig := dbConfig.(healthCheckPeriod := conf.dbPoolHealthCheckPeriod);
    }
    if conf.dbPoolConnectTimeout != 0 {
      dbConfig := dbConfig.(connConfig := dbConfig.connConfig.(connectTimeout := conf.dbPoolConnectTimeout));
    }
  }

  /** With all six configured values zero, the parsed configuration is used unchanged. */
  lemma ZeroSettingsKeepParsed(conf: Settings.Config, parsed: PgxPoolConfig)
    requires conf.dbPoolMaxConns == 0 && conf.dbPoolMinConns == 0
    requires conf.dbPoolMaxConnLifetime == 0 && conf.dbPoolMaxConnIdleTime == 0
    requires conf.dbPoolHealthCheckPeriod == 0 && conf.dbPoolConnectTimeout == 0
    ensures Overridden(conf, parsed) == parsed
  {
  }

  /** Only the six settings can differ from the parsed configuration. */
  lemma OnlySixSettingsChange(conf: Settings.Config, parsed: PgxPoolConfig)
    ensures var r := Overridden(conf, parsed);
      r.(maxConns := parsed.maxConns, minConns := parsed.minConns,
         maxConnLifetime := parsed.maxConnLifetime, maxConnIdleTime := parsed.maxConnIdleTime,
         healthCheckPeriod := parsed.healthCheckPeriod, connConfig := parsed.connConfig) == parsed
  {
  }

  /** Overriding an already overridden configuration changes nothing further. */
  lemma OverriddenIdempotent(conf: Settings.Config, parsed: PgxPoolConfig)
    ensures Overridden(conf, Overridden(conf, parsed)) == Overridden(conf, parsed)
  {
  }
}

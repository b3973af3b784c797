/**
 * The application's configuration record (utils.Config). Loading it from a
 * file and from the environment is not part of this model; operations that
 * read settings take a `Config` value.
 */
module Settings {
  import opened GoTypes

  datatype Config = Config(
    enviroment: string,
    dbSource: string,
    dbPoolMaxConns: Int32,
    dbPoolMinConns: Int32,
    dbPoolMaxConnLifetime: Duration,
    dbPoolMaxConnIdleTime: Duration,
    dbPoolHealthCheckPeriod: Duration,
    dbPoolConnectTimeout: Duration,
    migrationURL: string,
    webPort: string,
    redisURL: string,
    pathToTemplate: string,
    emailTemplate: string,
    emailService: string,
    emailLogin: string,
    emailPassword: string,
    emailEncryption: string,
    senderName: string,
    senderEmail: string)
}

/** The environment the operator emits itself, role by role. */
module OperatorEnv {
  import opened Wrappers
  import opened Kube
  import opened Resources
  import opened Env

  /** A variable that is emitted when it has a value: one conditional push of the builders. */
  datatype Slot = Slot(name: string, value: Option<EnvValue>)

  function Emit(slots: seq<Slot>): seq<EnvEntry> {
    if slots == [] then []
    else
      var last := slots[|slots| - 1];
      Emit(slots[..|slots| - 1]) + if last.value.Some? then [EnvEntry(last.name, last.value.value)] else []
  }

  function SlotNames(slots: seq<Slot>): seq<string> {
    seq(|slots|, i requires 0 <= i < |slots| => slots[i].name)
  }

  function TextIf(v: Option<string>): Option<EnvValue> {
    match v case Some(t) => Some(Inline(t)) case None => None
  }

  function NatIf(v: Option<nat>): Option<EnvValue> {
    match v case Some(n) => Some(Inline(NatText(n))) case None => None
  }

  function IntIf(v: Option<int>): Option<EnvValue> {
    match v case Some(n) => Some(Inline(IntText(n))) case None => None
  }

  function BoolIf(v: Option<bool>): Option<EnvValue> {
    match v case Some(b) => Some(Inline(BoolText(b))) case None => None
  }

  function SecretIf(v: Option<SecretKeyRef>): Option<EnvValue> {
    match v case Some(s) => Some(FromSecret(s.name, s.key)) case None => None
  }

  function Fixed(name: string, text: string): Slot {
    Slot(name, Some(Inline(text)))
  }

  // ----- Database, queue, storage -----

  function PostgresSlots(pg: PostgresConfig): seq<Slot> {
    [ Fixed("DB_POSTGRESDB_HOST", pg.host),
      Slot("DB_POSTGRESDB_PORT", IntIf(pg.port)),
      Fixed("DB_POSTGRESDB_DATABASE", pg.database),
      Slot("DB_POSTGRESDB_USER", SecretIf(Some(pg.userSecret))),
      Slot("DB_POSTGRESDB_PASSWORD", SecretIf(Some(pg.passwordSecret))),
      Slot("DB_POSTGRESDB_SCHEMA", TextIf(pg.schema)),
      Slot("DB_POSTGRESDB_POOL_SIZE", NatIf(pg.poolSize)),
      Slot("DB_POSTGRESDB_CONNECTION_TIMEOUT", NatIf(pg.connectionTimeoutMs))
    ] + SslSlots("DB_POSTGRESDB", pg.ssl)
  }

  function MysqlSlots(my: MysqlConfig): seq<Slot> {
    [ Fixed("DB_MYSQLDB_HOST", my.host),
      Slot("DB_MYSQLDB_PORT", IntIf(my.port)),
      Fixed("DB_MYSQLDB_DATABASE", my.database),
      Fixed("DB_MYSQLDB_USER", my.user),
      Slot("DB_MYSQLDB_PASSWORD", SecretIf(Some(my.passwordSecret))),
      Slot("DB_MYSQLDB_CONNECTION_TIMEOUT", NatIf(my.connectionTimeoutMs))
    ] + SslSlots("DB_MYSQLDB", my.ssl)
  }

  function SqliteSlots(sq: SqliteConfig): seq<Slot> {
    [ Slot("DB_SQLITE_POOL_SIZE", NatIf(sq.poolSize)),
      Slot("DB_SQLITE_VACUUM_ON_STARTUP", BoolIf(sq.vacuumOnStartup)),
      Slot("DB_SQLITE_DATABASE", TextIf(sq.database)) ]
  }

  function SslSlots(prefix: string, ssl: Option<DatabaseSsl>): seq<Slot> {
    match ssl
    case None => []
    case Some(s) =>
      [ Fixed(prefix + "_SSL_ENABLED", BoolText(s.enabled)),
        Slot(prefix + "_SSL_REJECT_UNAUTHORIZED", BoolIf(s.rejectUnauthorized)),
        Slot(prefix + "_SSL_CA", if s.caSecret.Some? then Some(Inline("/etc/n8n/ssl/ca/ca.crt")) else None),
        Slot(prefix + "_SSL_CERT", if s.certSecret.Some? then Some(Inline("/etc/n8n/ssl/cert/cert.crt")) else None),
        Slot(prefix + "_SSL_KEY", if s.keySecret.Some? then Some(Inline("/etc/n8n/ssl/key/key.pem")) else None) ]
  }

  function DbSlots(db: DatabaseSpec): seq<Slot> {
    [Fixed("DB_TYPE", db.kind)] + BackendSlots(db)
  }

  function BackendSlots(db: DatabaseSpec): seq<Slot> {
    if db.kind == "postgresdb" then (if db.postgres.Some? then PostgresSlots(db.postgres.value) else [])
    else if db.kind == "mysqldb" || db.kind == "mariadb" then
      (if db.mysql.Some? then MysqlSlots(db.mysql.value) else [])
    else if db.kind == "sqlite" then (if db.sqlite.Some? then SqliteSlots(db.sqlite.value) else [])
    else []
  }

  function RedisSlots(redis: RedisConfig): seq<Slot> {
    [ Fixed("QUEUE_BULL_REDIS_HOST", redis.host),
      Slot("QUEUE_BULL_REDIS_PORT", NatIf(redis.port)),
      Slot("QUEUE_BULL_REDIS_DB", NatIf(redis.db)),
      Slot("QUEUE_BULL_REDIS_PASSWORD", SecretIf(redis.passwordSecret)),
      Slot("QUEUE_BULL_REDIS_USERNAME", SecretIf(redis.usernameSecret)),
      Slot("QUEUE_BULL_REDIS_TLS", BoolIf(redis.tls)),
      Slot("QUEUE_BULL_PREFIX", TextIf(redis.prefix)) ]
  }

  const BINARY_DATA_STORAGE_PATH := "/home/node/binary-data"

  function BinaryDataSlots(bd: Option<BinaryDataSpec>): seq<Slot> {
    match bd
    case None => []
    case Some(b) =>
      if b.mode == "s3" then
        [ Fixed("N8N_AVAILABLE_BINARY_DATA_MODES", "filesystem,s3"), Fixed("N8N_DEFAULT_BINARY_DATA_MODE", "s3") ]
        + (match b.s3
           case None => []
           case Some(s3) =>
             [ Fixed("N8N_EXTERNAL_STORAGE_S3_HOST", s3.host),
               Fixed("N8N_EXTERNAL_STORAGE_S3_BUCKET_NAME", s3.bucket),
               Fixed("N8N_EXTERNAL_STORAGE_S3_BUCKET_REGION", s3.region),
               Slot("N8N_EXTERNAL_STORAGE_S3_ACCESS_KEY", SecretIf(Some(s3.accessKeySecret))),
               Slot("N8N_EXTERNAL_STORAGE_S3_ACCESS_SECRET", SecretIf(Some(s3.accessSecretSecret))) ])
      else if b.mode == "database" then
        [ Fixed("N8N_AVAILABLE_BINARY_DATA_MODES", "filesystem,database"),
          Fixed("N8N_DEFAULT_BINARY_DATA_MODE", "database") ]
      else if b.mode == "filesystem" then
        [ Fixed("N8N_DEFAULT_BINARY_DATA_MODE", "filesystem"),
          Slot("N8N_STORAGE_PATH", if b.sharedStorage.Some? then Some(Inline(BINARY_DATA_STORAGE_PATH)) else None) ]
      else
        [ Fixed("N8N_DEFAULT_BINARY_DATA_MODE", b.mode) ]
  }

  function EncryptionSlot(key: SecretKeyRef): Slot {
    Slot("N8N_ENCRYPTION_KEY", SecretIf(Some(key)))
  }

  function QueueModeSlots(key: SecretKeyRef): seq<Slot> {
    [ Fixed("EXECUTIONS_MODE", "queue"), Fixed("OFFLOAD_MANUAL_EXECUTIONS_TO_WORKERS", "true"), EncryptionSlot(key) ]
  }

  /** Shared by every role of a Cluster, under names users may not set. */
  function CommonSlots(c: Cluster, key: SecretKeyRef): seq<Slot> {
    QueueModeSlots(key) + DbSlots(c.database) + RedisSlots(c.redis)
  }

  // ----- Role-specific operator environment -----

  function WebhookOffloadSlot(c: Cluster): Slot {
    Slot("N8N_DISABLE_PRODUCTION_MAIN_PROCESS", if c.webhooks.Some? then Some(Inline("true")) else None)
  }

  function MultiMain(c: Cluster): bool {
    c.main.replicas > 1
  }

  function MultiMainFlag(c: Cluster): Slot {
    Slot("N8N_MULTI_MAIN_SETUP_ENABLED", if MultiMain(c) then Some(Inline("true")) else None)
  }

  function MultiMainTuning(c: Cluster): seq<Slot> {
    [ Slot("N8N_MULTI_MAIN_SETUP_KEY_TTL", if MultiMain(c) then NatIf(c.main.keyTtl) else None),
      Slot("N8N_MULTI_MAIN_SETUP_CHECK_INTERVAL", if MultiMain(c) then NatIf(c.main.checkInterval) else None) ]
  }

  function WorkerSlots(c: Cluster): seq<Slot> {
    [ Slot("N8N_CONCURRENCY_PRODUCTION_LIMIT", NatIf(c.workers.concurrency)),
      Fixed("QUEUE_HEALTH_CHECK_ACTIVE", "true") ]
  }

  // ----- Overridable defaults -----

  function Default(name: string, value: Option<string>): seq<EnvVar> {
    match value case Some(v) => [EnvVar(name, Some(v), None)] case None => []
  }

  function DefaultBool(name: string, value: Option<bool>): seq<EnvVar> {
    match value case Some(v) => [EnvVar(name, Some(BoolText(v)), None)] case None => []
  }

  function ProtocolFor(net: Option<NetworkingSpec>): string {
    if net.Some? && net.value.httpRoute.Some? then "https"
    else if net.Some? && net.value.ingress.Some? && net.value.ingress.value.tlsSecretName.Some? then "https"
    else "http"
  }

  function HostEnv(host: Option<string>, protocol: string): seq<EnvVar> {
    match host
    case None => []
    case Some(h) =>
      [ EnvVar("N8N_HOST", Some(h), None), EnvVar("N8N_PROTOCOL", Some(protocol), None),
        EnvVar("N8N_EDITOR_BASE_URL", Some(protocol + "://" + h), None) ]
  }

  const WEBHOOK_URL := "WEBHOOK_URL"

  function WebhookUrlEnv(host: string, protocol: string): EnvVar {
    EnvVar(WEBHOOK_URL, Some(protocol + "://" + host + "/"), None)
  }

  /** The webhook role's host when it has one, otherwise the main host. */
  function ClusterWebhookUrl(c: Cluster): Option<EnvVar> {
    if c.webhooks.Some? && c.webhooks.value.host.Some? then
      Some(WebhookUrlEnv(c.webhooks.value.host.value, ProtocolFor(c.webhooks.value.networking)))
    else if c.main.host.Some? then
      Some(WebhookUrlEnv(c.main.host.value, ProtocolFor(c.main.networking)))
    else None
  }

  function SmtpEnv(smtp: Option<SmtpConfig>): seq<EnvVar> {
    match smtp
    case None => []
    case Some(s) =>
      [ EnvVar("N8N_EMAIL_MODE", Some("smtp"), None), EnvVar("N8N_SMTP_HOST", Some(s.host), None),
        EnvVar("N8N_SMTP_PORT", Some(NatText(s.port)), None), EnvVar("N8N_SMTP_SENDER", Some(s.sender), None) ]
      + DefaultBool("N8N_SMTP_SSL", s.ssl) + DefaultBool("N8N_SMTP_STARTTLS", s.startTls)
      + (match s.auth
         case None => []
         case Some(a) => [ EnvVar("N8N_SMTP_USER", None, Some(a.userSecret)),
                           EnvVar("N8N_SMTP_PASS", None, Some(a.passwordSecret)) ])
  }

  function LoggingEnv(logging: Option<LoggingConfig>): seq<EnvVar> {
    match logging
    case None => []
    case Some(l) =>
      Default("N8N_LOG_LEVEL", l.level) + Default("N8N_LOG_OUTPUT", l.output)
      + DefaultBool("N8N_DIAGNOSTICS_ENABLED", l.diagnostics)
      + DefaultBool("N8N_VERSION_NOTIFICATIONS_ENABLED", l.versionNotifications)
      + DefaultBool("N8N_METRICS", l.metrics)
  }

  function JsonItems(items: seq<string>): string {
    if items == [] then "" else if |items| == 1 then items[0] else items[0] + "," + JsonItems(items[1..])
  }

  function CommunityEnv(community: Option<CommunityNodes>): seq<EnvVar> {
    match community
    case None => []
    case Some(cn) =>
      DefaultBool("N8N_COMMUNITY_PACKAGES_ENABLED", cn.enabled)
      + (if cn.packages == [] then []
         else [ EnvVar("N8N_COMMUNITY_PACKAGES", Some("[" + JsonItems(cn.packages) + "]"), None),
                EnvVar("N8N_COMMUNITY_PACKAGES_MANAGED_BY_ENV", Some("true"), None) ])
      + DefaultBool("N8N_REINSTALL_MISSING_PACKAGES", cn.reinstallMissing)
  }

  function AsLayer(v: Option<EnvVar>): seq<EnvVar> {
    match v case Some(e) => [e] case None => []
  }

  function RoleDefaults(c: Cluster, host: Option<string>, net: Option<NetworkingSpec>): seq<EnvVar> {
    HostEnv(host, ProtocolFor(net)) + SmtpEnv(c.smtp) + LoggingEnv(c.logging) + CommunityEnv(c.communityNodes)
    + AsLayer(ClusterWebhookUrl(c))
  }

  function SingleDefaults(s: Single): seq<EnvVar> {
    HostEnv(s.host, ProtocolFor(s.networking))
    + (match s.host case Some(h) => [WebhookUrlEnv(h, ProtocolFor(s.networking))] case None => [])
    + SmtpEnv(s.smtp) + LoggingEnv(s.logging)
  }

  // ----- Whole containers -----

  function MainLayers(c: Cluster): seq<EnvVar> {
    Layered(RoleDefaults(c, c.main.host, c.main.networking), c.secureCookie, c.extraEnv, c.main.extraEnv)
  }

  function WorkerLayers(c: Cluster): seq<EnvVar> {
    Layered(RoleDefaults(c, None, None), c.secureCookie, c.extraEnv, c.workers.extraEnv)
  }

  function WebhookLayers(c: Cluster, wh: WebhookConfig): seq<EnvVar> {
    Layered(RoleDefaults(c, wh.host, wh.networking), c.secureCookie, c.extraEnv, wh.extraEnv)
  }

  function MainSlots(c: Cluster, key: SecretKeyRef): seq<Slot> {
    CommonSlots(c, key) + BinaryDataSlots(c.binaryData) + [MultiMainFlag(c)] + MultiMainTuning(c)
        + [WebhookOffloadSlot(c)]
  }

  function MainEnv(c: Cluster, key: SecretKeyRef): seq<EnvEntry> {
    Emit(MainSlots(c, key)) + UserEnv(MainLayers(c))
  }

  function WorkerEnv(c: Cluster, key: SecretKeyRef): seq<EnvEntry> {
    Emit(CommonSlots(c, key) + BinaryDataSlots(c.binaryData) + WorkerSlots(c)) + UserEnv(WorkerLayers(c))
  }

  function WebhookEnv(c: Cluster, wh: WebhookConfig, key: SecretKeyRef): seq<EnvEntry> {
    Emit(CommonSlots(c, key) + BinaryDataSlots(c.binaryData)) + UserEnv(WebhookLayers(c, wh))
  }

  function SingleSlots(s: Single, key: SecretKeyRef): seq<Slot> {
    [EncryptionSlot(key)] + if s.database.Some? then DbSlots(s.database.value) else []
  }

  function SingleLayers(s: Single): seq<EnvVar> {
    Layered(SingleDefaults(s), s.secureCookie, s.extraEnv, [])
  }

  function SingleEnv(s: Single, key: SecretKeyRef): seq<EnvEntry> {
    Emit(SingleSlots(s, key)) + UserEnv(SingleLayers(s))
  }
}

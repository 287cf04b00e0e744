/** The environment builders as the operator runs them: vectors grown by conditional pushes. */
module EnvBuilders {
  import opened Wrappers
  import opened Kube
  import opened Resources
  import opened Env
  import opened OperatorEnv

  /** One conditional push; `done` is what has been considered so far. */
  method Push(out: seq<EnvEntry>, ghost done: seq<Slot>, slot: Slot) returns (more: seq<EnvEntry>, ghost now: seq<Slot>)
    requires out == Emit(done)
    ensures now == done + [slot] && more == Emit(now)
  {
    now := done + [slot];
    assert now[..|now| - 1] == done;
    more := if slot.value.Some? then out + [EnvEntry(slot.name, slot.value.value)] else out;
  }

  lemma {:induction false} EmitConcat(a: seq<Slot>, b: seq<Slot>)
    ensures Emit(a + b) == Emit(a) + Emit(b)
    decreases |b|
  {
    if b == [] {
      assert a + b == a;
    } else {
      assert (a + b)[..|a + b| - 1] == a + b[..|b| - 1];
      EmitConcat(a, b[..|b| - 1]);
    }
  }

  /** `push_ssl_env`: five pushes under a prefix, or nothing without a TLS section. */
  method PushSslEnv(out: seq<EnvEntry>, ghost done: seq<Slot>, prefix: string,
                    ssl: Option<DatabaseSsl>) returns (more: seq<EnvEntry>)
    requires out == Emit(done)
    ensures more == Emit(done + SslSlots(prefix, ssl))
  {
    hide Emit;
    ghost var now := done;
    more := out;
    if ssl.Some? {
      var s := ssl.value;
      more, now := Push(more, now, Fixed(prefix + "_SSL_ENABLED", BoolText(s.enabled)));
      more, now := Push(more, now, Slot(prefix + "_SSL_REJECT_UNAUTHORIZED", BoolIf(s.rejectUnauthorized)));
      var ca := if s.caSecret.Some? then Some(Inline("/etc/n8n/ssl/ca/ca.crt")) else None;
      more, now := Push(more, now, Slot(prefix + "_SSL_CA", ca));
      var cert := if s.certSecret.Some? then Some(Inline("/etc/n8n/ssl/cert/cert.crt")) else None;
      more, now := Push(more, now, Slot(prefix + "_SSL_CERT", cert));
      var key := if s.keySecret.Some? then Some(Inline("/etc/n8n/ssl/key/key.pem")) else None;
      more, now := Push(more, now, Slot(prefix + "_SSL_KEY", key));
    }
    assert now == done + SslSlots(prefix, ssl);
  }

  method PushPostgres(out: seq<EnvEntry>, ghost done: seq<Slot>, pg: PostgresConfig) returns (more: seq<EnvEntry>)
    requires out == Emit(done)
    ensures more == Emit(done + PostgresSlots(pg))
  {
    hide Emit, SslSlots, NatText, IntText;
    ghost var now := done;
    more := out;
    more, now := Push(more, now, Fixed("DB_POSTGRESDB_HOST", pg.host));
    more, now := Push(more, now, Slot("DB_POSTGRESDB_PORT", IntIf(pg.port)));
    more, now := Push(more, now, Fixed("DB_POSTGRESDB_DATABASE", pg.database));
    more, now := Push(more, now, Slot("DB_POSTGRESDB_USER", SecretIf(Some(pg.userSecret))));
    more, now := Push(more, now, Slot("DB_POSTGRESDB_PASSWORD", SecretIf(Some(pg.passwordSecret))));
    more, now := Push(more, now, Slot("DB_POSTGRESDB_SCHEMA", TextIf(pg.schema)));
    more, now := Push(more, now, Slot("DB_POSTGRESDB_POOL_SIZE", NatIf(pg.poolSize)));
    more, now := Push(more, now, Slot("DB_POSTGRESDB_CONNECTION_TIMEOUT", NatIf(pg.connectionTimeoutMs)));
    more := PushSslEnv(more, now, "DB_POSTGRESDB", pg.ssl);
    assert now + SslSlots("DB_POSTGRESDB", pg.ssl) == done + PostgresSlots(pg);
  }

  method PushMysql(out: seq<EnvEntry>, ghost done: seq<Slot>, my: MysqlConfig) returns (more: seq<EnvEntry>)
    requires out == Emit(done)
    ensures more == Emit(done + MysqlSlots(my))
  {
    hide Emit, SslSlots, NatText, IntText;
    ghost var now := done;
    more := out;
    more, now := Push(more, now, Fixed("DB_MYSQLDB_HOST", my.host));
    more, now := Push(more, now, Slot("DB_MYSQLDB_PORT", IntIf(my.port)));
    more, now := Push(more, now, Fixed("DB_MYSQLDB_DATABASE", my.database));
    more, now := Push(more, now, Fixed("DB_MYSQLDB_USER", my.user));
    more, now := Push(more, now, Slot("DB_MYSQLDB_PASSWORD", SecretIf(Some(my.passwordSecret))));
    more, now := Push(more, now, Slot("DB_MYSQLDB_CONNECTION_TIMEOUT", NatIf(my.connectionTimeoutMs)));
    more := PushSslEnv(more, now, "DB_MYSQLDB", my.ssl);
    assert now + SslSlots("DB_MYSQLDB", my.ssl) == done + MysqlSlots(my);
  }

  method PushSqlite(out: seq<EnvEntry>, ghost done: seq<Slot>, sq: SqliteConfig) returns (more: seq<EnvEntry>)
    requires out == Emit(done)
    ensures more == Emit(done + SqliteSlots(sq))
  {
    hide Emit, NatText;
    ghost var now := done;
    more := out;
    more, now := Push(more, now, Slot("DB_SQLITE_POOL_SIZE", NatIf(sq.poolSize)));
    more, now := Push(more, now, Slot("DB_SQLITE_VACUUM_ON_STARTUP", BoolIf(sq.vacuumOnStartup)));
    more, now := Push(more, now, Slot("DB_SQLITE_DATABASE", TextIf(sq.database)));
    assert now == done + SqliteSlots(sq);
  }

  /** `build_db_env`: the type, then the pushes of the configured backend. */
  method BuildDbEnv(db: DatabaseSpec) returns (out: seq<EnvEntry>)
    ensures out == Emit(DbSlots(db))
  {
    hide Emit, PostgresSlots, MysqlSlots, SqliteSlots;
    ghost var done;
    EmitNothing();
    out, done := Push([], [], Fixed("DB_TYPE", db.kind));
    assert done == [Fixed("DB_TYPE", db.kind)];
    if db.kind == "postgresdb" {
      if db.postgres.Some? {
        out := PushPostgres(out, done, db.postgres.value);
      }
    } else if db.kind == "mysqldb" || db.kind == "mariadb" {
      if db.mysql.Some? {
        out := PushMysql(out, done, db.mysql.value);
      }
    } else if db.kind == "sqlite" {
      if db.sqlite.Some? {
        out := PushSqlite(out, done, db.sqlite.value);
      }
    }
    assert done + [] == done;
  }

  /** `build_redis_env`. */
  method PushRedis(out: seq<EnvEntry>, ghost done: seq<Slot>, redis: RedisConfig) returns (more: seq<EnvEntry>)
    requires out == Emit(done)
    ensures more == Emit(done + RedisSlots(redis))
  {
    hide Emit, NatText;
    ghost var now := done;
    more := out;
    more, now := Push(more, now, Fixed("QUEUE_BULL_REDIS_HOST", redis.host));
    more, now := Push(more, now, Slot("QUEUE_BULL_REDIS_PORT", NatIf(redis.port)));
    more, now := Push(more, now, Slot("QUEUE_BULL_REDIS_DB", NatIf(redis.db)));
    more, now := Push(more, now, Slot("QUEUE_BULL_REDIS_PASSWORD", SecretIf(redis.passwordSecret)));
    more, now := Push(more, now, Slot("QUEUE_BULL_REDIS_USERNAME", SecretIf(redis.usernameSecret)));
    more, now := Push(more, now, Slot("QUEUE_BULL_REDIS_TLS", BoolIf(redis.tls)));
    more, now := Push(more, now, Slot("QUEUE_BULL_PREFIX", TextIf(redis.prefix)));
    assert now == done + RedisSlots(redis);
  }

  /** `build_binary_data_env`: one arm for each mode. */
  method PushBinaryData(out: seq<EnvEntry>, ghost done: seq<Slot>, bd: BinaryDataSpec) returns (more: seq<EnvEntry>)
    requires out == Emit(done)
    ensures more == Emit(done + BinaryDataSlots(Some(bd)))
  {
    hide Emit;
    ghost var now := done;
    more := out;
    if bd.mode == "s3" {
      more, now := Push(more, now, Fixed("N8N_AVAILABLE_BINARY_DATA_MODES", "filesystem,s3"));
      more, now := Push(more, now, Fixed("N8N_DEFAULT_BINARY_DATA_MODE", "s3"));
      if bd.s3.Some? {
        var s3 := bd.s3.value;
        more, now := Push(more, now, Fixed("N8N_EXTERNAL_STORAGE_S3_HOST", s3.host));
        more, now := Push(more, now, Fixed("N8N_EXTERNAL_STORAGE_S3_BUCKET_NAME", s3.bucket));
        more, now := Push(more, now, Fixed("N8N_EXTERNAL_STORAGE_S3_BUCKET_REGION", s3.region));
        more, now := Push(more, now, Slot("N8N_EXTERNAL_STORAGE_S3_ACCESS_KEY", SecretIf(Some(s3.accessKeySecret))));
        more, now := Push(more, now,
                          Slot("N8N_EXTERNAL_STORAGE_S3_ACCESS_SECRET", SecretIf(Some(s3.accessSecretSecret))));
      }
    } else if bd.mode == "database" {
      more, now := Push(more, now, Fixed("N8N_AVAILABLE_BINARY_DATA_MODES", "filesystem,database"));
      more, now := Push(more, now, Fixed("N8N_DEFAULT_BINARY_DATA_MODE", "database"));
    } else if bd.mode == "filesystem" {
      var path := if bd.sharedStorage.Some? then Some(Inline(BINARY_DATA_STORAGE_PATH)) else None;
      more, now := Push(more, now, Fixed("N8N_DEFAULT_BINARY_DATA_MODE", "filesystem"));
      more, now := Push(more, now, Slot("N8N_STORAGE_PATH", path));
    } else {
      more, now := Push(more, now, Fixed("N8N_DEFAULT_BINARY_DATA_MODE", bd.mode));
    }
    assert now == done + BinaryDataSlots(Some(bd));
  }

  lemma EmitNothing()
    ensures Emit([]) == []
  {}

  /** `build_cluster_common_env`: queue mode, database, Redis, binary data. */
  method BuildCommonEnv(c: Cluster, key: SecretKeyRef) returns (out: seq<EnvEntry>)
    ensures out == Emit(CommonSlots(c, key) + BinaryDataSlots(c.binaryData))
  {
    hide Emit, DbSlots, RedisSlots, SecretIf;
    ghost var done;
    EmitNothing();
    out, done := Push([], [], Fixed("EXECUTIONS_MODE", "queue"));
    out, done := Push(out, done, Fixed("OFFLOAD_MANUAL_EXECUTIONS_TO_WORKERS", "true"));
    out, done := Push(out, done, Slot("N8N_ENCRYPTION_KEY", SecretIf(Some(key))));
    assert done == QueueModeSlots(key);
    var db := BuildDbEnv(c.database);
    out := out + db;
    EmitConcat(done, DbSlots(c.database));
    out := PushRedis(out, done + DbSlots(c.database), c.redis);
    if c.binaryData.Some? {
      out := PushBinaryData(out, CommonSlots(c, key), c.binaryData.value);
    } else {
      assert CommonSlots(c, key) + [] == CommonSlots(c, key);
    }
  }

  /** The main container: shared, multi-main, offload and user environment in this order. */
  method BuildMainEnv(c: Cluster, key: SecretKeyRef) returns (env: seq<EnvEntry>)
    ensures env == MainEnv(c, key)
  {
    hide Emit, CommonSlots, BinaryDataSlots, RoleDefaults, UserEnv, Layered, NatIf;
    env := BuildCommonEnv(c, key);
    ghost var done := CommonSlots(c, key) + BinaryDataSlots(c.binaryData);
    var multi := c.main.replicas > 1;
    env, done := Push(env, done, Slot("N8N_MULTI_MAIN_SETUP_ENABLED", if multi then Some(Inline("true")) else None));
    env, done := Push(env, done, Slot("N8N_MULTI_MAIN_SETUP_KEY_TTL", if multi then NatIf(c.main.keyTtl) else None));
    env, done := Push(env, done, Slot("N8N_MULTI_MAIN_SETUP_CHECK_INTERVAL",
                                      if multi then NatIf(c.main.checkInterval) else None));
    env, done := Push(env, done, Slot("N8N_DISABLE_PRODUCTION_MAIN_PROCESS",
                                      if c.webhooks.Some? then Some(Inline("true")) else None));
    assert done == MainSlots(c, key);
    var user := BuildUserEnv(RoleDefaults(c, c.main.host, c.main.networking), c.secureCookie, c.extraEnv,
                             c.main.extraEnv);
    env := env + user;
  }

  method BuildWorkerEnv(c: Cluster, key: SecretKeyRef) returns (env: seq<EnvEntry>)
    ensures env == WorkerEnv(c, key)
  {
    hide Emit, CommonSlots, BinaryDataSlots, RoleDefaults, UserEnv, Layered, NatIf;
    env := BuildCommonEnv(c, key);
    ghost var done := CommonSlots(c, key) + BinaryDataSlots(c.binaryData);
    env, done := Push(env, done, Slot("N8N_CONCURRENCY_PRODUCTION_LIMIT", NatIf(c.workers.concurrency)));
    env, done := Push(env, done, Fixed("QUEUE_HEALTH_CHECK_ACTIVE", "true"));
    assert done == CommonSlots(c, key) + BinaryDataSlots(c.binaryData) + WorkerSlots(c);
    var user := BuildUserEnv(RoleDefaults(c, None, None), c.secureCookie, c.extraEnv, c.workers.extraEnv);
    env := env + user;
  }

  method BuildWebhookEnv(c: Cluster, wh: WebhookConfig, key: SecretKeyRef) returns (env: seq<EnvEntry>)
    ensures env == WebhookEnv(c, wh, key)
  {
    hide Emit, CommonSlots, BinaryDataSlots, RoleDefaults, UserEnv, Layered;
    env := BuildCommonEnv(c, key);
    var user := BuildUserEnv(RoleDefaults(c, wh.host, wh.networking), c.secureCookie, c.extraEnv, wh.extraEnv);
    env := env + user;
  }

  /** The one container of a Single: key, database if any, user environment without a role layer. */
  method BuildSingleEnv(s: Single, key: SecretKeyRef) returns (env: seq<EnvEntry>)
    ensures env == SingleEnv(s, key)
  {
    hide Emit, DbSlots, SingleDefaults, UserEnv, Layered, EncryptionSlot;
    ghost var done;
    EmitNothing();
    env, done := Push([], [], EncryptionSlot(key));
    assert done == [EncryptionSlot(key)];
    if s.database.Some? {
      var db := BuildDbEnv(s.database.value);
      EmitConcat(done, DbSlots(s.database.value));
      env := env + db;
    } else {
      assert done + [] == done;
    }
    var user := BuildUserEnv(SingleDefaults(s), s.secureCookie, s.extraEnv, []);
    env := env + user;
  }
}

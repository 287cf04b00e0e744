/**
 No container gets two entries for one variable, except where a validated user setting meets an unreserved operator
 name.
 */
module EnvUnique {
  import opened Wrappers
  import opened Kube
  import opened Resources
  import opened Env
  import opened OperatorEnv
  import opened Validate

  /** Names the operator emits outside the reserved set: binary data, and the multi-main timing. */
  const BINARY_DATA_NAMES: set<string> :=
    { "N8N_AVAILABLE_BINARY_DATA_MODES", "N8N_DEFAULT_BINARY_DATA_MODE", "N8N_STORAGE_PATH",
      "N8N_EXTERNAL_STORAGE_S3_HOST", "N8N_EXTERNAL_STORAGE_S3_BUCKET_NAME",
      "N8N_EXTERNAL_STORAGE_S3_BUCKET_REGION", "N8N_EXTERNAL_STORAGE_S3_ACCESS_KEY",
      "N8N_EXTERNAL_STORAGE_S3_ACCESS_SECRET" }
  const MULTI_MAIN_TIMING: set<string> := { "N8N_MULTI_MAIN_SETUP_KEY_TTL", "N8N_MULTI_MAIN_SETUP_CHECK_INTERVAL" }

  predicate Repeats(names: seq<string>, n: string) {
    exists i, j :: 0 <= i < j < |names| && names[i] == n && names[j] == n
  }

  predicate Emitted(slots: seq<Slot>, n: string) {
    n in EntryNames(Emit(slots))
  }

  // ----- Sequences of names -----

  lemma RepeatsConcat(a: seq<string>, b: seq<string>, n: string)
    requires NoRepeats(a) && NoRepeats(b)
    ensures Repeats(a + b, n) <==> n in a && n in b
  {
    if n in a && n in b {
      var i :| 0 <= i < |a| && a[i] == n;
      var j :| 0 <= j < |b| && b[j] == n;
      assert (a + b)[i] == n && (a + b)[|a| + j] == n;
    }
  }

  lemma {:induction false} EmitNames(slots: seq<Slot>)
    requires NoRepeats(SlotNames(slots))
    ensures NoRepeats(EntryNames(Emit(slots)))
    ensures forall n | Emitted(slots, n) :: n in SlotNames(slots)
  {
    if slots != [] {
      var init, last := slots[..|slots| - 1], slots[|slots| - 1];
      assert SlotNames(slots) == SlotNames(init) + [last.name];
      assert NoRepeats(SlotNames(init)) && last.name !in SlotNames(init) by {
        forall i, j | 0 <= i < j < |init| ensures SlotNames(init)[i] != SlotNames(init)[j] {
          assert SlotNames(slots)[i] != SlotNames(slots)[j];
        }
        forall i | 0 <= i < |init| ensures SlotNames(init)[i] != last.name {
          assert SlotNames(slots)[i] != SlotNames(slots)[|init|];
        }
      }
      EmitNames(init);
      assert EntryNames(Emit(slots))
          == EntryNames(Emit(init)) + if last.value.Some? then [last.name] else [];
    }
  }

  lemma {:induction false} EmittedConcat(a: seq<Slot>, b: seq<Slot>, n: string)
    ensures Emitted(a + b, n) <==> Emitted(a, n) || Emitted(b, n)
    decreases |b|
  {
    if b == [] {
      assert a + b == a;
    } else {
      var init, last := b[..|b| - 1], b[|b| - 1];
      assert (a + b)[..|a + b| - 1] == a + init;
      EmittedConcat(a, init, n);
      var tail: seq<EnvEntry> := if last.value.Some? then [EnvEntry(last.name, last.value.value)] else [];
      assert EntryNames(Emit(a + b)) == EntryNames(Emit(a + init)) + EntryNames(tail);
      assert EntryNames(Emit(b)) == EntryNames(Emit(init)) + EntryNames(tail);
    }
  }

  lemma SlotsConcat(a: seq<Slot>, b: seq<Slot>)
    requires NoRepeats(SlotNames(a)) && NoRepeats(SlotNames(b))
    requires forall n | n in SlotNames(a) :: n !in SlotNames(b)
    ensures NoRepeats(SlotNames(a + b))
    ensures forall n :: n in SlotNames(a + b) <==> n in SlotNames(a) || n in SlotNames(b)
  {
    assert SlotNames(a + b) == SlotNames(a) + SlotNames(b);
    assert forall i | 0 <= i < |a| :: SlotNames(a)[i] in SlotNames(a);
    assert forall i | 0 <= i < |b| :: SlotNames(b)[i] in SlotNames(b);
  }

  // ----- The names of each builder -----

  lemma SslNames(prefix: string, ssl: Option<DatabaseSsl>)
    ensures NoRepeats(SlotNames(SslSlots(prefix, ssl)))
    ensures forall n | n in SlotNames(SslSlots(prefix, ssl)) ::
            |n| > |prefix| + 4 && n[..|prefix| + 4] == prefix + "_SSL"
  {
    var suffixes := ["_SSL_ENABLED", "_SSL_REJECT_UNAUTHORIZED", "_SSL_CA", "_SSL_CERT", "_SSL_KEY"];
    assert suffixes[2][5] == 'C' && suffixes[4][5] == 'K';
    if ssl.Some? {
      var names := SlotNames(SslSlots(prefix, ssl));
      forall i | 0 <= i < |names|
        ensures names[i] == prefix + suffixes[i] && names[i][..|prefix| + 4] == prefix + "_SSL"
      {
      }
      forall i, j | 0 <= i < j < |names| ensures names[i] != names[j] {
        assert names[i][|prefix|..] == suffixes[i] && names[j][|prefix|..] == suffixes[j];
        assert suffixes[i] != suffixes[j];
      }
    }
  }

  const POSTGRES_NAMES: seq<string> :=
    [ "DB_POSTGRESDB_HOST", "DB_POSTGRESDB_PORT", "DB_POSTGRESDB_DATABASE", "DB_POSTGRESDB_USER",
      "DB_POSTGRESDB_PASSWORD", "DB_POSTGRESDB_SCHEMA", "DB_POSTGRESDB_POOL_SIZE", "DB_POSTGRESDB_CONNECTION_TIMEOUT" ]
  const MYSQL_NAMES: seq<string> :=
    [ "DB_MYSQLDB_HOST", "DB_MYSQLDB_PORT", "DB_MYSQLDB_DATABASE", "DB_MYSQLDB_USER", "DB_MYSQLDB_PASSWORD",
      "DB_MYSQLDB_CONNECTION_TIMEOUT" ]
  const SQLITE_NAMES: seq<string> := ["DB_SQLITE_POOL_SIZE", "DB_SQLITE_VACUUM_ON_STARTUP", "DB_SQLITE_DATABASE"]
  const REDIS_NAMES: seq<string> :=
    [ "QUEUE_BULL_REDIS_HOST", "QUEUE_BULL_REDIS_PORT", "QUEUE_BULL_REDIS_DB", "QUEUE_BULL_REDIS_PASSWORD",
      "QUEUE_BULL_REDIS_USERNAME", "QUEUE_BULL_REDIS_TLS", "QUEUE_BULL_PREFIX" ]

  /** A database name: never the type, and never one of the TLS names under `prefix`. */
  predicate DbOwn(n: string, prefix: string) {
    StartsWith(n, "DB_") && |n| > 7 && !(|n| > |prefix| + 4 && n[..|prefix| + 4] == prefix + "_SSL")
  }

  lemma PostgresOwn()
    ensures NoRepeats(POSTGRES_NAMES) && forall n | n in POSTGRES_NAMES :: DbOwn(n, "DB_POSTGRESDB")
  {
    assert POSTGRES_NAMES[0][14] == 'H' && POSTGRES_NAMES[1][14] == 'P' && POSTGRES_NAMES[3][14] == 'U';
    assert POSTGRES_NAMES[2][14] == 'D' && POSTGRES_NAMES[4][14] == 'P';
    var ssl := "DB_POSTGRESDB" + "_SSL";
    assert ssl[14] == 'S' && ssl[15] == 'S';
    forall n | n in POSTGRES_NAMES ensures DbOwn(n, "DB_POSTGRESDB") {
      assert n[14] != 'S' || n[15] == 'C';
      if |n| > 17 {
        assert n[..17][14] == n[14] && n[..17][15] == n[15];
      }
    }
  }

  lemma MysqlOwn()
    ensures NoRepeats(MYSQL_NAMES) && forall n | n in MYSQL_NAMES :: DbOwn(n, "DB_MYSQLDB")
  {
    assert MYSQL_NAMES[0][11] == 'H' && MYSQL_NAMES[1][11] == 'P' && MYSQL_NAMES[3][11] == 'U';
    var ssl := "DB_MYSQLDB" + "_SSL";
    assert ssl[11] == 'S';
    forall n | n in MYSQL_NAMES ensures DbOwn(n, "DB_MYSQLDB") {
      assert n[11] != 'S';
      if |n| > 14 {
        assert n[..14][11] == n[11];
      }
    }
  }

  predicate BackendNamed(slots: seq<Slot>) {
    NoRepeats(SlotNames(slots)) && forall n | n in SlotNames(slots) :: StartsWith(n, "DB_") && |n| > 7
  }

  lemma PostgresNames(pg: PostgresConfig)
    ensures BackendNamed(PostgresSlots(pg))
  {
    var own := PostgresSlots(pg)[..8];
    assert SlotNames(own) == POSTGRES_NAMES;
    PostgresOwn();
    WithSsl(own, "DB_POSTGRESDB", pg.ssl);
    assert own + SslSlots("DB_POSTGRESDB", pg.ssl) == PostgresSlots(pg);
  }

  lemma MysqlNames(my: MysqlConfig)
    ensures BackendNamed(MysqlSlots(my))
  {
    var own := MysqlSlots(my)[..6];
    assert SlotNames(own) == MYSQL_NAMES;
    MysqlOwn();
    WithSsl(own, "DB_MYSQLDB", my.ssl);
    assert own + SslSlots("DB_MYSQLDB", my.ssl) == MysqlSlots(my);
  }

  lemma SqliteOwn()
    ensures NoRepeats(SQLITE_NAMES) && forall n | n in SQLITE_NAMES :: StartsWith(n, "DB_") && |n| > 7
  {
    assert SQLITE_NAMES[0][10] == 'P' && SQLITE_NAMES[1][10] == 'V' && SQLITE_NAMES[2][10] == 'D';
  }

  lemma SqliteNames(sq: SqliteConfig)
    ensures BackendNamed(SqliteSlots(sq))
  {
    hide NoRepeats, StartsWith;
    SqliteOwn();
    assert SlotNames(SqliteSlots(sq)) == SQLITE_NAMES;
  }

  lemma BackendNames(db: DatabaseSpec)
    ensures BackendNamed(BackendSlots(db))
  {
    var slots := BackendSlots(db);
    if slots != [] {
      if db.postgres.Some? && slots == PostgresSlots(db.postgres.value) {
        PostgresNames(db.postgres.value);
      } else if db.mysql.Some? && slots == MysqlSlots(db.mysql.value) {
        MysqlNames(db.mysql.value);
      } else {
        SqliteNames(db.sqlite.value);
      }
    }
  }

  /** Database names are covered by a reserved prefix. */
  lemma DbNames(db: DatabaseSpec)
    ensures NoRepeats(SlotNames(DbSlots(db)))
    ensures forall n | n in SlotNames(DbSlots(db)) :: StartsWith(n, "DB_")
  {
    var head := [Fixed("DB_TYPE", db.kind)];
    assert SlotNames(head) == ["DB_TYPE"];
    BackendNames(db);
    SlotsConcat(head, BackendSlots(db));
  }

  lemma WithSsl(own: seq<Slot>, prefix: string, ssl: Option<DatabaseSsl>)
    requires |prefix| > 7 && StartsWith(prefix, "DB_")
    requires NoRepeats(SlotNames(own)) && forall n | n in SlotNames(own) :: DbOwn(n, prefix)
    ensures BackendNamed(own + SslSlots(prefix, ssl))
  {
    SslNames(prefix, ssl);
    SlotsConcat(own, SslSlots(prefix, ssl));
    forall n | n in SlotNames(SslSlots(prefix, ssl)) ensures StartsWith(n, "DB_") && |n| > 7 {
      assert n[..3] == n[..|prefix| + 4][..3] == prefix[..3] == "DB_";
    }
  }

  lemma RedisNames(redis: RedisConfig)
    ensures NoRepeats(SlotNames(RedisSlots(redis)))
    ensures forall n | n in SlotNames(RedisSlots(redis)) :: StartsWith(n, "QUEUE_BULL_")
  {
    hide REDIS_NAMES, NoRepeats, RedisSlots, SlotNames;
    RedisOwn();
    RedisList(redis);
  }

  lemma RedisList(redis: RedisConfig)
    ensures SlotNames(RedisSlots(redis)) == REDIS_NAMES
  {}

  lemma RedisOwn()
    ensures NoRepeats(REDIS_NAMES) && forall n | n in REDIS_NAMES :: StartsWith(n, "QUEUE_BULL_")
  {
    assert REDIS_NAMES[1][17] == 'P' && REDIS_NAMES[6][11] == 'P';
    assert REDIS_NAMES[0][17] == 'H' && REDIS_NAMES[2][17] == 'D' && REDIS_NAMES[5][17] == 'T';
    assert REDIS_NAMES[3][17] == 'P' && REDIS_NAMES[4][17] == 'U';
  }

  const FIXED_NAMES: seq<string> := ["EXECUTIONS_MODE", "OFFLOAD_MANUAL_EXECUTIONS_TO_WORKERS", "N8N_ENCRYPTION_KEY"]

  /** The reserved prefixes and the fixed names do not meet. */
  lemma Heads(n: string)
    ensures StartsWith(n, "DB_") ==> |n| >= 3 && n[0] == 'D'
    ensures StartsWith(n, "QUEUE_BULL_") ==> |n| >= 11 && n[0] == 'Q' && n[6] == 'B'
  {
    var db, queue := "DB_", "QUEUE_BULL_";
    assert db[0] == 'D' && queue[0] == 'Q' && queue[6] == 'B';
    if StartsWith(n, queue) {
      assert n[..11] == queue && n[..11][6] == n[6];
    }
  }

  lemma FixedHeads()
    ensures NoRepeats(FIXED_NAMES) && forall n | n in FIXED_NAMES ::
            |n| > 0 && (n[0] == 'E' || n[0] == 'O' || n[0] == 'N')
  {}

  lemma QueueModeNames(key: SecretKeyRef)
    ensures SlotNames(QueueModeSlots(key)) == FIXED_NAMES
  {}

  /** What every role gets under reserved names. */
  lemma CommonNames(c: Cluster, key: SecretKeyRef)
    ensures NoRepeats(SlotNames(CommonSlots(c, key)))
    ensures forall n | n in SlotNames(CommonSlots(c, key)) ::
      n in FIXED_NAMES || StartsWith(n, "DB_") || StartsWith(n, "QUEUE_BULL_")
  {
    DbNames(c.database);
    RedisNames(c.redis);
    FixedHeads();
    QueueModeNames(key);
    JoinCommon(QueueModeSlots(key), DbSlots(c.database), RedisSlots(c.redis));
  }

  lemma JoinCommon(fixed: seq<Slot>, db: seq<Slot>, redis: seq<Slot>)
    requires NoRepeats(SlotNames(fixed)) && NoRepeats(SlotNames(db)) && NoRepeats(SlotNames(redis))
    requires forall n | n in SlotNames(fixed) :: |n| > 0 && (n[0] == 'E' || n[0] == 'O' || n[0] == 'N')
    requires forall n | n in SlotNames(db) :: StartsWith(n, "DB_")
    requires forall n | n in SlotNames(redis) :: StartsWith(n, "QUEUE_BULL_")
    ensures NoRepeats(SlotNames(fixed + db + redis))
    ensures forall n | n in SlotNames(fixed + db + redis) ::
      n in SlotNames(fixed) || StartsWith(n, "DB_") || StartsWith(n, "QUEUE_BULL_")
  {
    forall n | n in SlotNames(db) || n in SlotNames(redis) ensures |n| > 0 && (n[0] == 'D' || n[0] == 'Q') {
      Heads(n);
    }
    forall n | n in SlotNames(db) ensures n !in SlotNames(redis) {
      Heads(n);
    }
    SlotsConcat(fixed, db);
    SlotsConcat(fixed + db, redis);
  }

  const S3_NAMES: seq<string> :=
    [ "N8N_AVAILABLE_BINARY_DATA_MODES", "N8N_DEFAULT_BINARY_DATA_MODE", "N8N_EXTERNAL_STORAGE_S3_HOST",
      "N8N_EXTERNAL_STORAGE_S3_BUCKET_NAME", "N8N_EXTERNAL_STORAGE_S3_BUCKET_REGION",
      "N8N_EXTERNAL_STORAGE_S3_ACCESS_KEY", "N8N_EXTERNAL_STORAGE_S3_ACCESS_SECRET" ]

  lemma S3Names()
    ensures NoRepeats(S3_NAMES) && forall n | n in S3_NAMES :: n in BINARY_DATA_NAMES
  {
    assert S3_NAMES[1][4] == 'D' && S3_NAMES[2][4] == 'E';
    assert S3_NAMES[4][24] == 'B' && S3_NAMES[6][24] == 'A';
  }

  lemma BinaryDataNames(bd: Option<BinaryDataSpec>)
    ensures NoRepeats(SlotNames(BinaryDataSlots(bd)))
    ensures forall n | n in SlotNames(BinaryDataSlots(bd)) :: n in BINARY_DATA_NAMES
  {
    if bd.Some? {
      var slots := BinaryDataSlots(bd);
      if bd.value.mode == "s3" {
        S3Names();
        assert SlotNames(slots) == S3_NAMES[..|slots|];
      } else if bd.value.mode == "database" {
        assert SlotNames(slots) == ["N8N_AVAILABLE_BINARY_DATA_MODES", "N8N_DEFAULT_BINARY_DATA_MODE"];
      } else if bd.value.mode == "filesystem" {
        assert SlotNames(slots) == ["N8N_DEFAULT_BINARY_DATA_MODE", "N8N_STORAGE_PATH"];
      } else {
        assert SlotNames(slots) == ["N8N_DEFAULT_BINARY_DATA_MODE"];
      }
    }
  }

  // ----- The user layers -----

  const HOST_NAMES: set<string> := { "N8N_HOST", "N8N_PROTOCOL", "N8N_EDITOR_BASE_URL", WEBHOOK_URL,
                                    "N8N_SECURE_COOKIE" }
  const SMTP_NAMES: set<string> :=
    { "N8N_EMAIL_MODE", "N8N_SMTP_HOST", "N8N_SMTP_PORT", "N8N_SMTP_SENDER", "N8N_SMTP_SSL", "N8N_SMTP_STARTTLS",
      "N8N_SMTP_USER", "N8N_SMTP_PASS" }
  const LOGGING_NAMES: set<string> :=
    { "N8N_LOG_LEVEL", "N8N_LOG_OUTPUT", "N8N_DIAGNOSTICS_ENABLED", "N8N_VERSION_NOTIFICATIONS_ENABLED", "N8N_METRICS" }
  const COMMUNITY_NAMES: set<string> :=
    { "N8N_COMMUNITY_PACKAGES_ENABLED", "N8N_COMMUNITY_PACKAGES", "N8N_COMMUNITY_PACKAGES_MANAGED_BY_ENV",
      "N8N_REINSTALL_MISSING_PACKAGES" }

  /** Neither reserved nor emitted by the operator outside the user layers. */
  predicate Plain(n: string) {
    !Reserved(n) && n !in BINARY_DATA_NAMES && n !in MULTI_MAIN_TIMING
  }

  lemma PlainFromHead(n: string)
    requires |n| > 0 && n[0] != 'D' && n[0] != 'Q'
    requires n !in RESERVED_ENV && n !in BINARY_DATA_NAMES && n !in MULTI_MAIN_TIMING
    ensures Plain(n)
  {
    Heads(n);
  }

  lemma HostPlain(n: string)
    requires n in HOST_NAMES
    ensures Plain(n)
  {
    assert n[0] == 'N' || n[0] == 'W';
    PlainFromHead(n);
  }

  lemma SmtpPlain(n: string)
    requires n in SMTP_NAMES
    ensures Plain(n) && n != WEBHOOK_URL
  {
    assert n[0] == 'N' && (|n| == 15 ==> n[4] == 'S') && WEBHOOK_URL[0] == 'W';
    PlainFromHead(n);
  }

  lemma LoggingPlain(n: string)
    requires n in LOGGING_NAMES
    ensures Plain(n) && n != WEBHOOK_URL
  {
    assert n[0] == 'N' && WEBHOOK_URL[0] == 'W';
    PlainFromHead(n);
  }

  lemma CommunityPlain(n: string)
    requires n in COMMUNITY_NAMES
    ensures Plain(n) && n != WEBHOOK_URL
  {
    assert n[0] == 'N' && n[4] != 'E' && WEBHOOK_URL[0] == 'W';
    assert forall b | b in BINARY_DATA_NAMES && |b| == 37 :: b[4] == 'E';
    PlainFromHead(n);
  }

  predicate AllIn(vars: seq<EnvVar>, names: set<string>) {
    forall e | e in vars :: e.name in names
  }

  lemma LayerNames(smtp: Option<SmtpConfig>, logging: Option<LoggingConfig>, community: Option<CommunityNodes>,
                   host: Option<string>, protocol: string, cookie: Option<bool>)
    ensures AllIn(SmtpEnv(smtp), SMTP_NAMES)
    ensures AllIn(LoggingEnv(logging), LOGGING_NAMES)
    ensures AllIn(CommunityEnv(community), COMMUNITY_NAMES)
    ensures AllIn(HostEnv(host, protocol), HOST_NAMES - {WEBHOOK_URL})
    ensures AllIn(CookieLayer(cookie), HOST_NAMES - {WEBHOOK_URL})
  {
    hide HOST_NAMES, SMTP_NAMES, LOGGING_NAMES, COMMUNITY_NAMES, SmtpEnv, LoggingEnv, CommunityEnv, HostEnv,
        CookieLayer;
    SmtpLayer(smtp);
    LoggingLayer(logging);
    CommunityLayer(community);
    HostLayer(host, protocol, cookie);
  }

  lemma SmtpLayer(smtp: Option<SmtpConfig>)
    ensures AllIn(SmtpEnv(smtp), SMTP_NAMES)
  {
    hide NatText;
  }

  lemma LoggingLayer(logging: Option<LoggingConfig>)
    ensures AllIn(LoggingEnv(logging), LOGGING_NAMES)
  {
    hide BoolText;
  }

  lemma CommunityLayer(community: Option<CommunityNodes>)
    ensures AllIn(CommunityEnv(community), COMMUNITY_NAMES)
  {
    hide BoolText, JsonItems;
  }

  lemma HostLayer(host: Option<string>, protocol: string, cookie: Option<bool>)
    ensures AllIn(HostEnv(host, protocol), HOST_NAMES - {WEBHOOK_URL})
    ensures AllIn(CookieLayer(cookie), HOST_NAMES - {WEBHOOK_URL})
  {
    hide BoolText;
  }

  predicate AllPlain(vars: seq<EnvVar>) {
    forall e | e in vars :: Plain(e.name)
  }

  lemma NamesPlain()
    ensures forall n | n in HOST_NAMES + SMTP_NAMES + LOGGING_NAMES + COMMUNITY_NAMES :: Plain(n)
  {
    forall n | n in HOST_NAMES ensures Plain(n) { HostPlain(n); }
    forall n | n in SMTP_NAMES ensures Plain(n) { SmtpPlain(n); }
    forall n | n in LOGGING_NAMES ensures Plain(n) { LoggingPlain(n); }
    forall n | n in COMMUNITY_NAMES ensures Plain(n) { CommunityPlain(n); }
  }

  lemma RoleDefaultsPlain(c: Cluster, host: Option<string>, net: Option<NetworkingSpec>)
    ensures AllPlain(RoleDefaults(c, host, net)) && AllPlain(CookieLayer(c.secureCookie))
  {
    hide Plain, SmtpEnv, LoggingEnv, CommunityEnv, HostEnv, CookieLayer, HOST_NAMES, SMTP_NAMES, LOGGING_NAMES,
        COMMUNITY_NAMES;
    LayerNames(c.smtp, c.logging, c.communityNodes, host, ProtocolFor(net), c.secureCookie);
    UrlIsHostName();
    NamesPlain();
  }

  lemma UrlIsHostName()
    ensures WEBHOOK_URL in HOST_NAMES
  {}

  lemma SingleDefaultsPlain(s: Single)
    ensures AllPlain(SingleDefaults(s)) && AllPlain(CookieLayer(s.secureCookie))
  {
    LayerNames(s.smtp, s.logging, None, s.host, ProtocolFor(s.networking), s.secureCookie);
    NamesPlain();
  }

  lemma NamesConcat(a: seq<EnvVar>, b: seq<EnvVar>, n: string)
    ensures n in Names(a + b) <==> n in Names(a) || n in Names(b)
  {
    assert Names(a + b) == Names(a) + Names(b);
  }

  lemma LayeredNames(d: seq<EnvVar>, cookie: Option<bool>, cluster: seq<EnvVar>, role: seq<EnvVar>, n: string)
    ensures n in Names(Layered(d, cookie, cluster, role))
       <==> n in Names(d) || n in Names(CookieLayer(cookie)) || n in Names(cluster) || n in Names(role)
  {
    NamesConcat(d, CookieLayer(cookie), n);
    NamesConcat(d + CookieLayer(cookie), cluster, n);
    NamesConcat(d + CookieLayer(cookie) + cluster, role, n);
  }

  // ----- Whole containers -----

  /** The slots of a container: distinct names, each reserved except those of `open`. */
  predicate Wired(slots: seq<Slot>, open: seq<Slot>) {
    && NoRepeats(SlotNames(slots))
    && (forall n | n in EntryNames(Emit(slots)) :: Reserved(n) || Emitted(open, n))
    && (forall n | n in EntryNames(Emit(open)) :: Emitted(slots, n) && !Plain(n))
  }

  lemma ContainerRepeats(slots: seq<Slot>, open: seq<Slot>, d: seq<EnvVar>, cookie: Option<bool>,
                         cluster: seq<EnvVar>, role: seq<EnvVar>, n: string)
    requires Wired(slots, open)
    requires AllPlain(d) && AllPlain(CookieLayer(cookie)) && EnvAllowed(cluster) && EnvAllowed(role)
    ensures Repeats(EntryNames(Emit(slots) + UserEnv(Layered(d, cookie, cluster, role))), n)
       <==> Emitted(open, n) && (n in Names(cluster) || n in Names(role))
  {
    var vars := Layered(d, cookie, cluster, role);
    EmitNames(slots);
    UserEnvNames(vars);
    assert EntryNames(Emit(slots) + UserEnv(vars)) == EntryNames(Emit(slots)) + EntryNames(UserEnv(vars));
    RepeatsConcat(EntryNames(Emit(slots)), EntryNames(UserEnv(vars)), n);
    LayeredNames(d, cookie, cluster, role, n);
  }

  /** The open names of a role. */
  function MainOpen(c: Cluster): seq<Slot> {
    BinaryDataSlots(c.binaryData) + MultiMainTuning(c)
  }

  /** The names of `CommonNames`. */
  predicate CommonNamed(n: string) {
    n in FIXED_NAMES || StartsWith(n, "DB_") || StartsWith(n, "QUEUE_BULL_")
  }

  const ROLE_FLAGS: set<string> :=
    { "N8N_MULTI_MAIN_SETUP_ENABLED", "N8N_DISABLE_PRODUCTION_MAIN_PROCESS", "N8N_CONCURRENCY_PRODUCTION_LIMIT",
      "QUEUE_HEALTH_CHECK_ACTIVE" }

  lemma FlagReserved(n: string)
    requires n in ROLE_FLAGS
    ensures Reserved(n) && !CommonNamed(n) && n !in BINARY_DATA_NAMES && n !in MULTI_MAIN_TIMING
  {
    Heads(n);
    if n == "QUEUE_HEALTH_CHECK_ACTIVE" {
      assert n[0] == 'Q' && n[6] == 'H';
      assert FIXED_NAMES[0][0] == 'E' && FIXED_NAMES[1][0] == 'O' && FIXED_NAMES[2][0] == 'N';
    } else {
      assert n[0] == 'N' && (|n| == 35 ==> n[4] == 'D');
      assert |n| != 18;
    }
  }

  lemma OpenNotCommon(n: string)
    requires n in BINARY_DATA_NAMES || n in MULTI_MAIN_TIMING
    ensures !CommonNamed(n) && !Plain(n) && n !in ROLE_FLAGS
    ensures n in BINARY_DATA_NAMES <==> n !in MULTI_MAIN_TIMING
  {
    Heads(n);
    assert n[0] == 'N' && n[4] != 'C' && n[4] != 'O';
    if n in ROLE_FLAGS {
      FlagReserved(n);
    }
  }

  lemma RoleFlagNames(c: Cluster)
    ensures SlotNames([MultiMainFlag(c)]) == ["N8N_MULTI_MAIN_SETUP_ENABLED"]
    ensures SlotNames([WebhookOffloadSlot(c)]) == ["N8N_DISABLE_PRODUCTION_MAIN_PROCESS"]
    ensures SlotNames(WorkerSlots(c)) == ["N8N_CONCURRENCY_PRODUCTION_LIMIT", "QUEUE_HEALTH_CHECK_ACTIVE"]
    ensures SlotNames(MultiMainTuning(c)) == ["N8N_MULTI_MAIN_SETUP_KEY_TTL", "N8N_MULTI_MAIN_SETUP_CHECK_INTERVAL"]
    ensures "N8N_MULTI_MAIN_SETUP_ENABLED" in ROLE_FLAGS && "N8N_DISABLE_PRODUCTION_MAIN_PROCESS" in ROLE_FLAGS
    ensures NoRepeats(SlotNames(WorkerSlots(c))) && forall n | n in SlotNames(WorkerSlots(c)) :: n in ROLE_FLAGS
    ensures NoRepeats(SlotNames(MultiMainTuning(c)))
    ensures forall n | n in SlotNames(MultiMainTuning(c)) :: n in MULTI_MAIN_TIMING
  {}

  predicate NamedIn(slots: seq<Slot>, names: set<string>) {
    NoRepeats(SlotNames(slots)) && forall n | n in SlotNames(slots) :: n in names
  }

  /** Common, binary-data and role-flag slots side by side. */
  lemma RoleWired(common: seq<Slot>, binary: seq<Slot>, flags: seq<Slot>)
    requires NoRepeats(SlotNames(common)) && forall n | n in SlotNames(common) :: CommonNamed(n)
    requires NamedIn(binary, BINARY_DATA_NAMES) && NamedIn(flags, ROLE_FLAGS)
    ensures Wired(common + binary + flags, binary)
    ensures forall n | n in SlotNames(common + binary + flags) ::
            CommonNamed(n) || n in BINARY_DATA_NAMES || n in ROLE_FLAGS
  {
    forall n | n in SlotNames(binary) ensures !CommonNamed(n) && !Plain(n) && n !in ROLE_FLAGS { OpenNotCommon(n); }
    forall n | n in SlotNames(flags) ensures !CommonNamed(n) && Reserved(n) { FlagReserved(n); }
    SlotsConcat(common, binary);
    SlotsConcat(common + binary, flags);
    EmitNames(common);
    EmitNames(binary);
    EmitNames(flags);
    forall n ensures Emitted(common + binary + flags, n)
        <==> Emitted(common, n) || Emitted(binary, n) || Emitted(flags, n) {
      EmittedConcat(common, binary, n);
      EmittedConcat(common + binary, flags, n);
    }
  }

  /** The main role adds the multi-main timing, open as well, and one more flag. */
  lemma TimingWired(base: seq<Slot>, binary: seq<Slot>, timing: seq<Slot>, offload: seq<Slot>)
    requires Wired(base, binary)
    requires forall n | n in SlotNames(base) :: CommonNamed(n) || n in BINARY_DATA_NAMES || n in ROLE_FLAGS
    requires NamedIn(timing, MULTI_MAIN_TIMING) && NamedIn(offload, ROLE_FLAGS)
    requires forall n | n in SlotNames(offload) :: n !in SlotNames(base)
    ensures Wired(base + timing + offload, binary + timing)
  {
    forall n | n in SlotNames(timing) ensures !CommonNamed(n) && !Plain(n) && n !in ROLE_FLAGS
        && n !in BINARY_DATA_NAMES {
      OpenNotCommon(n);
    }
    forall n | n in SlotNames(offload) ensures Reserved(n) { FlagReserved(n); }
    SlotsConcat(base, timing);
    SlotsConcat(base + timing, offload);
    EmitNames(timing);
    EmitNames(offload);
    forall n
      ensures Emitted(base + timing + offload, n) <==> Emitted(base, n) || Emitted(timing, n) || Emitted(offload, n)
      ensures Emitted(binary + timing, n) <==> Emitted(binary, n) || Emitted(timing, n)
    {
      EmittedConcat(base, timing, n);
      EmittedConcat(base + timing, offload, n);
      EmittedConcat(binary, timing, n);
    }
  }

  lemma MainWired(c: Cluster, key: SecretKeyRef)
    ensures Wired(MainSlots(c, key), MainOpen(c))
  {
    hide CommonSlots, BinaryDataSlots, MultiMainTuning, Wired;
    var base := CommonSlots(c, key) + BinaryDataSlots(c.binaryData) + [MultiMainFlag(c)];
    CommonNames(c, key);
    BinaryDataNames(c.binaryData);
    RoleFlagNames(c);
    RoleWired(CommonSlots(c, key), BinaryDataSlots(c.binaryData), [MultiMainFlag(c)]);
    var off := SlotNames([WebhookOffloadSlot(c)])[0];
    FlagReserved(off);
    assert SlotNames(base)
           == SlotNames(CommonSlots(c, key)) + SlotNames(BinaryDataSlots(c.binaryData))
           + SlotNames([MultiMainFlag(c)]);
    TimingWired(base, BinaryDataSlots(c.binaryData), MultiMainTuning(c), [WebhookOffloadSlot(c)]);
  }

  /**
   In a validated Cluster's main container a name repeats exactly when an extraEnv list sets a
   binary-data or multi-main timing variable that the operator emits as well.
   */
  lemma MainEnvRepeats(c: Cluster, key: SecretKeyRef, n: string)
    requires ClusterError(c).None?
    ensures Repeats(EntryNames(MainEnv(c, key)), n)
       <==> Emitted(MainOpen(c), n) && (n in Names(c.extraEnv) || n in Names(c.main.extraEnv))
  {
    MainWired(c, key);
    RoleDefaultsPlain(c, c.main.host, c.main.networking);
    ContainerRepeats(MainSlots(c, key), MainOpen(c), RoleDefaults(c, c.main.host, c.main.networking),
                     c.secureCookie, c.extraEnv, c.main.extraEnv, n);
  }

  /** Such a Cluster: binary data in its default mode, and the same variable set by the user. */
  lemma DefaultModeRepeats(c: Cluster, key: SecretKeyRef)
    requires ClusterError(c).None? && c.binaryData == Some(BinaryDataSpec("default", None, None))
    requires c.main.extraEnv == [EnvVar("N8N_DEFAULT_BINARY_DATA_MODE", Some("database"), None)]
    ensures Repeats(EntryNames(MainEnv(c, key)), "N8N_DEFAULT_BINARY_DATA_MODE")
  {
    hide ClusterError, MainEnv, MultiMainTuning;
    var n := "N8N_DEFAULT_BINARY_DATA_MODE";
    MainEnvRepeats(c, key, n);
    DefaultModeEmitted(c);
    EmittedConcat(BinaryDataSlots(c.binaryData), MultiMainTuning(c), n);
    assert Names(c.main.extraEnv)[0] == n;
  }

  lemma DefaultModeEmitted(c: Cluster)
    requires c.binaryData == Some(BinaryDataSpec("default", None, None))
    ensures Emitted(BinaryDataSlots(c.binaryData), "N8N_DEFAULT_BINARY_DATA_MODE")
  {
    var slots := BinaryDataSlots(c.binaryData);
    assert "default"[0] == 'd' && "default"[1] == 'e';
    assert "s3"[0] == 's' && "database"[1] == 'a' && "filesystem"[0] == 'f';
    assert slots == [Fixed("N8N_DEFAULT_BINARY_DATA_MODE", "default")];
    assert slots[..0] == [];
    assert EntryNames(Emit(slots))[0] == "N8N_DEFAULT_BINARY_DATA_MODE";
  }

  lemma WorkerEnvRepeats(c: Cluster, key: SecretKeyRef, n: string)
    requires ClusterError(c).None?
    ensures Repeats(EntryNames(WorkerEnv(c, key)), n)
       <==> Emitted(BinaryDataSlots(c.binaryData), n) && (n in Names(c.extraEnv) || n in Names(c.workers.extraEnv))
  {
    CommonNames(c, key);
    BinaryDataNames(c.binaryData);
    RoleFlagNames(c);
    RoleWired(CommonSlots(c, key), BinaryDataSlots(c.binaryData), WorkerSlots(c));
    RoleDefaultsPlain(c, None, None);
    ContainerRepeats(CommonSlots(c, key) + BinaryDataSlots(c.binaryData) + WorkerSlots(c),
                     BinaryDataSlots(c.binaryData),
                     RoleDefaults(c, None, None), c.secureCookie, c.extraEnv, c.workers.extraEnv, n);
  }

  lemma WebhookEnvRepeats(c: Cluster, wh: WebhookConfig, key: SecretKeyRef, n: string)
    requires ClusterError(c).None? && c.webhooks == Some(wh)
    ensures Repeats(EntryNames(WebhookEnv(c, wh, key)), n)
       <==> Emitted(BinaryDataSlots(c.binaryData), n) && (n in Names(c.extraEnv) || n in Names(wh.extraEnv))
  {
    var slots := CommonSlots(c, key) + BinaryDataSlots(c.binaryData);
    CommonNames(c, key);
    BinaryDataNames(c.binaryData);
    assert slots + [] == slots;
    RoleWired(CommonSlots(c, key), BinaryDataSlots(c.binaryData), []);
    RoleDefaultsPlain(c, wh.host, wh.networking);
    ContainerRepeats(slots, BinaryDataSlots(c.binaryData), RoleDefaults(c, wh.host, wh.networking),
                     c.secureCookie, c.extraEnv, wh.extraEnv, n);
  }

  /** Every validated Single has each variable once. */
  lemma SingleEnvUnique(s: Single, key: SecretKeyRef)
    requires SingleError(s).None?
    ensures NoRepeats(EntryNames(SingleEnv(s, key)))
  {
    var head := [EncryptionSlot(key)];
    var db := if s.database.Some? then DbSlots(s.database.value) else [];
    assert SlotNames(head) == ["N8N_ENCRYPTION_KEY"];
    if s.database.Some? {
      DbNames(s.database.value);
    }
    Heads("N8N_ENCRYPTION_KEY");
    SlotsConcat(head, db);
    EmitNames(SingleSlots(s, key));
    assert Wired(SingleSlots(s, key), []);
    SingleDefaultsPlain(s);
    var names := EntryNames(SingleEnv(s, key));
    forall i, j | 0 <= i < j < |names| ensures names[i] != names[j] {
      ContainerRepeats(SingleSlots(s, key), [], SingleDefaults(s), s.secureCookie, s.extraEnv, [], names[i]);
    }
  }

  // ----- One webhook URL for all roles -----

  /** The value of the cluster-wide webhook URL, as a container sees it. */
  function ClusterWebhookValue(c: Cluster): Option<EnvValue> {
    match ClusterWebhookUrl(c)
    case Some(e) => Some(Render(e).value)
    case None => None
  }

  lemma WebhookUrlNotWired(slots: seq<Slot>, open: seq<Slot>)
    requires Wired(slots, open)
    ensures Lookup(Emit(slots), WEBHOOK_URL).None?
  {
    HostPlain(WEBHOOK_URL);
    LookupAbsent(Emit(slots), WEBHOOK_URL);
  }

  /** The defaults of a role end in the cluster-wide URL; nothing before it has that name. */
  function OtherDefaults(c: Cluster, host: Option<string>, net: Option<NetworkingSpec>): seq<EnvVar> {
    HostEnv(host, ProtocolFor(net)) + SmtpEnv(c.smtp) + LoggingEnv(c.logging) + CommunityEnv(c.communityNodes)
  }

  lemma OtherDefaultsNames(c: Cluster, host: Option<string>, net: Option<NetworkingSpec>)
    ensures WEBHOOK_URL !in LayerMap(OtherDefaults(c, host, net))
        && WEBHOOK_URL !in LayerMap(CookieLayer(c.secureCookie))
  {
    var names := HOST_NAMES - {WEBHOOK_URL} + SMTP_NAMES + LOGGING_NAMES + COMMUNITY_NAMES;
    LayerNames(c.smtp, c.logging, c.communityNodes, host, ProtocolFor(net), c.secureCookie);
    NotWebhookUrl();
    NotInLayer(OtherDefaults(c, host, net), names);
    NotInLayer(CookieLayer(c.secureCookie), names);
  }

  lemma NotInLayer(layer: seq<EnvVar>, names: set<string>)
    requires AllIn(layer, names) && WEBHOOK_URL !in names
    ensures WEBHOOK_URL !in LayerMap(layer)
  {
    NamesOfLayer(layer);
  }

  lemma UrlLayer(v: Option<EnvVar>)
    requires v.Some? ==> v.value.name == WEBHOOK_URL
    ensures LayerMap(AsLayer(v)) == match v case Some(e) => map[WEBHOOK_URL := e] case None => map[]
  {
    if v.Some? {
      assert AsLayer(v)[..0] == [];
    }
  }

  lemma RoleWebhookUrl(c: Cluster, slots: seq<Slot>, open: seq<Slot>, host: Option<string>,
                       net: Option<NetworkingSpec>, extra: seq<EnvVar>)
    requires Wired(slots, open)
    requires WEBHOOK_URL !in Names(c.extraEnv) && WEBHOOK_URL !in Names(extra)
    ensures Lookup(Emit(slots) + UserEnv(Layered(RoleDefaults(c, host, net), c.secureCookie, c.extraEnv, extra)),
                   WEBHOOK_URL)
         == ClusterWebhookValue(c)
  {
    var defaults := RoleDefaults(c, host, net);
    assert defaults == OtherDefaults(c, host, net) + AsLayer(ClusterWebhookUrl(c));
    WebhookUrlNotWired(slots, open);
    LookupConcat(Emit(slots), UserEnv(Layered(defaults, c.secureCookie, c.extraEnv, extra)), WEBHOOK_URL);
    UserEnvIsMerge(defaults, c.secureCookie, c.extraEnv, extra, WEBHOOK_URL);
    LayerMapConcat(OtherDefaults(c, host, net), AsLayer(ClusterWebhookUrl(c)));
    OtherDefaultsNames(c, host, net);
    UrlLayer(ClusterWebhookUrl(c));
    NamesOfLayer(c.extraEnv);
    NamesOfLayer(extra);
  }

  lemma NotWebhookUrl()
    ensures WEBHOOK_URL !in SMTP_NAMES + LOGGING_NAMES + COMMUNITY_NAMES
  {
    if WEBHOOK_URL in SMTP_NAMES { SmtpPlain(WEBHOOK_URL); }
    if WEBHOOK_URL in LOGGING_NAMES { LoggingPlain(WEBHOOK_URL); }
    if WEBHOOK_URL in COMMUNITY_NAMES { CommunityPlain(WEBHOOK_URL); }
  }

  /** Main, worker and webhook containers agree on the webhook URL, or all omit it. */
  lemma WebhookUrlAgrees(c: Cluster, key: SecretKeyRef)
    requires WEBHOOK_URL !in Names(c.extraEnv) && WEBHOOK_URL !in Names(c.main.extraEnv)
    requires WEBHOOK_URL !in Names(c.workers.extraEnv)
    requires c.webhooks.Some? ==> WEBHOOK_URL !in Names(c.webhooks.value.extraEnv)
    ensures Lookup(MainEnv(c, key), WEBHOOK_URL) == ClusterWebhookValue(c)
    ensures Lookup(WorkerEnv(c, key), WEBHOOK_URL) == ClusterWebhookValue(c)
    ensures c.webhooks.Some? ==> Lookup(WebhookEnv(c, c.webhooks.value, key), WEBHOOK_URL) == ClusterWebhookValue(c)
  {
    var common, binary := CommonSlots(c, key), BinaryDataSlots(c.binaryData);
    MainWired(c, key);
    RoleWebhookUrl(c, MainSlots(c, key), MainOpen(c), c.main.host, c.main.networking, c.main.extraEnv);
    CommonNames(c, key);
    BinaryDataNames(c.binaryData);
    RoleFlagNames(c);
    RoleWired(common, binary, WorkerSlots(c));
    RoleWebhookUrl(c, common + binary + WorkerSlots(c), binary, None, None, c.workers.extraEnv);
    RoleWired(common, binary, []);
    assert common + binary + [] == common + binary;
    if c.webhooks.Some? {
      var wh := c.webhooks.value;
      RoleWebhookUrl(c, common + binary, binary, wh.host, wh.networking, wh.extraEnv);
    }
  }
}

/**
 What the containers of a legal spec are told, setting by setting, in terms of the spec alone: the queue, the database
 and Redis in any case, and everything else unless an `extraEnv` list names the variable.
 */
module EnvSettings {
  import opened Wrappers
  import opened Kube
  import opened Resources
  import opened Rules
  import opened Env
  import opened OperatorEnv
  import opened EnvUnique
  import opened EnvValues

  // ----- One variable -----

  /** The container has this value, or none, unless the user's entries name the variable. */
  predicate Has(env: seq<EnvEntry>, user: seq<EnvVar>, name: string, v: Option<EnvValue>) {
    name in Names(user) || Lookup(env, name) == v
  }

  predicate HasText(env: seq<EnvEntry>, user: seq<EnvVar>, name: string, v: Option<string>) {
    Has(env, user, name, if v.Some? then Some(Inline(v.value)) else None)
  }

  predicate HasFlag(env: seq<EnvEntry>, user: seq<EnvVar>, name: string, v: Option<bool>) {
    Has(env, user, name, if v == Some(true) then Some(Inline("true"))
                         else if v == Some(false) then Some(Inline("false")) else None)
  }

  predicate HasKey(env: seq<EnvEntry>, user: seq<EnvVar>, name: string, r: Option<SecretKeyRef>) {
    Has(env, user, name, if r.Some? then Some(FromSecret(r.value.name, r.value.key)) else None)
  }

  predicate HasNumber(env: seq<EnvEntry>, user: seq<EnvVar>, name: string, n: Option<int>) {
    name in Names(user)
    || match Lookup(env, name)
       case Some(Inline(t)) => n.Some? && Decimal(t, n.value)
       case Some(FromSecret(_, _)) => false
       case None => n.None?
  }

  function Worth(t: string): int {
    if t == "" then 0 else 10 * Worth(t[..|t| - 1]) + (t[|t| - 1] as int - '0' as int)
  }

  /** The digits of this number, without a leading zero. */
  predicate Digits(t: string, n: int) {
    && t != "" && (t[0] == '0' ==> n == 0) && (n == 0 ==> |t| == 1)
    && (forall i | 0 <= i < |t| :: '0' <= t[i] <= '9') && Worth(t) == n
  }

  predicate Decimal(t: string, n: int) {
    if n < 0 then |t| > 0 && t[0] == '-' && Digits(t[1..], -n) else Digits(t, n)
  }

  lemma {:induction false} NatTextDigits(n: nat)
    ensures Digits(NatText(n), n)
  {
    if n >= 10 {
      NatTextDigits(n / 10);
      assert NatText(n)[..|NatText(n)| - 1] == NatText(n / 10);
    } else {
      assert NatText(n)[..0] == "";
    }
  }

  lemma IntTextDecimal(n: int)
    ensures Decimal(IntText(n), n)
  {
    hide Digits;
    if n < 0 {
      NatTextDigits(-n);
      assert ("-" + NatText(-n))[1..] == NatText(-n);
    } else {
      NatTextDigits(n);
    }
  }

  // ----- Variables of the operator alone -----

  predicate QueueSeen(env: seq<EnvEntry>, key: SecretKeyRef) {
    && HasText(env, [], "EXECUTIONS_MODE", Some("queue"))
    && HasText(env, [], "OFFLOAD_MANUAL_EXECUTIONS_TO_WORKERS", Some("true"))
    && HasKey(env, [], "N8N_ENCRYPTION_KEY", Some(key))
  }

  predicate SslSeen(env: seq<EnvEntry>, prefix: string, ssl: DatabaseSsl) {
    && HasFlag(env, [], prefix + "_SSL_ENABLED", Some(ssl.enabled))
    && HasFlag(env, [], prefix + "_SSL_REJECT_UNAUTHORIZED", ssl.rejectUnauthorized)
    && HasText(env, [], prefix + "_SSL_CA", if ssl.caSecret.Some? then Some("/etc/n8n/ssl/ca/ca.crt") else None)
    && HasText(env, [], prefix + "_SSL_CERT", if ssl.certSecret.Some? then Some("/etc/n8n/ssl/cert/cert.crt") else None)
    && HasText(env, [], prefix + "_SSL_KEY", if ssl.keySecret.Some? then Some("/etc/n8n/ssl/key/key.pem") else None)
  }

  predicate PostgresSeen(env: seq<EnvEntry>, pg: PostgresConfig) {
    && HasText(env, [], "DB_POSTGRESDB_HOST", Some(pg.host)) && HasNumber(env, [], "DB_POSTGRESDB_PORT", pg.port)
    && HasText(env, [], "DB_POSTGRESDB_DATABASE", Some(pg.database))
    && HasKey(env, [], "DB_POSTGRESDB_USER", Some(pg.userSecret))
    && HasKey(env, [], "DB_POSTGRESDB_PASSWORD", Some(pg.passwordSecret))
    && HasText(env, [], "DB_POSTGRESDB_SCHEMA", pg.schema) && HasNumber(env, [], "DB_POSTGRESDB_POOL_SIZE", pg.poolSize)
    && HasNumber(env, [], "DB_POSTGRESDB_CONNECTION_TIMEOUT", pg.connectionTimeoutMs)
    && (pg.ssl.Some? ==> SslSeen(env, "DB_POSTGRESDB", pg.ssl.value))
  }

  predicate MysqlSeen(env: seq<EnvEntry>, my: MysqlConfig) {
    && HasText(env, [], "DB_MYSQLDB_HOST", Some(my.host)) && HasNumber(env, [], "DB_MYSQLDB_PORT", my.port)
    && HasText(env, [], "DB_MYSQLDB_DATABASE", Some(my.database)) && HasText(env, [], "DB_MYSQLDB_USER", Some(my.user))
    && HasKey(env, [], "DB_MYSQLDB_PASSWORD", Some(my.passwordSecret))
    && HasNumber(env, [], "DB_MYSQLDB_CONNECTION_TIMEOUT", my.connectionTimeoutMs)
    && (my.ssl.Some? ==> SslSeen(env, "DB_MYSQLDB", my.ssl.value))
  }

  predicate SqliteSeen(env: seq<EnvEntry>, sq: SqliteConfig) {
    && HasNumber(env, [], "DB_SQLITE_POOL_SIZE", sq.poolSize)
    && HasFlag(env, [], "DB_SQLITE_VACUUM_ON_STARTUP", sq.vacuumOnStartup)
    && HasText(env, [], "DB_SQLITE_DATABASE", sq.database)
  }

  predicate DatabaseSeen(env: seq<EnvEntry>, db: DatabaseSpec) {
    && HasText(env, [], "DB_TYPE", Some(db.kind))
    && (db.postgres.Some? ==> PostgresSeen(env, db.postgres.value))
    && (db.mysql.Some? ==> MysqlSeen(env, db.mysql.value))
    && (db.sqlite.Some? ==> SqliteSeen(env, db.sqlite.value))
  }

  predicate RedisSeen(env: seq<EnvEntry>, redis: RedisConfig) {
    && HasText(env, [], "QUEUE_BULL_REDIS_HOST", Some(redis.host))
    && HasNumber(env, [], "QUEUE_BULL_REDIS_PORT", redis.port) && HasNumber(env, [], "QUEUE_BULL_REDIS_DB", redis.db)
    && HasKey(env, [], "QUEUE_BULL_REDIS_PASSWORD", redis.passwordSecret)
    && HasKey(env, [], "QUEUE_BULL_REDIS_USERNAME", redis.usernameSecret)
    && HasFlag(env, [], "QUEUE_BULL_REDIS_TLS", redis.tls) && HasText(env, [], "QUEUE_BULL_PREFIX", redis.prefix)
  }

  /** The container has what each of these slots says. */
  predicate Shown(env: seq<EnvEntry>, slots: seq<Slot>) {
    forall s | s in slots :: Lookup(env, s.name) == s.value
  }

  lemma UnsetByUsers(n: string, cluster: seq<EnvVar>, role: seq<EnvVar>)
    requires LegalEnv(cluster) && LegalEnv(role) && OperatorsOwn(n)
    ensures n !in Names(cluster + role)
  {
    hide OperatorsOwn;
    var all := cluster + role;
    assert forall i | 0 <= i < |all| :: Names(all)[i] == all[i].name && all[i] == if i < |cluster| then cluster[i]
                                                                                else role[i - |cluster|];
  }

  /** Variables of the operator alone have their values whatever the lists say. */
  lemma OwnShown(env: seq<EnvEntry>, slots: seq<Slot>, d: seq<EnvVar>, cookie: Option<bool>, cluster: seq<EnvVar>,
                 role: seq<EnvVar>, own: seq<Slot>)
    requires Container(env, slots, d, cookie, cluster, role) && LegalEnv(cluster) && LegalEnv(role)
    requires forall s | s in own :: s in slots && OperatorsOwn(s.name)
    ensures Shown(env, own)
  {
    forall s | s in own ensures Lookup(env, s.name) == s.value {
      var i :| 0 <= i < |slots| && slots[i] == s;
      assert SlotNames(slots)[i] == s.name;
      hide Container, OperatorsOwn;
      UnsetByUsers(s.name, cluster, role);
      EmittedSeen(env, slots, d, cookie, cluster, role, s.name);
    }
  }

  // ----- Reading the slots off -----

  lemma SlotShown(env: seq<EnvEntry>, slots: seq<Slot>, i: nat)
    requires Shown(env, slots) && i < |slots|
    ensures Lookup(env, slots[i].name) == slots[i].value
  {}

  lemma ShownParts(env: seq<EnvEntry>, a: seq<Slot>, b: seq<Slot>)
    requires Shown(env, a + b)
    ensures Shown(env, a) && Shown(env, b)
  {
    assert forall s | s in a || s in b :: s in a + b;
  }

  lemma NumberShown(env: seq<EnvEntry>, name: string, n: Option<int>)
    requires Lookup(env, name) == IntIf(n)
    ensures HasNumber(env, [], name, n)
  {
    hide IntText, Decimal;
    if n.Some? {
      IntTextDecimal(n.value);
    }
  }

  lemma CountShown(env: seq<EnvEntry>, name: string, n: Option<nat>)
    requires Lookup(env, name) == NatIf(n)
    ensures HasNumber(env, [], name, n)
  {
    hide NatText, Digits;
    if n.Some? {
      NatTextDigits(n.value);
    }
  }

  lemma QueueShown(env: seq<EnvEntry>, key: SecretKeyRef)
    requires Shown(env, QueueModeSlots(key))
    ensures QueueSeen(env, key)
  {
    hide Shown, Lookup;
    var slots := QueueModeSlots(key);
    SlotShown(env, slots, 0);
    SlotShown(env, slots, 1);
    SlotShown(env, slots, 2);
  }

  lemma SslShown(env: seq<EnvEntry>, prefix: string, ssl: DatabaseSsl)
    requires Shown(env, SslSlots(prefix, Some(ssl)))
    ensures SslSeen(env, prefix, ssl)
  {
    hide Shown, Lookup;
    var slots := SslSlots(prefix, Some(ssl));
    forall i: nat | i < 5 ensures Lookup(env, slots[i].name) == slots[i].value {
      SlotShown(env, slots, i);
    }
    assert slots[0] == Fixed(prefix + "_SSL_ENABLED", BoolText(ssl.enabled));
    assert slots[1] == Slot(prefix + "_SSL_REJECT_UNAUTHORIZED", BoolIf(ssl.rejectUnauthorized));
    assert slots[2].name == prefix + "_SSL_CA" && slots[3].name == prefix + "_SSL_CERT"
        && slots[4].name == prefix + "_SSL_KEY";
  }

  lemma PostgresShown(env: seq<EnvEntry>, pg: PostgresConfig)
    requires Shown(env, PostgresSlots(pg))
    ensures PostgresSeen(env, pg)
  {
    hide Shown, Lookup, SslSeen, SslSlots, IntText, NatText, HasNumber;
    var slots := PostgresSlots(pg);
    forall i: nat | i < 8 ensures Lookup(env, slots[i].name) == slots[i].value {
      SlotShown(env, slots, i);
    }
    assert slots[0] == Fixed("DB_POSTGRESDB_HOST", pg.host) && slots[2] == Fixed("DB_POSTGRESDB_DATABASE", pg.database);
    assert slots[3] == Slot("DB_POSTGRESDB_USER", SecretIf(Some(pg.userSecret)));
    assert slots[4] == Slot("DB_POSTGRESDB_PASSWORD", SecretIf(Some(pg.passwordSecret)));
    assert slots[5] == Slot("DB_POSTGRESDB_SCHEMA", TextIf(pg.schema));
    NumberShown(env, slots[1].name, pg.port);
    CountShown(env, slots[6].name, pg.poolSize);
    CountShown(env, slots[7].name, pg.connectionTimeoutMs);
    if pg.ssl.Some? {
      ShownParts(env, slots[..8], SslSlots("DB_POSTGRESDB", pg.ssl));
      SslShown(env, "DB_POSTGRESDB", pg.ssl.value);
    }
  }

  lemma MysqlShown(env: seq<EnvEntry>, my: MysqlConfig)
    requires Shown(env, MysqlSlots(my))
    ensures MysqlSeen(env, my)
  {
    hide Shown, Lookup, SslSeen, SslSlots, IntText, NatText, HasNumber;
    var slots := MysqlSlots(my);
    forall i: nat | i < 6 ensures Lookup(env, slots[i].name) == slots[i].value {
      SlotShown(env, slots, i);
    }
    assert slots[0] == Fixed("DB_MYSQLDB_HOST", my.host) && slots[2] == Fixed("DB_MYSQLDB_DATABASE", my.database);
    assert slots[3] == Fixed("DB_MYSQLDB_USER", my.user);
    assert slots[4] == Slot("DB_MYSQLDB_PASSWORD", SecretIf(Some(my.passwordSecret)));
    NumberShown(env, slots[1].name, my.port);
    CountShown(env, slots[5].name, my.connectionTimeoutMs);
    if my.ssl.Some? {
      ShownParts(env, slots[..6], SslSlots("DB_MYSQLDB", my.ssl));
      SslShown(env, "DB_MYSQLDB", my.ssl.value);
    }
  }

  lemma SqliteShown(env: seq<EnvEntry>, sq: SqliteConfig)
    requires Shown(env, SqliteSlots(sq))
    ensures SqliteSeen(env, sq)
  {
    hide Shown, Lookup, NatText, HasNumber;
    var slots := SqliteSlots(sq);
    forall i: nat | i < 3 ensures Lookup(env, slots[i].name) == slots[i].value {
      SlotShown(env, slots, i);
    }
    CountShown(env, slots[0].name, sq.poolSize);
    assert slots[1] == Slot("DB_SQLITE_VACUUM_ON_STARTUP", BoolIf(sq.vacuumOnStartup));
    assert slots[2] == Slot("DB_SQLITE_DATABASE", TextIf(sq.database));
  }

  lemma DatabaseShown(env: seq<EnvEntry>, db: DatabaseSpec)
    requires Shown(env, DbSlots(db)) && LegalDatabase(db)
    ensures DatabaseSeen(env, db)
  {
    hide Shown, Lookup, PostgresSlots, MysqlSlots, SqliteSlots, PostgresSeen, MysqlSeen, SqliteSeen;
    ShownParts(env, [Fixed("DB_TYPE", db.kind)], BackendSlots(db));
    SlotShown(env, [Fixed("DB_TYPE", db.kind)], 0);
    KindsDiffer();
    if db.postgres.Some? {
      PostgresShown(env, db.postgres.value);
    } else if db.mysql.Some? {
      MysqlShown(env, db.mysql.value);
    } else if db.sqlite.Some? {
      SqliteShown(env, db.sqlite.value);
    }
  }

  lemma KindsDiffer()
    ensures "postgresdb" != "sqlite" && "postgresdb" != "mysqldb" && "postgresdb" != "mariadb"
    ensures "sqlite" != "mysqldb" && "sqlite" != "mariadb"
  {
    assert "postgresdb"[0] == 'p' && "sqlite"[0] == 's' && "mysqldb"[0] == 'm' && "mariadb"[0] == 'm';
  }

  lemma RedisShown(env: seq<EnvEntry>, redis: RedisConfig)
    requires Shown(env, RedisSlots(redis))
    ensures RedisSeen(env, redis)
  {
    hide Shown, Lookup, NatText, HasNumber;
    var slots := RedisSlots(redis);
    forall i: nat | i < 7 ensures Lookup(env, slots[i].name) == slots[i].value {
      SlotShown(env, slots, i);
    }
    assert slots[0] == Fixed("QUEUE_BULL_REDIS_HOST", redis.host);
    CountShown(env, slots[1].name, redis.port);
    CountShown(env, slots[2].name, redis.db);
    assert slots[3] == Slot("QUEUE_BULL_REDIS_PASSWORD", SecretIf(redis.passwordSecret));
    assert slots[4] == Slot("QUEUE_BULL_REDIS_USERNAME", SecretIf(redis.usernameSecret));
    assert slots[5] == Slot("QUEUE_BULL_REDIS_TLS", BoolIf(redis.tls));
    assert slots[6] == Slot("QUEUE_BULL_PREFIX", TextIf(redis.prefix));
  }

  // ----- Whole containers -----

  /** What every container of a Cluster is told about the queue, the database and Redis. */
  predicate BackendsSeen(env: seq<EnvEntry>, c: Cluster, key: SecretKeyRef) {
    QueueSeen(env, key) && DatabaseSeen(env, c.database) && RedisSeen(env, c.redis)
  }

  lemma CommonOwn(n: string)
    requires CommonNamed(n)
    ensures OperatorsOwn(n)
  {
    if StartsWith(n, "DB_") {
      assert n[..3] == "DB_";
    } else if StartsWith(n, "QUEUE_BULL_") {
      assert n[..11] == "QUEUE_BULL_";
    }
  }

  lemma OwnNames(slots: seq<Slot>)
    requires forall n | n in SlotNames(slots) :: CommonNamed(n)
    ensures forall s | s in slots :: OperatorsOwn(s.name)
  {
    hide CommonNamed, OperatorsOwn;
    forall s | s in slots ensures OperatorsOwn(s.name) {
      var i :| 0 <= i < |slots| && slots[i] == s;
      assert SlotNames(slots)[i] == s.name;
      CommonOwn(s.name);
    }
  }

  lemma CommonSeen(env: seq<EnvEntry>, rest: seq<Slot>, d: seq<EnvVar>, role: seq<EnvVar>, c: Cluster,
                   key: SecretKeyRef)
    requires Container(env, CommonSlots(c, key) + rest, d, c.secureCookie, c.extraEnv, role)
    requires LegalServer(c.database) && LegalEnv(c.extraEnv) && LegalEnv(role)
    ensures BackendsSeen(env, c, key)
  {
    CommonNotPlain(c, key);
    hide Container, Shown, LegalEnv, DbSlots, RedisSlots, QueueModeSlots, OperatorsOwn, DatabaseSeen, RedisSeen,
         QueueSeen, CommonNamed;
    var slots := CommonSlots(c, key);
    OwnNames(slots);
    OwnShown(env, slots + rest, d, c.secureCookie, c.extraEnv, role, slots);
    ShownParts(env, QueueModeSlots(key) + DbSlots(c.database), RedisSlots(c.redis));
    ShownParts(env, QueueModeSlots(key), DbSlots(c.database));
    QueueShown(env, key);
    DatabaseShown(env, c.database);
    RedisShown(env, c.redis);
  }

  /**
   Every container of a legal Cluster has the queue's, the database's and Redis' settings, each from its own field.
   */
  lemma ClusterBackends(c: Cluster, key: SecretKeyRef)
    requires LegalCluster(c)
    ensures BackendsSeen(MainEnv(c, key), c, key) && BackendsSeen(WorkerEnv(c, key), c, key)
    ensures c.webhooks.Some? ==> BackendsSeen(WebhookEnv(c, c.webhooks.value, key), c, key)
  {
    hide CommonSlots, Container, BackendsSeen, LegalServer, LegalEnv, RoleDefaults, BinaryDataSlots, MultiMainTuning,
         MainEnv, WorkerEnv, WebhookEnv, WorkerSlots;
    var a, b := CommonSlots(c, key), BinaryDataSlots(c.binaryData);
    var flags := b + [MultiMainFlag(c)] + MultiMainTuning(c) + [WebhookOffloadSlot(c)];
    MainContainer(c, key);
    assert MainSlots(c, key) == a + flags;
    CommonSeen(MainEnv(c, key), flags, RoleDefaults(c, c.main.host, c.main.networking), c.main.extraEnv, c, key);
    WorkerContainer(c, key);
    assert a + b + WorkerSlots(c) == a + (b + WorkerSlots(c));
    CommonSeen(WorkerEnv(c, key), b + WorkerSlots(c), RoleDefaults(c, None, None), c.workers.extraEnv, c, key);
    if c.webhooks.Some? {
      var wh := c.webhooks.value;
      WebhookContainer(c, wh, key);
      CommonSeen(WebhookEnv(c, wh, key), b, RoleDefaults(c, wh.host, wh.networking), wh.extraEnv, c, key);
    }
  }

  /** A Single's container has the key, and the database's settings if it has one. */
  lemma SingleBackends(s: Single, key: SecretKeyRef)
    requires LegalSingle(s)
    ensures HasKey(SingleEnv(s, key), [], "N8N_ENCRYPTION_KEY", Some(key))
    ensures s.database.Some? ==> DatabaseSeen(SingleEnv(s, key), s.database.value)
  {
    assert LegalEnv([]);
    hide DbSlots, Container, LegalDatabase, LegalEnv, SingleDefaults, DatabaseSeen, SingleEnv, Shown, Lookup,
         OperatorsOwn;
    var env, head := SingleEnv(s, key), [EncryptionSlot(key)];
    SingleContainer(s, key);
    assert SlotNames(head) == ["N8N_ENCRYPTION_KEY"] && "N8N_ENCRYPTION_KEY" in FIXED_NAMES;
    OwnNames(head);
    OwnShown(env, SingleSlots(s, key), SingleDefaults(s), s.secureCookie, s.extraEnv, [], head);
    SlotShown(env, head, 0);
    if s.database.Some? {
      var db := DbSlots(s.database.value);
      DbNames(s.database.value);
      OwnNames(db);
      OwnShown(env, SingleSlots(s, key), SingleDefaults(s), s.secureCookie, s.extraEnv, [], db);
      DatabaseShown(env, s.database.value);
    }
  }
}

/** What a legal Cluster and a legal Single are, rule by rule, independently of the order in which they are checked. */
module Rules {
  import opened Wrappers
  import opened Resources

  /** Variables the operator alone may set. */
  predicate OperatorsOwn(n: string) {
    || n == "N8N_ENCRYPTION_KEY" || n == "EXECUTIONS_MODE" || n == "OFFLOAD_MANUAL_EXECUTIONS_TO_WORKERS"
    || n == "N8N_CONCURRENCY_PRODUCTION_LIMIT" || n == "QUEUE_HEALTH_CHECK_ACTIVE"
    || n == "N8N_DISABLE_PRODUCTION_MAIN_PROCESS" || n == "N8N_MULTI_MAIN_SETUP_ENABLED"
    || (|n| >= 3 && n[..3] == "DB_") || (|n| >= 11 && n[..11] == "QUEUE_BULL_")
  }

  /** No entry sets such a variable, and each has exactly one source for its value. */
  predicate LegalEnv(env: seq<EnvVar>) {
    forall i | 0 <= i < |env| :: !OperatorsOwn(env[i].name) && env[i].value.Some? != env[i].valueFrom.Some?
  }

  /** Queue mode needs a shared database: a server of a known type, described by its own section alone. */
  predicate LegalServer(db: DatabaseSpec) {
    && db.sqlite.None?
    && (if db.kind == "postgresdb" then db.postgres.Some? && db.mysql.None?
        else (db.kind == "mysqldb" || db.kind == "mariadb") && db.mysql.Some? && db.postgres.None?)
  }

  /** A Single may also keep its data in a file. */
  predicate LegalDatabase(db: DatabaseSpec) {
    LegalServer(db) || (db.kind == "sqlite" && db.postgres.None? && db.mysql.None?)
  }

  predicate LegalSmtp(smtp: Option<SmtpConfig>) {
    smtp.None? || smtp.value.port > 0
  }

  /** Packages listed, packages on shared storage, packages reinstalled at the start: at most one of the three. */
  predicate LegalCommunity(cn: Option<CommunityNodes>) {
    cn.None?
    || (cn.value.sharedStorage.None? && cn.value.reinstallMissing != Some(true))
    || (cn.value.packages == [] && cn.value.reinstallMissing != Some(true))
    || (cn.value.packages == [] && cn.value.sharedStorage.None?)
  }

  /** A known mode; the bucket for `s3`, and shared storage for `filesystem` only. */
  predicate LegalBinaryData(bd: Option<BinaryDataSpec>) {
    bd.None?
    || bd.value.mode == "filesystem"
    || (bd.value.sharedStorage.None?
        && (bd.value.mode == "default" || bd.value.mode == "database" || (bd.value.mode == "s3" && bd.value.s3.Some?)))
  }

  /** Surge and unavailability belong to rolling updates. */
  predicate LegalStrategy(s: Option<Strategy>) {
    s.None? || s.value.kind == "RollingUpdate"
    || (s.value.kind == "Recreate" && s.value.maxSurge.None? && s.value.maxUnavailable.None?)
  }

  predicate LegalEnvs(c: Cluster) {
    && LegalEnv(c.extraEnv) && LegalEnv(c.main.extraEnv) && LegalEnv(c.workers.extraEnv)
    && (c.webhooks.Some? ==> LegalEnv(c.webhooks.value.extraEnv))
  }

  predicate LegalStrategies(c: Cluster) {
    && LegalStrategy(c.main.strategy) && LegalStrategy(c.workers.strategy)
    && (c.webhooks.Some? ==> LegalStrategy(c.webhooks.value.strategy))
  }

  predicate LegalCluster(c: Cluster) {
    && LegalServer(c.database) && LegalEnvs(c)
    && LegalSmtp(c.smtp) && LegalCommunity(c.communityNodes) && LegalBinaryData(c.binaryData)
    && LegalStrategies(c)
  }

  /** An Ingress or a route, not both. */
  predicate OneWayIn(net: Option<NetworkingSpec>) {
    net.None? || net.value.ingress.None? || net.value.httpRoute.None?
  }

  predicate LegalSingle(s: Single) {
    && s.name != "illegal" && OneWayIn(s.networking)
    && (s.database.None? || LegalDatabase(s.database.value))
    && LegalEnv(s.extraEnv) && LegalSmtp(s.smtp) && LegalStrategy(s.strategy)
  }

  // ----- Assistant -----

  /** A custom endpoint serves any model; otherwise the name says which provider it is, and its key is needed. */
  predicate LegalModel(a: Assistant) {
    var n := a.modelName;
    if a.modelUrl.Some? then n != ""
    else
      && a.modelKey.Some?
      && ((|n| > 10 && n[..10] == "anthropic/") || (|n| > 7 && n[..7] == "openai/")
          || (|n| > 11 && n[..11] == "openrouter/"))
  }

  /** The generated key of a Cluster or Single is nobody's model key. */
  predicate LegalKeyRef(r: Option<SecretKeyRef>) {
    r.None? || (r.value.name != "" && r.value.key != "" && r.value.key != "encryption_key")
  }

  /** A DNS label as Kubernetes takes it (RFC 1123, section 2.1, in lower case). */
  predicate LegalNamespace(n: string) {
    && 0 < |n| <= 63 && n[0] != '-' && n[|n| - 1] != '-'
    && forall i | 0 <= i < |n| :: n[i] == '-' || 'a' <= n[i] <= 'z' || '0' <= n[i] <= '9'
  }

  predicate LegalAssistant(a: Assistant) {
    && (a.targetKind == "Cluster" || a.targetKind == "Single") && a.targetName != ""
    && LegalModel(a) && LegalKeyRef(a.modelKey) && LegalKeyRef(a.brave)
    && LegalNamespace(if a.sandboxNs.Some? then a.sandboxNs.value else a.ns)
    && a.version != "" && a.sandboxImage != ""
    && |a.ns| + |a.name| <= 38
  }
}

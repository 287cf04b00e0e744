/** The validators of Single and Cluster. */
module Validate {
  import opened Wrappers
  import opened Resources
  import opened Env
  import opened Rules

  const RESERVED_ENV: set<string> :=
    { "N8N_ENCRYPTION_KEY", "EXECUTIONS_MODE", "OFFLOAD_MANUAL_EXECUTIONS_TO_WORKERS",
      "N8N_CONCURRENCY_PRODUCTION_LIMIT", "QUEUE_HEALTH_CHECK_ACTIVE",
      "N8N_DISABLE_PRODUCTION_MAIN_PROCESS", "N8N_MULTI_MAIN_SETUP_ENABLED" }

  predicate Reserved(name: string) {
    name in RESERVED_ENV || StartsWith(name, "DB_") || StartsWith(name, "QUEUE_BULL_")
  }

  predicate EnvAllowed(env: seq<EnvVar>) {
    forall e | e in env :: !Reserved(e.name) && (e.value.Some? <==> e.valueFrom.None?)
  }

  /** `validate_extra_env`: stops at the first offending entry. */
  method ValidateExtraEnv(env: seq<EnvVar>) returns (r: Outcome)
    ensures (r.Pass? <==> EnvAllowed(env)) && (r.Pass? <==> LegalEnv(env))
    ensures r.Fail? ==> r.error == IllegalEnv
  {
    EnvLegal(env);
    for i := 0 to |env|
      invariant EnvAllowed(env[..i])
    {
      var e := env[i];
      if Reserved(e.name) || (e.value.Some? <==> e.valueFrom.Some?) {
        return Fail(IllegalEnv);
      }
    }
    assert env[..|env|] == env;
    r := Pass;
  }

  predicate StrategyAllowed(s: Option<Strategy>) {
    s.Some? ==>
      && (s.value.kind == "RollingUpdate" || s.value.kind == "Recreate")
      && (s.value.kind == "Recreate" ==> s.value.maxSurge.None? && s.value.maxUnavailable.None?)
  }

  predicate SmtpAllowed(smtp: Option<SmtpConfig>) {
    smtp.Some? ==> smtp.value.port != 0
  }

  predicate CommunityAllowed(community: Option<CommunityNodes>) {
    community.Some? ==>
      var cn := community.value;
      && !(cn.packages != [] && cn.sharedStorage.Some?)
      && !(cn.packages != [] && cn.reinstallMissing == Some(true))
      && !(cn.sharedStorage.Some? && cn.reinstallMissing == Some(true))
  }

  predicate DatabaseAllowed(db: DatabaseSpec) {
    if db.kind == "sqlite" then db.postgres.None? && db.mysql.None?
    else if db.kind == "postgresdb" then db.postgres.Some? && db.sqlite.None? && db.mysql.None?
    else if db.kind == "mysqldb" || db.kind == "mariadb" then db.mysql.Some? && db.sqlite.None? && db.postgres.None?
    else false
  }

  predicate BinaryDataAllowed(bd: Option<BinaryDataSpec>) {
    bd.Some? ==>
      && bd.value.mode in ["default", "database", "filesystem", "s3"]
      && (bd.value.mode == "s3" ==> bd.value.s3.Some?)
      && (bd.value.sharedStorage.Some? ==> bd.value.mode == "filesystem")
  }

  /** The first error of `validate_cluster`, if any. */
  function ClusterError(c: Cluster): Option<Error> {
    if !DatabaseAllowed(c.database) then Some(IllegalDatabase)
    else if c.database.kind == "sqlite" then Some(IllegalCluster)
    else if !(EnvAllowed(c.extraEnv) && EnvAllowed(c.main.extraEnv) && EnvAllowed(c.workers.extraEnv)
              && (c.webhooks.Some? ==> EnvAllowed(c.webhooks.value.extraEnv))) then Some(IllegalEnv)
    else if !SmtpAllowed(c.smtp) then Some(IllegalSmtp)
    else if !CommunityAllowed(c.communityNodes) || !BinaryDataAllowed(c.binaryData) then Some(IllegalCluster)
    else if !(StrategyAllowed(c.main.strategy) && StrategyAllowed(c.workers.strategy)
              && (c.webhooks.Some? ==> StrategyAllowed(c.webhooks.value.strategy))) then Some(IllegalStrategy)
    else None
  }

  predicate Conflicting(net: Option<NetworkingSpec>) {
    net.Some? && net.value.ingress.Some? && net.value.httpRoute.Some?
  }

  function SingleError(s: Single): Option<Error> {
    if s.name == "illegal" then Some(IllegalSingle)
    else if Conflicting(s.networking) then Some(ConflictingNetworking)
    else if s.database.Some? && !DatabaseAllowed(s.database.value) then Some(IllegalDatabase)
    else if !EnvAllowed(s.extraEnv) then Some(IllegalEnv)
    else if !SmtpAllowed(s.smtp) then Some(IllegalSmtp)
    else if !StrategyAllowed(s.strategy) then Some(IllegalStrategy)
    else None
  }

  // ----- What the checks amount to -----

  lemma ReservedMeansOwn(n: string)
    ensures Reserved(n) <==> OperatorsOwn(n)
  {}

  lemma EnvLegal(env: seq<EnvVar>)
    ensures EnvAllowed(env) <==> LegalEnv(env)
  {
    hide Reserved, OperatorsOwn;
    forall n ensures Reserved(n) <==> OperatorsOwn(n) {
      ReservedMeansOwn(n);
    }
    assert forall i | 0 <= i < |env| :: env[i] in env;
  }

  lemma DatabaseLegal(db: DatabaseSpec)
    ensures DatabaseAllowed(db) <==> LegalDatabase(db)
    ensures DatabaseAllowed(db) && db.kind != "sqlite" <==> LegalServer(db)
  {
    assert "sqlite"[0] == 's' && "postgresdb"[0] == 'p' && "mysqldb"[0] == 'm' && "mariadb"[0] == 'm';
  }

  lemma BinaryDataLegal(bd: Option<BinaryDataSpec>)
    ensures BinaryDataAllowed(bd) <==> LegalBinaryData(bd)
  {
    assert "default"[1] == 'e' && "database"[1] == 'a' && "filesystem"[0] == 'f' && "s3"[0] == 's';
    assert "default"[0] == 'd' && "database"[0] == 'd';
  }

  lemma OthersLegal(smtp: Option<SmtpConfig>, cn: Option<CommunityNodes>, s: Option<Strategy>)
    ensures SmtpAllowed(smtp) <==> LegalSmtp(smtp)
    ensures CommunityAllowed(cn) <==> LegalCommunity(cn)
    ensures StrategyAllowed(s) <==> LegalStrategy(s)
  {
    assert "RollingUpdate"[1] == 'o' && "Recreate"[1] == 'e';
  }

  /** The error of a Cluster names the first rule it breaks; none is found exactly in a legal one. */
  lemma ClusterErrorNames(c: Cluster)
    ensures ClusterError(c).None? <==> LegalCluster(c)
    ensures ClusterError(c) == Some(IllegalDatabase) <==> !LegalDatabase(c.database)
    ensures ClusterError(c) == Some(IllegalEnv) <==> LegalServer(c.database) && !LegalEnvs(c)
    ensures ClusterError(c) == Some(IllegalSmtp) <==> LegalServer(c.database) && LegalEnvs(c) && !LegalSmtp(c.smtp)
    ensures ClusterError(c) == Some(IllegalStrategy)
       <==> (LegalServer(c.database) && LegalEnvs(c) && LegalSmtp(c.smtp) && LegalCommunity(c.communityNodes)
             && LegalBinaryData(c.binaryData) && !LegalStrategies(c))
    ensures ClusterError(c).Some? ==>
              ClusterError(c).value in {IllegalDatabase, IllegalCluster, IllegalEnv, IllegalSmtp, IllegalStrategy}
  {
    hide DatabaseAllowed, EnvAllowed, StrategyAllowed, SmtpAllowed, CommunityAllowed, BinaryDataAllowed, LegalDatabase,
         LegalServer, LegalEnv, LegalStrategy, LegalSmtp, LegalCommunity, LegalBinaryData;
    DatabaseLegal(c.database);
    EnvLegal(c.extraEnv);
    EnvLegal(c.main.extraEnv);
    EnvLegal(c.workers.extraEnv);
    OthersLegal(c.smtp, c.communityNodes, c.main.strategy);
    OthersLegal(c.smtp, c.communityNodes, c.workers.strategy);
    BinaryDataLegal(c.binaryData);
    if c.webhooks.Some? {
      EnvLegal(c.webhooks.value.extraEnv);
      OthersLegal(c.smtp, c.communityNodes, c.webhooks.value.strategy);
    }
  }

  /** The same for a Single. */
  lemma SingleErrorNames(s: Single)
    ensures SingleError(s).None? <==> LegalSingle(s)
    ensures SingleError(s) == Some(IllegalSingle) <==> s.name == "illegal"
    ensures SingleError(s) == Some(ConflictingNetworking) <==> s.name != "illegal" && !OneWayIn(s.networking)
    ensures SingleError(s) == Some(IllegalDatabase)
       <==> (s.name != "illegal" && OneWayIn(s.networking)
             && s.database.Some? && !LegalDatabase(s.database.value))
    ensures SingleError(s).Some? ==>
              SingleError(s).value in {IllegalSingle, ConflictingNetworking, IllegalDatabase, IllegalEnv, IllegalSmtp,
                                       IllegalStrategy}
  {
    hide DatabaseAllowed, EnvAllowed, StrategyAllowed, SmtpAllowed, LegalDatabase, LegalServer, LegalEnv, LegalStrategy,
         LegalSmtp;
    if s.database.Some? {
      DatabaseLegal(s.database.value);
    }
    EnvLegal(s.extraEnv);
    OthersLegal(s.smtp, None, s.strategy);
  }

  // ----- As run: first error wins -----

  /** The sections that do not belong to a database type, in the order they are looked at. */
  method Extras(db: DatabaseSpec) returns (extras: seq<string>)
    ensures extras == [] <==>
              && (db.kind != "sqlite" ==> db.sqlite.None?) && (db.kind != "postgresdb" ==> db.postgres.None?)
              && (db.kind != "mysqldb" && db.kind != "mariadb" ==> db.mysql.None?)
  {
    extras := [];
    if db.kind != "sqlite" && db.sqlite.Some? {
      extras := extras + [".sqlite"];
    }
    if db.kind != "postgresdb" && db.postgres.Some? {
      extras := extras + [".postgres"];
    }
    if db.kind != "mysqldb" && db.kind != "mariadb" && db.mysql.Some? {
      extras := extras + [".mysql"];
    }
  }

  method ValidateDatabase(db: DatabaseSpec) returns (r: Outcome)
    ensures r == if DatabaseAllowed(db) then Pass else Fail(IllegalDatabase)
    ensures r.Pass? <==> LegalDatabase(db)
  {
    DatabaseLegal(db);
    assert "sqlite"[0] == 's' && "postgresdb"[0] == 'p' && "mysqldb"[0] == 'm' && "mariadb"[0] == 'm';
    var extras := Extras(db);
    if db.kind == "sqlite" {
      r := if extras == [] then Pass else Fail(IllegalDatabase);
    } else if db.kind == "postgresdb" {
      r := if db.postgres.Some? && extras == [] then Pass else Fail(IllegalDatabase);
    } else if db.kind == "mysqldb" || db.kind == "mariadb" {
      r := if db.mysql.Some? && extras == [] then Pass else Fail(IllegalDatabase);
    } else {
      r := Fail(IllegalDatabase);
    }
  }

  /** `validate_cluster`: the sequence of checks, stopping at the first failure, finds the first error. */
  method ValidateCluster(c: Cluster) returns (r: Outcome)
    ensures r == match ClusterError(c) case Some(e) => Fail(e) case None => Pass
    ensures r.Pass? <==> LegalCluster(c)
    ensures r == Fail(IllegalDatabase) <==> !LegalDatabase(c.database)
    ensures r == Fail(IllegalEnv) <==> LegalServer(c.database) && !LegalEnvs(c)
  {
    hide LegalCluster, LegalDatabase, LegalServer, LegalEnvs, DatabaseAllowed, EnvAllowed, StrategyAllowed,
         SmtpAllowed, CommunityAllowed, BinaryDataAllowed;
    ClusterErrorNames(c);
    r := ValidateDatabase(c.database);
    if r.Fail? { return; }
    if c.database.kind == "sqlite" { return Fail(IllegalCluster); }
    r := ValidateExtraEnv(c.extraEnv);
    if r.Fail? { return; }
    r := ValidateExtraEnv(c.main.extraEnv);
    if r.Fail? { return; }
    r := ValidateExtraEnv(c.workers.extraEnv);
    if r.Fail? { return; }
    if c.webhooks.Some? {
      r := ValidateExtraEnv(c.webhooks.value.extraEnv);
      if r.Fail? { return; }
    }
    if !SmtpAllowed(c.smtp) { return Fail(IllegalSmtp); }
    if !CommunityAllowed(c.communityNodes) { return Fail(IllegalCluster); }
    if !BinaryDataAllowed(c.binaryData) { return Fail(IllegalCluster); }
    if !StrategyAllowed(c.main.strategy) || !StrategyAllowed(c.workers.strategy) { return Fail(IllegalStrategy); }
    if c.webhooks.Some? && !StrategyAllowed(c.webhooks.value.strategy) { return Fail(IllegalStrategy); }
    r := Pass;
  }
}

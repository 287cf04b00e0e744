/** The custom resources, reduced to the fields the reconcilers branch on or pass into an object. */
module Resources {
  import opened Wrappers

  datatype SecretKeyRef = SecretKeyRef(name: string, key: string)
  datatype EnvVar = EnvVar(name: string, value: Option<string>, valueFrom: Option<SecretKeyRef>)
  datatype Storage = Storage(size: string, storageClass: Option<string>, accessMode: string)

  // ----- Networking and pods -----

  datatype IngressConfig = IngressConfig(className: Option<string>, tlsSecretName: Option<string>)
  datatype GatewayRef = GatewayRef(name: string, ns: Option<string>, sectionName: Option<string>)
  datatype HttpRouteConfig = HttpRouteConfig(gateway: GatewayRef, httpsRedirectSectionName: Option<string>)
  datatype NetworkingSpec = NetworkingSpec(ingress: Option<IngressConfig>, httpRoute: Option<HttpRouteConfig>)
  datatype PodConfig = PodConfig(podLabels: Option<map<string, string>>, podAnnotations: Option<map<string, string>>)
  datatype Strategy = Strategy(kind: string, maxSurge: Option<string>, maxUnavailable: Option<string>)

  // ----- Backends -----

  datatype DatabaseSsl = DatabaseSsl(enabled: bool, rejectUnauthorized: Option<bool>,
                                     caSecret: Option<SecretKeyRef>, certSecret: Option<SecretKeyRef>,
                                     keySecret: Option<SecretKeyRef>)
  datatype PostgresConfig = PostgresConfig(host: string, port: Option<int>, database: string,
                                           userSecret: SecretKeyRef, passwordSecret: SecretKeyRef,
                                           schema: Option<string>, ssl: Option<DatabaseSsl>,
                                           poolSize: Option<nat>, connectionTimeoutMs: Option<nat>)
  datatype MysqlConfig = MysqlConfig(host: string, port: Option<int>, database: string, user: string,
                                     passwordSecret: SecretKeyRef, ssl: Option<DatabaseSsl>,
                                     connectionTimeoutMs: Option<nat>)
  datatype SqliteConfig = SqliteConfig(poolSize: Option<nat>, vacuumOnStartup: Option<bool>, database: Option<string>)
  datatype DatabaseSpec = DatabaseSpec(kind: string, sqlite: Option<SqliteConfig>,
                                       postgres: Option<PostgresConfig>, mysql: Option<MysqlConfig>)
  datatype RedisConfig = RedisConfig(host: string, port: Option<nat>, db: Option<nat>,
                                     passwordSecret: Option<SecretKeyRef>, usernameSecret: Option<SecretKeyRef>,
                                     tls: Option<bool>, prefix: Option<string>)
  datatype S3Config = S3Config(host: string, bucket: string, region: string,
                               accessKeySecret: SecretKeyRef, accessSecretSecret: SecretKeyRef)
  datatype BinaryDataSpec = BinaryDataSpec(mode: string, s3: Option<S3Config>, sharedStorage: Option<Storage>)

  datatype SmtpAuth = SmtpAuth(userSecret: SecretKeyRef, passwordSecret: SecretKeyRef)
  datatype SmtpConfig = SmtpConfig(host: string, port: nat, sender: string, ssl: Option<bool>,
                                   startTls: Option<bool>, auth: Option<SmtpAuth>)
  datatype LoggingConfig = LoggingConfig(level: Option<string>, output: Option<string>, diagnostics: Option<bool>,
                                         versionNotifications: Option<bool>, metrics: Option<bool>)
  /** `packages` holds the packages already rendered as JSON objects. */
  datatype CommunityNodes = CommunityNodes(enabled: Option<bool>, packages: seq<string>,
                                           sharedStorage: Option<Storage>, reinstallMissing: Option<bool>)

  // ----- Cluster and Single -----

  datatype MainConfig = MainConfig(replicas: int, image: Option<string>, host: Option<string>,
                                   serviceType: Option<string>, networking: Option<NetworkingSpec>,
                                   persistence: Option<Storage>, extraEnv: seq<EnvVar>, pod: Option<PodConfig>,
                                   strategy: Option<Strategy>, keyTtl: Option<nat>, checkInterval: Option<nat>)
  datatype Autoscaling = Autoscaling(minReplicas: int, maxReplicas: int, cpu: Option<int>)
  datatype WorkerConfig = WorkerConfig(replicas: int, image: Option<string>, concurrency: Option<nat>,
                                       autoscaling: Option<Autoscaling>, extraEnv: seq<EnvVar>,
                                       pod: Option<PodConfig>, strategy: Option<Strategy>)
  datatype WebhookConfig = WebhookConfig(replicas: int, image: Option<string>, host: Option<string>,
                                         serviceType: Option<string>, networking: Option<NetworkingSpec>,
                                         extraEnv: seq<EnvVar>, pod: Option<PodConfig>, strategy: Option<Strategy>)
  datatype Cluster = Cluster(ns: string, name: string, image: string, encryptionKey: Option<SecretKeyRef>,
                             database: DatabaseSpec, redis: RedisConfig, main: MainConfig, workers: WorkerConfig,
                             webhooks: Option<WebhookConfig>, secureCookie: Option<bool>, extraEnv: seq<EnvVar>,
                             binaryData: Option<BinaryDataSpec>, smtp: Option<SmtpConfig>,
                             logging: Option<LoggingConfig>, communityNodes: Option<CommunityNodes>)

  datatype Single = Single(ns: string, name: string, image: string, replicas: int, host: Option<string>,
                           serviceType: Option<string>, networking: Option<NetworkingSpec>,
                           encryptionKey: Option<SecretKeyRef>, database: Option<DatabaseSpec>,
                           persistence: Option<Storage>, secureCookie: Option<bool>, extraEnv: seq<EnvVar>,
                           pod: Option<PodConfig>, strategy: Option<Strategy>, smtp: Option<SmtpConfig>,
                           logging: Option<LoggingConfig>)

  // ----- Assistant -----

  /** `brave` is the Secret reference of `search.brave`, `searxng` the URL of `search.searxng`. */
  datatype Assistant = Assistant(ns: string, name: string, targetKind: string, targetName: string,
                                 modelName: string, modelKey: Option<SecretKeyRef>, modelUrl: Option<string>,
                                 brave: Option<SecretKeyRef>, searxng: Option<string>,
                                 sandboxNs: Option<string>, version: string, sandboxImage: string,
                                 dockerSize: string, dockerPersistence: Option<Storage>,
                                 apiPod: Option<PodConfig>, runnerPod: Option<PodConfig>) {
    /** The namespace of the sandbox stack: the resource's own unless overridden. */
    function SandboxNamespace(): string {
      sandboxNs.GetOr(ns)
    }
  }

  // ----- Text -----

  function Digit(n: nat): char
    requires n < 10
  {
    "0123456789"[n]
  }

  function NatText(n: nat): string {
    if n < 10 then [Digit(n)] else NatText(n / 10) + [Digit(n % 10)]
  }

  function IntText(n: int): string {
    if n < 0 then "-" + NatText(-n) else NatText(n)
  }

  function BoolText(b: bool): string {
    if b then "true" else "false"
  }

  predicate StartsWith(s: string, prefix: string) {
    prefix <= s
  }
}

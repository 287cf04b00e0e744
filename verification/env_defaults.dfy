/** What the containers are told beyond the backends, each unless an `extraEnv` list names the variable. */
module EnvDefaults {
  import opened Wrappers
  import opened Kube
  import opened Resources
  import opened Rules
  import opened Env
  import opened OperatorEnv
  import opened EnvUnique
  import opened EnvValues
  import opened EnvSettings

  // ----- Role flags and binary data -----

  /** Several mains coordinate; a main hands production webhooks to the webhook role when there is one. */
  predicate MainFlagsSeen(env: seq<EnvEntry>, user: seq<EnvVar>, c: Cluster) {
    var several := c.main.replicas > 1;
    && HasText(env, [], "N8N_MULTI_MAIN_SETUP_ENABLED", if several then Some("true") else None)
    && HasNumber(env, user, "N8N_MULTI_MAIN_SETUP_KEY_TTL", if several then c.main.keyTtl else None)
    && HasNumber(env, user, "N8N_MULTI_MAIN_SETUP_CHECK_INTERVAL", if several then c.main.checkInterval else None)
    && HasText(env, [], "N8N_DISABLE_PRODUCTION_MAIN_PROCESS", if c.webhooks.Some? then Some("true") else None)
    && HasNumber(env, [], "N8N_CONCURRENCY_PRODUCTION_LIMIT", None)
  }

  /** None of the main's flags. */
  predicate NoMain(env: seq<EnvEntry>) {
    && HasText(env, [], "N8N_MULTI_MAIN_SETUP_ENABLED", None)
    && HasText(env, [], "N8N_DISABLE_PRODUCTION_MAIN_PROCESS", None)
  }

  predicate WorkerFlagsSeen(env: seq<EnvEntry>, c: Cluster) {
    && HasNumber(env, [], "N8N_CONCURRENCY_PRODUCTION_LIMIT", c.workers.concurrency)
    && HasText(env, [], "QUEUE_HEALTH_CHECK_ACTIVE", Some("true")) && NoMain(env)
  }

  predicate BucketSeen(env: seq<EnvEntry>, user: seq<EnvVar>, s3: Option<S3Config>) {
    && HasText(env, user, "N8N_EXTERNAL_STORAGE_S3_HOST", if s3.Some? then Some(s3.value.host) else None)
    && HasText(env, user, "N8N_EXTERNAL_STORAGE_S3_BUCKET_NAME", if s3.Some? then Some(s3.value.bucket) else None)
    && HasText(env, user, "N8N_EXTERNAL_STORAGE_S3_BUCKET_REGION", if s3.Some? then Some(s3.value.region) else None)
    && HasKey(env, user, "N8N_EXTERNAL_STORAGE_S3_ACCESS_KEY",
              if s3.Some? then Some(s3.value.accessKeySecret) else None)
    && HasKey(env, user, "N8N_EXTERNAL_STORAGE_S3_ACCESS_SECRET",
              if s3.Some? then Some(s3.value.accessSecretSecret) else None)
  }

  predicate ModeSeen(env: seq<EnvEntry>, user: seq<EnvVar>, mode: Option<string>, available: Option<string>,
                     path: Option<string>)
  {
    && HasText(env, user, "N8N_DEFAULT_BINARY_DATA_MODE", mode)
    && HasText(env, user, "N8N_AVAILABLE_BINARY_DATA_MODES", available)
    && HasText(env, user, "N8N_STORAGE_PATH", path)
  }

  /** The mode, and the bucket for `s3` alone. */
  predicate BinaryDataSeen(env: seq<EnvEntry>, user: seq<EnvVar>, bd: Option<BinaryDataSpec>) {
    match bd
    case None => ModeSeen(env, user, None, None, None) && BucketSeen(env, user, None)
    case Some(b) =>
      && ModeSeen(env, user, Some(b.mode),
                  if b.mode == "s3" then Some("filesystem,s3")
                  else if b.mode == "database" then Some("filesystem,database") else None,
                  if b.mode == "filesystem" && b.sharedStorage.Some? then Some("/home/node/binary-data") else None)
      && BucketSeen(env, user, if b.mode == "s3" then b.s3 else None)
  }

  /** Of these names, the container has those of the part, each with its value. */
  predicate PartSeen(env: seq<EnvEntry>, user: seq<EnvVar>, part: seq<Slot>, names: set<string>) {
    && (forall s | s in part :: Has(env, user, s.name, s.value))
    && (forall n | n in names && n !in SlotNames(part) :: Has(env, user, n, None))
  }

  lemma PartOf(env: seq<EnvEntry>, slots: seq<Slot>, d: seq<EnvVar>, cookie: Option<bool>, cluster: seq<EnvVar>,
               role: seq<EnvVar>, part: seq<Slot>, names: set<string>)
    requires Container(env, slots, d, cookie, cluster, role) && forall s | s in part :: s in slots
    requires forall n | n in names :: !Plain(n) && (n in SlotNames(slots) ==> n in SlotNames(part))
    ensures PartSeen(env, cluster + role, part, names)
  {
    hide Plain, Lookup, Emit, UserEnv, AllPlain, Layered, Names;
    forall s | s in part ensures Has(env, cluster + role, s.name, s.value) {
      var i :| 0 <= i < |slots| && slots[i] == s;
      assert SlotNames(slots)[i] == s.name;
      if s.name !in Names(cluster + role) {
        EmittedSeen(env, slots, d, cookie, cluster, role, s.name);
      }
    }
    forall n | n in names && n !in SlotNames(part) ensures Has(env, cluster + role, n, None) {
      if n !in Names(cluster + role) {
        EmittedSeen(env, slots, d, cookie, cluster, role, n);
      }
    }
  }

  lemma BinaryLengths()
    ensures |"N8N_AVAILABLE_BINARY_DATA_MODES"| == 31 && |"N8N_DEFAULT_BINARY_DATA_MODE"| == 28
    ensures |"N8N_STORAGE_PATH"| == 16 && |"N8N_EXTERNAL_STORAGE_S3_HOST"| == 28
    ensures |"N8N_EXTERNAL_STORAGE_S3_BUCKET_NAME"| == 35 && |"N8N_EXTERNAL_STORAGE_S3_BUCKET_REGION"| == 37
    ensures |"N8N_EXTERNAL_STORAGE_S3_ACCESS_KEY"| == 34 && |"N8N_EXTERNAL_STORAGE_S3_ACCESS_SECRET"| == 37
    ensures "N8N_DEFAULT_BINARY_DATA_MODE"[4] == 'D' && "N8N_EXTERNAL_STORAGE_S3_HOST"[4] == 'E'
    ensures "N8N_EXTERNAL_STORAGE_S3_BUCKET_REGION"[24] == 'B' && "N8N_EXTERNAL_STORAGE_S3_ACCESS_SECRET"[24] == 'A'
  {}

  lemma Present(env: seq<EnvEntry>, user: seq<EnvVar>, part: seq<Slot>, names: set<string>, i: nat)
    requires PartSeen(env, user, part, names) && i < |part|
    ensures Has(env, user, part[i].name, part[i].value)
  {}

  lemma Missing(env: seq<EnvEntry>, user: seq<EnvVar>, part: seq<Slot>, names: set<string>, n: string)
    requires PartSeen(env, user, part, names) && n in names && forall i | 0 <= i < |part| :: part[i].name != n
    ensures Has(env, user, n, None)
  {
    hide Has;
  }

  /** What sets the three names of the modes apart from those of the bucket. */
  predicate OfMode(n: string) {
    |n| == 31 || |n| == 16 || (|n| == 28 && n[4] == 'D')
  }

  lemma NoBucketRead(env: seq<EnvEntry>, user: seq<EnvVar>, slots: seq<Slot>)
    requires PartSeen(env, user, slots, BINARY_DATA_NAMES) && forall i | 0 <= i < |slots| :: OfMode(slots[i].name)
    ensures BucketSeen(env, user, None)
  {
    hide Has, BINARY_DATA_NAMES, PartSeen;
    BinaryMembers();
    BinaryLengths();
    forall i: nat | 2 <= i < 7 ensures Has(env, user, S3_NAMES[i], None) {
      assert S3_NAMES[i] in S3_NAMES && !OfMode(S3_NAMES[i]);
      Missing(env, user, slots, BINARY_DATA_NAMES, S3_NAMES[i]);
    }
    assert S3_NAMES[2] == "N8N_EXTERNAL_STORAGE_S3_HOST" && S3_NAMES[3] == "N8N_EXTERNAL_STORAGE_S3_BUCKET_NAME";
    assert S3_NAMES[4] == "N8N_EXTERNAL_STORAGE_S3_BUCKET_REGION";
    assert S3_NAMES[5] == "N8N_EXTERNAL_STORAGE_S3_ACCESS_KEY";
    assert S3_NAMES[6] == "N8N_EXTERNAL_STORAGE_S3_ACCESS_SECRET";
  }

  /** The binary-data variables of a mode that is not `s3`: at most these three. */
  lemma ModeRead(env: seq<EnvEntry>, user: seq<EnvVar>, slots: seq<Slot>, mode: string, available: Option<string>,
                 path: Option<string>)
    requires PartSeen(env, user, slots, BINARY_DATA_NAMES)
    requires forall i | 0 <= i < |slots| ::
               (slots[i] == Fixed("N8N_DEFAULT_BINARY_DATA_MODE", mode)
                || (available.Some? && slots[i] == Slot("N8N_AVAILABLE_BINARY_DATA_MODES", TextIf(available)))
                || slots[i] == Slot("N8N_STORAGE_PATH", TextIf(path)))
    requires Fixed("N8N_DEFAULT_BINARY_DATA_MODE", mode) in slots
    requires available.Some? ==> Slot("N8N_AVAILABLE_BINARY_DATA_MODES", TextIf(available)) in slots
    requires path.Some? ==> Slot("N8N_STORAGE_PATH", TextIf(path)) in slots
    ensures ModeSeen(env, user, Some(mode), available, path) && BucketSeen(env, user, None)
  {
    hide Has, BINARY_DATA_NAMES, BucketSeen, PartSeen;
    BinaryMembers();
    BinaryLengths();
    NoBucketRead(env, user, slots);
    forall i: nat | i < |slots| ensures Has(env, user, slots[i].name, slots[i].value) {
      Present(env, user, slots, BINARY_DATA_NAMES, i);
    }
    if available.None? {
      Missing(env, user, slots, BINARY_DATA_NAMES, "N8N_AVAILABLE_BINARY_DATA_MODES");
    }
    if forall i | 0 <= i < |slots| :: slots[i].name != "N8N_STORAGE_PATH" {
      Missing(env, user, slots, BINARY_DATA_NAMES, "N8N_STORAGE_PATH");
    }
  }

  lemma BinaryMembers()
    ensures "N8N_DEFAULT_BINARY_DATA_MODE" in BINARY_DATA_NAMES && "N8N_STORAGE_PATH" in BINARY_DATA_NAMES
    ensures "N8N_AVAILABLE_BINARY_DATA_MODES" in BINARY_DATA_NAMES
    ensures forall n | n in S3_NAMES :: n in BINARY_DATA_NAMES
  {
    S3Names();
  }

  lemma S3Read(env: seq<EnvEntry>, user: seq<EnvVar>, bd: BinaryDataSpec)
    requires bd.mode == "s3" && bd.s3.Some? && PartSeen(env, user, BinaryDataSlots(Some(bd)), BINARY_DATA_NAMES)
    ensures BinaryDataSeen(env, user, Some(bd))
  {
    hide Has, BINARY_DATA_NAMES, PartSeen;
    BinaryLengths();
    BinaryMembers();
    var slots := BinaryDataSlots(Some(bd));
    forall i: nat | i < 7 ensures Has(env, user, slots[i].name, slots[i].value) {
      Present(env, user, slots, BINARY_DATA_NAMES, i);
    }
    assert slots[0] == Fixed("N8N_AVAILABLE_BINARY_DATA_MODES", "filesystem,s3");
    assert slots[1] == Fixed("N8N_DEFAULT_BINARY_DATA_MODE", "s3");
    assert slots[2] == Fixed("N8N_EXTERNAL_STORAGE_S3_HOST", bd.s3.value.host);
    assert slots[3] == Fixed("N8N_EXTERNAL_STORAGE_S3_BUCKET_NAME", bd.s3.value.bucket);
    assert slots[4] == Fixed("N8N_EXTERNAL_STORAGE_S3_BUCKET_REGION", bd.s3.value.region);
    assert slots[5] == Slot("N8N_EXTERNAL_STORAGE_S3_ACCESS_KEY", SecretIf(Some(bd.s3.value.accessKeySecret)));
    assert slots[6] == Slot("N8N_EXTERNAL_STORAGE_S3_ACCESS_SECRET", SecretIf(Some(bd.s3.value.accessSecretSecret)));
    Missing(env, user, slots, BINARY_DATA_NAMES, "N8N_STORAGE_PATH");
  }

  lemma BinaryRead(env: seq<EnvEntry>, user: seq<EnvVar>, bd: Option<BinaryDataSpec>)
    requires PartSeen(env, user, BinaryDataSlots(bd), BINARY_DATA_NAMES)
    requires bd.Some? && bd.value.mode == "s3" ==> bd.value.s3.Some?
    ensures BinaryDataSeen(env, user, bd)
  {
    hide Has, PartSeen, BINARY_DATA_NAMES, ModeSeen, BucketSeen;
    var slots := BinaryDataSlots(bd);
    ModesDiffer();
    if bd.None? {
      NothingRead(env, user);
    } else if bd.value.mode == "s3" {
      S3Read(env, user, bd.value);
    } else {
      var mode := bd.value.mode;
      var available := if mode == "database" then Some("filesystem,database") else None;
      var path := if mode == "filesystem" && bd.value.sharedStorage.Some? then Some("/home/node/binary-data") else None;
      assert slots[0] in slots && slots[|slots| - 1] in slots;
      ModeRead(env, user, slots, mode, available, path);
    }
  }

  lemma NothingRead(env: seq<EnvEntry>, user: seq<EnvVar>)
    requires PartSeen(env, user, [], BINARY_DATA_NAMES)
    ensures BinaryDataSeen(env, user, None)
  {
    hide Has;
  }

  lemma ModesDiffer()
    ensures "s3" != "database" && "s3" != "filesystem" && "database" != "filesystem" && "" != "s3"
    ensures "" != "database" && "" != "filesystem"
  {}

  // ----- Defaults -----

  /** The container has the default, or nothing, unless the user's entries name the variable. */
  predicate Decided(env: seq<EnvEntry>, user: seq<EnvVar>, n: string, e: Option<EnvVar>) {
    n in Names(user) || match e case Some(v) => v.name == n && Holds(env, v) case None => Lookup(env, n) == None
  }

  lemma AtConcat(a: seq<EnvVar>, b: seq<EnvVar>, n: string)
    ensures DefaultAt(a + b, n) == if DefaultAt(b, n).Some? then DefaultAt(b, n) else DefaultAt(a, n)
  {
    LayerMapConcat(a, b);
  }

  lemma AtNone(b: seq<EnvVar>, names: set<string>, n: string)
    requires AllIn(b, names) && n !in names
    ensures DefaultAt(b, n) == None
  {
    NamesOfLayer(b);
  }

  lemma AtOne(e: EnvVar, n: string)
    ensures DefaultAt([e], n) == if e.name == n then Some(e) else None
    ensures DefaultAt([], n) == None
  {
    assert [e][..0] == [] && LayerMap([]) == map[];
    assert LayerMap([e]) == map[e.name := e];
  }

  /** The group of a default, told from its fifth and sixth characters. */
  function Group(n: string): nat {
    if |n| < 6 || n[0] == 'W' then 0
    else match n[4]
      case 'H' => 0
      case 'P' => 0
      case 'E' => if n[5] == 'D' then 0 else 1
      case 'S' => if n[5] == 'E' then 0 else 1
      case 'C' => 3
      case 'R' => 3
      case _ => 2
  }

  lemma Groups(n: string)
    ensures n in HOST_NAMES ==> Group(n) == 0
    ensures n in SMTP_NAMES ==> Group(n) == 1
    ensures n in LOGGING_NAMES ==> Group(n) == 2
    ensures n in COMMUNITY_NAMES ==> Group(n) == 3
  {}

  function Later(b: Option<EnvVar>, a: Option<EnvVar>): Option<EnvVar> {
    if b.Some? then b else a
  }

  /** Six layers, the last one with the name counting. */
  lemma SixLayers(a: seq<EnvVar>, b: seq<EnvVar>, c: seq<EnvVar>, d: seq<EnvVar>, e: seq<EnvVar>, f: seq<EnvVar>,
                  n: string)
    ensures DefaultAt(a + b + c + d + e + f, n)
         == Later(DefaultAt(f, n),
                  Later(DefaultAt(e, n),
                        Later(DefaultAt(d, n), Later(DefaultAt(c, n), Later(DefaultAt(b, n), DefaultAt(a, n))))))
  {
    hide DefaultAt;
    AtConcat(a, b, n);
    AtConcat(a + b, c, n);
    AtConcat(a + b + c, d, n);
    AtConcat(a + b + c + d, e, n);
    AtConcat(a + b + c + d + e, f, n);
  }

  const ADDRESS_NAMES: set<string> := {"N8N_HOST", "N8N_PROTOCOL", "N8N_EDITOR_BASE_URL"}

  lemma HostNames()
    ensures ADDRESS_NAMES <= HOST_NAMES && WEBHOOK_URL in HOST_NAMES && "N8N_SECURE_COOKIE" in HOST_NAMES
    ensures WEBHOOK_URL !in ADDRESS_NAMES && "N8N_SECURE_COOKIE" !in ADDRESS_NAMES && WEBHOOK_URL != "N8N_SECURE_COOKIE"
  {
    assert WEBHOOK_URL[0] == 'W' && |"N8N_SECURE_COOKIE"| == 17;
  }

  /** Where a layer's variables come from. */
  lemma LayersIn(host: Option<string>, protocol: string, smtp: Option<SmtpConfig>, logging: Option<LoggingConfig>,
                 community: Option<CommunityNodes>, cookie: Option<bool>)
    ensures AllIn(HostEnv(host, protocol), ADDRESS_NAMES) && AllIn(SmtpEnv(smtp), SMTP_NAMES)
    ensures AllIn(LoggingEnv(logging), LOGGING_NAMES) && AllIn(CommunityEnv(community), COMMUNITY_NAMES)
    ensures AllIn(CookieLayer(cookie), {"N8N_SECURE_COOKIE"})
  {
    hide SmtpEnv, LoggingEnv, CommunityEnv, BoolText, SMTP_NAMES, LOGGING_NAMES, COMMUNITY_NAMES;
    SmtpLayer(smtp);
    LoggingLayer(logging);
    CommunityLayer(community);
  }

  /** The layers have no name in common, so each name is looked up in its own layer. */
  lemma OwnLayer(all: seq<EnvVar>, h: seq<EnvVar>, s: seq<EnvVar>, l: seq<EnvVar>, m: seq<EnvVar>, u: seq<EnvVar>,
                 k: seq<EnvVar>, n: string)
    requires all == h + s + l + m + u + k || all == h + u + s + l + m + k
    requires AllIn(h, ADDRESS_NAMES) && AllIn(s, SMTP_NAMES) && AllIn(l, LOGGING_NAMES) && AllIn(m, COMMUNITY_NAMES)
    requires AllIn(u, {WEBHOOK_URL}) && AllIn(k, {"N8N_SECURE_COOKIE"})
    ensures n in ADDRESS_NAMES ==> DefaultAt(all, n) == DefaultAt(h, n)
    ensures n in SMTP_NAMES ==> DefaultAt(all, n) == DefaultAt(s, n)
    ensures n in LOGGING_NAMES ==> DefaultAt(all, n) == DefaultAt(l, n)
    ensures n in COMMUNITY_NAMES ==> DefaultAt(all, n) == DefaultAt(m, n)
    ensures n == WEBHOOK_URL ==> DefaultAt(all, n) == DefaultAt(u, n)
    ensures n == "N8N_SECURE_COOKIE" ==> DefaultAt(all, n) == DefaultAt(k, n)
  {
    SixLayers(h, s, l, m, u, k, n);
    SixLayers(h, u, s, l, m, k, n);
    Groups(n);
    HostNames();
    hide DefaultAt, AllIn, ADDRESS_NAMES, SMTP_NAMES, LOGGING_NAMES, COMMUNITY_NAMES, HOST_NAMES, Group;
    if n !in ADDRESS_NAMES {
      AtNone(h, ADDRESS_NAMES, n);
    }
    if n !in SMTP_NAMES {
      AtNone(s, SMTP_NAMES, n);
    }
    if n !in LOGGING_NAMES {
      AtNone(l, LOGGING_NAMES, n);
    }
    if n !in COMMUNITY_NAMES {
      AtNone(m, COMMUNITY_NAMES, n);
    }
    if n != WEBHOOK_URL {
      AtNone(u, {WEBHOOK_URL}, n);
    }
    if n != "N8N_SECURE_COOKIE" {
      AtNone(k, {"N8N_SECURE_COOKIE"}, n);
    }
  }

  // ----- Settings -----

  /** TLS ends at a Gateway, or at an Ingress with a certificate. */
  predicate Secure(net: Option<NetworkingSpec>) {
    net.Some? && (net.value.httpRoute.Some?
                  || (net.value.ingress.Some? && net.value.ingress.value.tlsSecretName.Some?))
  }

  /** The address of a host, with an end. */
  function Address(host: string, net: Option<NetworkingSpec>, end: string): string {
    (if Secure(net) then "https://" else "http://") + host + end
  }

  predicate HostSeen(env: seq<EnvEntry>, user: seq<EnvVar>, host: Option<string>, net: Option<NetworkingSpec>) {
    && HasText(env, user, "N8N_HOST", host)
    && HasText(env, user, "N8N_PROTOCOL",
               if host.None? then None else if Secure(net) then Some("https") else Some("http"))
    && HasText(env, user, "N8N_EDITOR_BASE_URL", if host.None? then None else Some(Address(host.value, net, "")))
  }

  /** The webhook role's own address, or the main role's; the same in every container. */
  predicate UrlSeen(env: seq<EnvEntry>, user: seq<EnvVar>, c: Cluster) {
    HasText(env, user, "WEBHOOK_URL",
            if c.webhooks.Some? && c.webhooks.value.host.Some? then
              Some(Address(c.webhooks.value.host.value, c.webhooks.value.networking, "/"))
            else if c.main.host.Some? then Some(Address(c.main.host.value, c.main.networking, "/"))
            else None)
  }

  predicate SmtpSeen(env: seq<EnvEntry>, user: seq<EnvVar>, smtp: Option<SmtpConfig>) {
    && HasText(env, user, "N8N_EMAIL_MODE", if smtp.Some? then Some("smtp") else None)
    && HasText(env, user, "N8N_SMTP_HOST", if smtp.Some? then Some(smtp.value.host) else None)
    && HasNumber(env, user, "N8N_SMTP_PORT", if smtp.Some? then Some(smtp.value.port) else None)
    && HasText(env, user, "N8N_SMTP_SENDER", if smtp.Some? then Some(smtp.value.sender) else None)
    && HasFlag(env, user, "N8N_SMTP_SSL", if smtp.Some? then smtp.value.ssl else None)
    && HasFlag(env, user, "N8N_SMTP_STARTTLS", if smtp.Some? then smtp.value.startTls else None)
    && CredentialsSeen(env, user, if smtp.Some? then smtp.value.auth else None)
  }

  predicate CredentialsSeen(env: seq<EnvEntry>, user: seq<EnvVar>, auth: Option<SmtpAuth>) {
    && HasKey(env, user, "N8N_SMTP_USER", if auth.Some? then Some(auth.value.userSecret) else None)
    && HasKey(env, user, "N8N_SMTP_PASS", if auth.Some? then Some(auth.value.passwordSecret) else None)
  }

  predicate LoggingSeen(env: seq<EnvEntry>, user: seq<EnvVar>, l: LoggingConfig) {
    && HasText(env, user, "N8N_LOG_LEVEL", l.level) && HasText(env, user, "N8N_LOG_OUTPUT", l.output)
    && HasFlag(env, user, "N8N_DIAGNOSTICS_ENABLED", l.diagnostics)
    && HasFlag(env, user, "N8N_VERSION_NOTIFICATIONS_ENABLED", l.versionNotifications)
    && HasFlag(env, user, "N8N_METRICS", l.metrics)
  }

  /** A comma between two items and nowhere else. */
  predicate Listed(t: string, items: seq<string>)
    requires items != []
  {
    if |items| == 1 then t == items[0] else items[0] + "," <= t && Listed(t[|items[0]| + 1..], items[1..])
  }

  predicate PackagesSeen(env: seq<EnvEntry>, user: seq<EnvVar>, packages: seq<string>) {
    && HasText(env, user, "N8N_COMMUNITY_PACKAGES_MANAGED_BY_ENV", if packages == [] then None else Some("true"))
    && ("N8N_COMMUNITY_PACKAGES" in Names(user)
        || match Lookup(env, "N8N_COMMUNITY_PACKAGES")
           case Some(Inline(t)) => packages != [] && |t| > 1 && t[0] == '[' && t[|t| - 1] == ']'
                                   && Listed(t[1..|t| - 1], packages)
           case Some(FromSecret(_, _)) => false
           case None => packages == [])
  }

  predicate CommunitySeen(env: seq<EnvEntry>, user: seq<EnvVar>, cn: CommunityNodes) {
    && HasFlag(env, user, "N8N_COMMUNITY_PACKAGES_ENABLED", cn.enabled) && PackagesSeen(env, user, cn.packages)
    && HasFlag(env, user, "N8N_REINSTALL_MISSING_PACKAGES", cn.reinstallMissing)
  }

  const NO_LOGGING := LoggingConfig(None, None, None, None, None)
  const NO_COMMUNITY := CommunityNodes(None, [], None, None)

  // ----- Reading the layers off -----

  /** Every name of the group is decided by this layer. */
  predicate DecidedBy(env: seq<EnvEntry>, user: seq<EnvVar>, names: set<string>, layer: seq<EnvVar>) {
    forall n | n in names :: Decided(env, user, n, DefaultAt(layer, n))
  }

  lemma AtDefault(name: string, v: Option<string>, b: Option<bool>, n: string)
    ensures DefaultAt(Default(name, v), n) == if v.Some? && n == name then Some(EnvVar(name, v, None)) else None
    ensures DefaultAt(DefaultBool(name, b), n)
         == if b.Some? && n == name then Some(EnvVar(name, Some(BoolText(b.value)), None)) else None
  {
    hide DefaultAt, BoolText;
    AtOne(EnvVar(name, v, None), n);
    AtOne(EnvVar(name, Some(if b.Some? then BoolText(b.value) else ""), None), n);
  }

  lemma HostRead(env: seq<EnvEntry>, user: seq<EnvVar>, host: Option<string>, net: Option<NetworkingSpec>)
    requires DecidedBy(env, user, ADDRESS_NAMES, HostEnv(host, ProtocolFor(net)))
    ensures HostSeen(env, user, host, net)
  {
    var a, b, c := "N8N_HOST", "N8N_PROTOCOL", "N8N_EDITOR_BASE_URL";
    assert |a| == 8 && |b| == 12 && |c| == 19;
    hide DefaultAt, Lookup, Names;
    forall n | n in ADDRESS_NAMES ensures DefaultAt(HostEnv(host, ProtocolFor(net)), n)
      == if host.None? then None
         else if n == c then Some(EnvVar(c, Some(ProtocolFor(net) + "://" + host.value), None))
         else if n == b then Some(EnvVar(b, Some(ProtocolFor(net)), None)) else Some(EnvVar(a, host, None))
    {
      if host.Some? {
        var x, y := EnvVar(a, host, None), EnvVar(b, Some(ProtocolFor(net)), None);
        var z := EnvVar(c, Some(ProtocolFor(net) + "://" + host.value), None);
        assert HostEnv(host, ProtocolFor(net)) == [x] + [y] + [z];
        AtConcat([x], [y], n);
        AtConcat([x] + [y], [z], n);
        AtOne(x, n);
        AtOne(y, n);
        AtOne(z, n);
      } else {
        AtOne(EnvVar(a, None, None), n);
      }
    }
    if host.Some? {
      assert ProtocolFor(net) + "://" + host.value == Address(host.value, net, "") by {
        assert "https" + "://" == "https://" && "http" + "://" == "http://";
      }
    }
  }

  lemma SmtpApart()
    ensures |"N8N_EMAIL_MODE"| == 14 && |"N8N_SMTP_SENDER"| == 15 && |"N8N_SMTP_SSL"| == 12
            && |"N8N_SMTP_STARTTLS"| == 17
    ensures |"N8N_SMTP_HOST"| == |"N8N_SMTP_PORT"| == |"N8N_SMTP_USER"| == |"N8N_SMTP_PASS"| == 13
    ensures "N8N_SMTP_HOST"[9] == 'H' && "N8N_SMTP_USER"[9] == 'U'
    ensures "N8N_SMTP_PORT"[10] == 'O' && "N8N_SMTP_PASS"[10] == 'A' && "N8N_SMTP_PORT"[9] == "N8N_SMTP_PASS"[9] == 'P'
  {}

  /** The entry of a name among the mail settings. */
  lemma SmtpAt(s: SmtpConfig, n: string)
    ensures DefaultAt(SmtpEnv(Some(s)), n)
         == if n == "N8N_SMTP_PASS" && s.auth.Some? then Some(EnvVar(n, None, Some(s.auth.value.passwordSecret)))
            else if n == "N8N_SMTP_USER" && s.auth.Some? then Some(EnvVar(n, None, Some(s.auth.value.userSecret)))
            else if n == "N8N_SMTP_STARTTLS" && s.startTls.Some? then
              Some(EnvVar(n, Some(BoolText(s.startTls.value)), None))
            else if n == "N8N_SMTP_SSL" && s.ssl.Some? then Some(EnvVar(n, Some(BoolText(s.ssl.value)), None))
            else if n == "N8N_SMTP_SENDER" then Some(EnvVar(n, Some(s.sender), None))
            else if n == "N8N_SMTP_PORT" then Some(EnvVar(n, Some(NatText(s.port)), None))
            else if n == "N8N_SMTP_HOST" then Some(EnvVar(n, Some(s.host), None))
            else if n == "N8N_EMAIL_MODE" then Some(EnvVar(n, Some("smtp"), None)) else None
  {
    hide DefaultAt, NatText, BoolText;
    var a, b := EnvVar("N8N_EMAIL_MODE", Some("smtp"), None), EnvVar("N8N_SMTP_HOST", Some(s.host), None);
    var c, d := EnvVar("N8N_SMTP_PORT", Some(NatText(s.port)), None), EnvVar("N8N_SMTP_SENDER", Some(s.sender), None);
    var ssl, tls := DefaultBool("N8N_SMTP_SSL", s.ssl), DefaultBool("N8N_SMTP_STARTTLS", s.startTls);
    var head, auth := [a] + [b] + [c] + [d],
                      if s.auth.Some? then [EnvVar("N8N_SMTP_USER", None, Some(s.auth.value.userSecret))]
                                           + [EnvVar("N8N_SMTP_PASS", None, Some(s.auth.value.passwordSecret))] else [];
    assert SmtpEnv(Some(s)) == head + ssl + tls + auth;
    FourAt(a, b, c, d, n);
    AtConcat(head, ssl, n);
    AtConcat(head + ssl, tls, n);
    AtConcat(head + ssl + tls, auth, n);
    AtDefault("N8N_SMTP_SSL", None, s.ssl, n);
    AtDefault("N8N_SMTP_STARTTLS", None, s.startTls, n);
    if s.auth.Some? {
      var u, p := EnvVar("N8N_SMTP_USER", None, Some(s.auth.value.userSecret)),
                  EnvVar("N8N_SMTP_PASS", None, Some(s.auth.value.passwordSecret));
      AtConcat([u], [p], n);
      AtOne(u, n);
      AtOne(p, n);
    } else {
      AtOne(a, n);
    }
  }

  lemma FourAt(a: EnvVar, b: EnvVar, c: EnvVar, d: EnvVar, n: string)
    ensures DefaultAt([a] + [b] + [c] + [d], n)
         == if d.name == n then Some(d) else if c.name == n then Some(c)
            else if b.name == n then Some(b) else if a.name == n then Some(a) else None
  {
    hide DefaultAt;
    AtConcat([a], [b], n);
    AtConcat([a] + [b], [c], n);
    AtConcat([a] + [b] + [c], [d], n);
    AtOne(a, n);
    AtOne(b, n);
    AtOne(c, n);
    AtOne(d, n);
  }

  lemma SmtpRead(env: seq<EnvEntry>, user: seq<EnvVar>, smtp: Option<SmtpConfig>)
    requires DecidedBy(env, user, SMTP_NAMES, SmtpEnv(smtp))
    ensures SmtpSeen(env, user, smtp)
  {
    hide DefaultAt, Lookup, Names, NatText, Digits;
    SmtpApart();
    forall n | n in SMTP_NAMES ensures smtp.None? ==> DefaultAt(SmtpEnv(smtp), n) == None {
      AtOne(EnvVar(n, None, None), n);
    }
    if smtp.Some? {
      NatTextDigits(smtp.value.port);
      forall n | n in SMTP_NAMES { SmtpAt(smtp.value, n); }
    }
  }

  lemma LoggingApart()
    ensures |"N8N_LOG_LEVEL"| == 13 && |"N8N_LOG_OUTPUT"| == 14 && |"N8N_DIAGNOSTICS_ENABLED"| == 23
    ensures |"N8N_VERSION_NOTIFICATIONS_ENABLED"| == 33 && |"N8N_METRICS"| == 11
  {}

  lemma LoggingAt(l: LoggingConfig, n: string)
    ensures DefaultAt(LoggingEnv(Some(l)), n)
         == if n == "N8N_METRICS" && l.metrics.Some? then Some(EnvVar(n, Some(BoolText(l.metrics.value)), None))
            else if n == "N8N_VERSION_NOTIFICATIONS_ENABLED" && l.versionNotifications.Some? then
              Some(EnvVar(n, Some(BoolText(l.versionNotifications.value)), None))
            else if n == "N8N_DIAGNOSTICS_ENABLED" && l.diagnostics.Some? then
              Some(EnvVar(n, Some(BoolText(l.diagnostics.value)), None))
            else if n == "N8N_LOG_OUTPUT" && l.output.Some? then Some(EnvVar(n, l.output, None))
            else if n == "N8N_LOG_LEVEL" && l.level.Some? then Some(EnvVar(n, l.level, None)) else None
  {
    hide DefaultAt, BoolText, Default, DefaultBool;
    var a, b := Default("N8N_LOG_LEVEL", l.level), Default("N8N_LOG_OUTPUT", l.output);
    var c, d := DefaultBool("N8N_DIAGNOSTICS_ENABLED", l.diagnostics),
                DefaultBool("N8N_VERSION_NOTIFICATIONS_ENABLED", l.versionNotifications);
    var e := DefaultBool("N8N_METRICS", l.metrics);
    AtConcat(a, b, n);
    AtConcat(a + b, c, n);
    AtConcat(a + b + c, d, n);
    AtConcat(a + b + c + d, e, n);
    AtDefault("N8N_LOG_LEVEL", l.level, None, n);
    AtDefault("N8N_LOG_OUTPUT", l.output, None, n);
    AtDefault("N8N_DIAGNOSTICS_ENABLED", None, l.diagnostics, n);
    AtDefault("N8N_VERSION_NOTIFICATIONS_ENABLED", None, l.versionNotifications, n);
    AtDefault("N8N_METRICS", None, l.metrics, n);
  }

  lemma LoggingRead(env: seq<EnvEntry>, user: seq<EnvVar>, logging: Option<LoggingConfig>)
    requires DecidedBy(env, user, LOGGING_NAMES, LoggingEnv(logging))
    ensures LoggingSeen(env, user, logging.GetOr(NO_LOGGING))
  {
    hide DefaultAt, Lookup, Names;
    LoggingApart();
    forall n | n in LOGGING_NAMES ensures logging.None? ==> DefaultAt(LoggingEnv(logging), n) == None {
      AtOne(EnvVar(n, None, None), n);
    }
    if logging.Some? {
      forall n | n in LOGGING_NAMES { LoggingAt(logging.value, n); }
    }
  }

  lemma CommunityApart()
    ensures |"N8N_COMMUNITY_PACKAGES_ENABLED"| == 30 && |"N8N_COMMUNITY_PACKAGES"| == 22
    ensures |"N8N_COMMUNITY_PACKAGES_MANAGED_BY_ENV"| == 37 && |"N8N_REINSTALL_MISSING_PACKAGES"| == 30
    ensures "N8N_COMMUNITY_PACKAGES_ENABLED"[4] == 'C' && "N8N_REINSTALL_MISSING_PACKAGES"[4] == 'R'
  {}

  lemma CommunityAt(cn: CommunityNodes, n: string)
    ensures DefaultAt(CommunityEnv(Some(cn)), n)
         == if n == "N8N_REINSTALL_MISSING_PACKAGES" && cn.reinstallMissing.Some? then
              Some(EnvVar(n, Some(BoolText(cn.reinstallMissing.value)), None))
            else if n == "N8N_COMMUNITY_PACKAGES_MANAGED_BY_ENV" && cn.packages != [] then
              Some(EnvVar(n, Some("true"), None))
            else if n == "N8N_COMMUNITY_PACKAGES" && cn.packages != [] then
              Some(EnvVar(n, Some("[" + JsonItems(cn.packages) + "]"), None))
            else if n == "N8N_COMMUNITY_PACKAGES_ENABLED" && cn.enabled.Some? then
              Some(EnvVar(n, Some(BoolText(cn.enabled.value)), None)) else None
  {
    hide DefaultAt, BoolText, DefaultBool, JsonItems;
    var a, d := DefaultBool("N8N_COMMUNITY_PACKAGES_ENABLED", cn.enabled),
                DefaultBool("N8N_REINSTALL_MISSING_PACKAGES", cn.reinstallMissing);
    var x := EnvVar("N8N_COMMUNITY_PACKAGES", Some("[" + JsonItems(cn.packages) + "]"), None);
    var y := EnvVar("N8N_COMMUNITY_PACKAGES_MANAGED_BY_ENV", Some("true"), None);
    var b := if cn.packages == [] then [] else [x] + [y];
    assert CommunityEnv(Some(cn)) == a + b + d;
    AtConcat(a, b, n);
    AtConcat(a + b, d, n);
    AtConcat([x], [y], n);
    AtOne(x, n);
    AtOne(y, n);
    AtDefault("N8N_COMMUNITY_PACKAGES_ENABLED", None, cn.enabled, n);
    AtDefault("N8N_REINSTALL_MISSING_PACKAGES", None, cn.reinstallMissing, n);
  }

  lemma {:induction false} ItemsListed(items: seq<string>)
    requires items != []
    ensures Listed(JsonItems(items), items)
  {
    if |items| > 1 {
      ItemsListed(items[1..]);
      assert JsonItems(items)[|items[0]| + 1..] == JsonItems(items[1..]);
    }
  }

  lemma CommunityRead(env: seq<EnvEntry>, user: seq<EnvVar>, community: Option<CommunityNodes>)
    requires DecidedBy(env, user, COMMUNITY_NAMES, CommunityEnv(community))
    ensures CommunitySeen(env, user, community.GetOr(NO_COMMUNITY))
  {
    hide DefaultAt, Lookup, Names, JsonItems, Listed;
    CommunityApart();
    forall n | n in COMMUNITY_NAMES ensures community.None? ==> DefaultAt(CommunityEnv(community), n) == None {
      AtOne(EnvVar(n, None, None), n);
    }
    if community.Some? {
      var packages := community.value.packages;
      forall n | n in COMMUNITY_NAMES { CommunityAt(community.value, n); }
      if packages != [] {
        ItemsListed(packages);
        var t := "[" + JsonItems(packages) + "]";
        assert t[1..|t| - 1] == JsonItems(packages);
      }
    }
  }

  lemma UrlRead(env: seq<EnvEntry>, user: seq<EnvVar>, c: Cluster)
    requires Decided(env, user, WEBHOOK_URL, DefaultAt(AsLayer(ClusterWebhookUrl(c)), WEBHOOK_URL))
    ensures UrlSeen(env, user, c)
  {
    hide DefaultAt, Lookup, Names;
    AtOne(ClusterWebhookUrl(c).GetOr(EnvVar("", None, None)), WEBHOOK_URL);
    assert "https" + "://" == "https://" && "http" + "://" == "http://";
  }

  lemma CookieRead(env: seq<EnvEntry>, user: seq<EnvVar>, cookie: Option<bool>)
    requires Decided(env, user, "N8N_SECURE_COOKIE", DefaultAt(CookieLayer(cookie), "N8N_SECURE_COOKIE"))
    ensures HasFlag(env, user, "N8N_SECURE_COOKIE", cookie)
  {
    hide DefaultAt, Lookup, Names;
    AtOne(EnvVar("N8N_SECURE_COOKIE", Some(if cookie == Some(true) then "true" else "false"), None),
          "N8N_SECURE_COOKIE");
  }

  // ----- Whole containers -----

  /** A container's settings beyond the backends: its own address, and what all roles share. */
  predicate SettingsSeen(env: seq<EnvEntry>, user: seq<EnvVar>, c: Cluster, host: Option<string>,
                         net: Option<NetworkingSpec>)
  {
    && HostSeen(env, user, host, net) && UrlSeen(env, user, c) && SmtpSeen(env, user, c.smtp)
    && LoggingSeen(env, user, c.logging.GetOr(NO_LOGGING))
    && CommunitySeen(env, user, c.communityNodes.GetOr(NO_COMMUNITY))
    && HasFlag(env, user, "N8N_SECURE_COOKIE", c.secureCookie)
    && BinaryDataSeen(env, user, c.binaryData)
  }

  lemma DefaultDecided(env: seq<EnvEntry>, slots: seq<Slot>, d: seq<EnvVar>, cookie: Option<bool>, cluster: seq<EnvVar>,
                       role: seq<EnvVar>, n: string)
    requires Container(env, slots, d, cookie, cluster, role)
    requires n in HOST_NAMES + SMTP_NAMES + LOGGING_NAMES + COMMUNITY_NAMES
    ensures Decided(env, cluster + role, n, DefaultAt(d + CookieLayer(cookie), n))
  {
    NamesPlain();
    hide Container, Plain, HOST_NAMES, SMTP_NAMES, LOGGING_NAMES, COMMUNITY_NAMES, Lookup, Holds, Names, CookieLayer,
         DefaultAt;
    if n !in Names(cluster + role) {
      DefaultSeen(env, slots, d, cookie, cluster, role, n);
    }
  }

  /** The defaults of a container, layer by layer. */
  lemma LayersDecideGroups(env: seq<EnvEntry>, slots: seq<Slot>, d: seq<EnvVar>, cookie: Option<bool>,
                           cluster: seq<EnvVar>, role: seq<EnvVar>, h: seq<EnvVar>, s: seq<EnvVar>, l: seq<EnvVar>,
                           m: seq<EnvVar>, u: seq<EnvVar>)
    requires Container(env, slots, d, cookie, cluster, role)
    requires d == h + s + l + m + u || d == h + u + s + l + m
    requires AllIn(h, ADDRESS_NAMES) && AllIn(s, SMTP_NAMES) && AllIn(l, LOGGING_NAMES) && AllIn(m, COMMUNITY_NAMES)
    requires AllIn(u, {WEBHOOK_URL}) && AllIn(CookieLayer(cookie), {"N8N_SECURE_COOKIE"})
    ensures var user := cluster + role;
            && DecidedBy(env, user, ADDRESS_NAMES, h) && DecidedBy(env, user, SMTP_NAMES, s)
            && DecidedBy(env, user, LOGGING_NAMES, l) && DecidedBy(env, user, COMMUNITY_NAMES, m)
            && Decided(env, user, WEBHOOK_URL, DefaultAt(u, WEBHOOK_URL))
            && Decided(env, user, "N8N_SECURE_COOKIE", DefaultAt(CookieLayer(cookie), "N8N_SECURE_COOKIE"))
  {
    HostNames();
    hide Container, HOST_NAMES, SMTP_NAMES, LOGGING_NAMES, COMMUNITY_NAMES, ADDRESS_NAMES, Decided, CookieLayer,
         DefaultAt, AllIn;
    var user, all := cluster + role, d + CookieLayer(cookie);
    forall n | n in HOST_NAMES + SMTP_NAMES + LOGGING_NAMES + COMMUNITY_NAMES
      ensures Decided(env, user, n, DefaultAt(all, n))
      ensures n in ADDRESS_NAMES ==> DefaultAt(all, n) == DefaultAt(h, n)
      ensures n in SMTP_NAMES ==> DefaultAt(all, n) == DefaultAt(s, n)
      ensures n in LOGGING_NAMES ==> DefaultAt(all, n) == DefaultAt(l, n)
      ensures n in COMMUNITY_NAMES ==> DefaultAt(all, n) == DefaultAt(m, n)
      ensures n == WEBHOOK_URL ==> DefaultAt(all, n) == DefaultAt(u, n)
      ensures n == "N8N_SECURE_COOKIE" ==> DefaultAt(all, n) == DefaultAt(CookieLayer(cookie), n)
    {
      DefaultDecided(env, slots, d, cookie, cluster, role, n);
      OwnLayer(all, h, s, l, m, u, CookieLayer(cookie), n);
    }
  }

  lemma RoleDefaultsSeen(env: seq<EnvEntry>, slots: seq<Slot>, role: seq<EnvVar>, c: Cluster, host: Option<string>,
                         net: Option<NetworkingSpec>)
    requires Container(env, slots, RoleDefaults(c, host, net), c.secureCookie, c.extraEnv, role)
    requires BinaryDataSeen(env, c.extraEnv + role, c.binaryData)
    ensures SettingsSeen(env, c.extraEnv + role, c, host, net)
  {
    var user := c.extraEnv + role;
    LayersIn(host, ProtocolFor(net), c.smtp, c.logging, c.communityNodes, c.secureCookie);
    UrlLayerIn(c);
    hide Container, HOST_NAMES, SMTP_NAMES, LOGGING_NAMES, COMMUNITY_NAMES, ADDRESS_NAMES, Decided, CookieLayer,
         DefaultAt, AllIn, HostEnv, SmtpEnv, LoggingEnv, CommunityEnv, AsLayer, DecidedBy, HostSeen, UrlSeen, SmtpSeen,
         LoggingSeen, CommunitySeen, HasFlag, BinaryDataSeen, ProtocolFor;
    var h, u := HostEnv(host, ProtocolFor(net)), AsLayer(ClusterWebhookUrl(c));
    LayersDecideGroups(env, slots, RoleDefaults(c, host, net), c.secureCookie, c.extraEnv, role, h, SmtpEnv(c.smtp),
                       LoggingEnv(c.logging), CommunityEnv(c.communityNodes), u);
    HostRead(env, user, host, net);
    UrlRead(env, user, c);
    SmtpRead(env, user, c.smtp);
    LoggingRead(env, user, c.logging);
    CommunityRead(env, user, c.communityNodes);
    CookieRead(env, user, c.secureCookie);
  }

  lemma UrlLayerIn(c: Cluster)
    ensures AllIn(AsLayer(ClusterWebhookUrl(c)), {WEBHOOK_URL})
  {}

  /** Names that belong to no role's flags: those of the backends and of binary data. */
  lemma FlagsApart(n: string)
    ensures n in ROLE_FLAGS || n in MULTI_MAIN_TIMING ==> !CommonNamed(n) && n !in BINARY_DATA_NAMES && !Plain(n)
    ensures n in BINARY_DATA_NAMES ==> !CommonNamed(n) && !Plain(n)
  {
    hide CommonNamed, BINARY_DATA_NAMES, MULTI_MAIN_TIMING, ROLE_FLAGS;
    if n in ROLE_FLAGS {
      FlagReserved(n);
    } else if n in MULTI_MAIN_TIMING || n in BINARY_DATA_NAMES {
      OpenNotCommon(n);
    }
  }

  /** Binary data and the role's own flags, in a container built of the backends, binary data and those flags. */
  lemma ContainerParts(env: seq<EnvEntry>, a: seq<Slot>, rest: seq<Slot>, d: seq<EnvVar>, role: seq<EnvVar>, c: Cluster)
    requires Container(env, a + BinaryDataSlots(c.binaryData) + rest, d, c.secureCookie, c.extraEnv, role)
    requires LegalBinaryData(c.binaryData)
    requires forall n | n in SlotNames(a) :: CommonNamed(n)
    requires forall n | n in SlotNames(rest) :: n in ROLE_FLAGS || n in MULTI_MAIN_TIMING
    ensures BinaryDataSeen(env, c.extraEnv + role, c.binaryData)
    ensures PartSeen(env, c.extraEnv + role, rest, ROLE_FLAGS + MULTI_MAIN_TIMING)
  {
    BinaryDataNames(c.binaryData);
    hide Container, CommonNamed, BINARY_DATA_NAMES, MULTI_MAIN_TIMING, ROLE_FLAGS, BinaryDataSlots, PartSeen,
         BinaryDataSeen, SlotNames, Plain;
    var b := BinaryDataSlots(c.binaryData);
    SlotNamesConcat(a, b);
    SlotNamesConcat(a + b, rest);
    forall n: string
      ensures n in ROLE_FLAGS || n in MULTI_MAIN_TIMING ==> !CommonNamed(n) && n !in BINARY_DATA_NAMES && !Plain(n)
      ensures n in BINARY_DATA_NAMES ==> !CommonNamed(n) && !Plain(n)
    {
      FlagsApart(n);
    }
    PartOf(env, a + b + rest, d, c.secureCookie, c.extraEnv, role, b, BINARY_DATA_NAMES);
    PartOf(env, a + b + rest, d, c.secureCookie, c.extraEnv, role, rest, ROLE_FLAGS + MULTI_MAIN_TIMING);
    S3Known(c.binaryData);
    BinaryRead(env, c.extraEnv + role, c.binaryData);
  }

  lemma S3Known(bd: Option<BinaryDataSpec>)
    requires LegalBinaryData(bd)
    ensures bd.Some? && bd.value.mode == "s3" ==> bd.value.s3.Some?
  {
    ModesDiffer();
    assert "default"[0] == 'd';
  }

  lemma FlagLengths()
    ensures |"N8N_MULTI_MAIN_SETUP_ENABLED"| == 28 && |"N8N_DISABLE_PRODUCTION_MAIN_PROCESS"| == 35
    ensures |"N8N_CONCURRENCY_PRODUCTION_LIMIT"| == 32 && |"QUEUE_HEALTH_CHECK_ACTIVE"| == 25
    ensures |"N8N_MULTI_MAIN_SETUP_KEY_TTL"| == 28 && |"N8N_MULTI_MAIN_SETUP_CHECK_INTERVAL"| == 35
    ensures forall n | n in ROLE_FLAGS :: OperatorsOwn(n)
  {}

  lemma FlagOwn(env: seq<EnvEntry>, n: string, v: Option<EnvValue>, cluster: seq<EnvVar>, role: seq<EnvVar>)
    requires Has(env, cluster + role, n, v) && LegalEnv(cluster) && LegalEnv(role) && n in ROLE_FLAGS
    ensures Lookup(env, n) == v
  {
    FlagLengths();
    hide OperatorsOwn, LegalEnv;
    UnsetByUsers(n, cluster, role);
  }

  lemma MainFlagsRead(env: seq<EnvEntry>, user: seq<EnvVar>, c: Cluster)
    requires PartSeen(env, user, [MultiMainFlag(c)] + MultiMainTuning(c) + [WebhookOffloadSlot(c)],
                      ROLE_FLAGS + MULTI_MAIN_TIMING)
    requires forall n, v | n in ROLE_FLAGS && Has(env, user, n, v) :: Lookup(env, n) == v
    ensures MainFlagsSeen(env, user, c)
  {
    FlagLengths();
    hide PartSeen, NatText, Digits, Names, Lookup;
    var part := [MultiMainFlag(c)] + MultiMainTuning(c) + [WebhookOffloadSlot(c)];
    forall i: nat | i < 4 ensures Has(env, user, part[i].name, part[i].value) {
      Present(env, user, part, ROLE_FLAGS + MULTI_MAIN_TIMING, i);
    }
    assert part[0] == MultiMainFlag(c) && part[1] == MultiMainTuning(c)[0] && part[2] == MultiMainTuning(c)[1];
    assert part[3] == WebhookOffloadSlot(c);
    Missing(env, user, part, ROLE_FLAGS + MULTI_MAIN_TIMING, "N8N_CONCURRENCY_PRODUCTION_LIMIT");
    if c.main.keyTtl.Some? { NatTextDigits(c.main.keyTtl.value); }
    if c.main.checkInterval.Some? { NatTextDigits(c.main.checkInterval.value); }
  }

  lemma WorkerFlagsRead(env: seq<EnvEntry>, user: seq<EnvVar>, c: Cluster)
    requires PartSeen(env, user, WorkerSlots(c), ROLE_FLAGS + MULTI_MAIN_TIMING)
    requires forall n, v | n in ROLE_FLAGS && Has(env, user, n, v) :: Lookup(env, n) == v
    ensures WorkerFlagsSeen(env, c)
  {
    FlagLengths();
    hide PartSeen, NatText, Digits, Names, Lookup;
    var part, names := WorkerSlots(c), ROLE_FLAGS + MULTI_MAIN_TIMING;
    Present(env, user, part, names, 0);
    Present(env, user, part, names, 1);
    Missing(env, user, part, names, "N8N_MULTI_MAIN_SETUP_ENABLED");
    Missing(env, user, part, names, "N8N_DISABLE_PRODUCTION_MAIN_PROCESS");
    if c.workers.concurrency.Some? { NatTextDigits(c.workers.concurrency.value); }
  }

  /** The main container of a legal Cluster. */
  lemma MainSettings(c: Cluster, key: SecretKeyRef)
    requires LegalCluster(c)
    ensures var user := c.extraEnv + c.main.extraEnv;
            && SettingsSeen(MainEnv(c, key), user, c, c.main.host, c.main.networking)
            && MainFlagsSeen(MainEnv(c, key), user, c)
  {
    CommonNotPlain(c, key);
    hide CommonSlots, Container, LegalServer, LegalEnv, RoleDefaults, BinaryDataSlots, MultiMainTuning, MainEnv,
         PartSeen, SettingsSeen, MainFlagsSeen, CommonNamed, Plain, BINARY_DATA_NAMES, ROLE_FLAGS, MULTI_MAIN_TIMING,
         BinaryDataSeen, Has, Lookup, LegalBinaryData;
    var a, b, env := CommonSlots(c, key), BinaryDataSlots(c.binaryData), MainEnv(c, key);
    var flags := [MultiMainFlag(c)] + MultiMainTuning(c) + [WebhookOffloadSlot(c)];
    MainContainer(c, key);
    assert MainSlots(c, key) == a + b + flags;
    RoleFlagNames(c);
    SlotNamesConcat([MultiMainFlag(c)], MultiMainTuning(c));
    SlotNamesConcat([MultiMainFlag(c)] + MultiMainTuning(c), [WebhookOffloadSlot(c)]);
    var d := RoleDefaults(c, c.main.host, c.main.networking);
    ContainerParts(env, a, flags, d, c.main.extraEnv, c);
    RoleDefaultsSeen(env, a + b + flags, c.main.extraEnv, c, c.main.host, c.main.networking);
    forall n, v | n in ROLE_FLAGS && Has(env, c.extraEnv + c.main.extraEnv, n, v) ensures Lookup(env, n) == v {
      FlagOwn(env, n, v, c.extraEnv, c.main.extraEnv);
    }
    MainFlagsRead(env, c.extraEnv + c.main.extraEnv, c);
  }

  /** The worker container of a legal Cluster: it serves nobody, so it has no address of its own. */
  lemma WorkerSettings(c: Cluster, key: SecretKeyRef)
    requires LegalCluster(c)
    ensures SettingsSeen(WorkerEnv(c, key), c.extraEnv + c.workers.extraEnv, c, None, None)
    ensures WorkerFlagsSeen(WorkerEnv(c, key), c)
  {
    CommonNotPlain(c, key);
    hide CommonSlots, Container, LegalServer, LegalEnv, RoleDefaults, BinaryDataSlots, WorkerEnv, WorkerSlots,
         PartSeen, SettingsSeen, WorkerFlagsSeen, CommonNamed, Plain, BINARY_DATA_NAMES, ROLE_FLAGS, MULTI_MAIN_TIMING,
         BinaryDataSeen, Has, Lookup, LegalBinaryData;
    var a, b, env := CommonSlots(c, key), BinaryDataSlots(c.binaryData), WorkerEnv(c, key);
    WorkerContainer(c, key);
    RoleFlagNames(c);
    ContainerParts(env, a, WorkerSlots(c), RoleDefaults(c, None, None), c.workers.extraEnv, c);
    RoleDefaultsSeen(env, a + b + WorkerSlots(c), c.workers.extraEnv, c, None, None);
    forall n, v | n in ROLE_FLAGS && Has(env, c.extraEnv + c.workers.extraEnv, n, v) ensures Lookup(env, n) == v {
      FlagOwn(env, n, v, c.extraEnv, c.workers.extraEnv);
    }
    WorkerFlagsRead(env, c.extraEnv + c.workers.extraEnv, c);
  }

  /** The webhook container of a legal Cluster. */
  lemma WebhookSettings(c: Cluster, wh: WebhookConfig, key: SecretKeyRef)
    requires LegalCluster(c) && c.webhooks == Some(wh)
    ensures SettingsSeen(WebhookEnv(c, wh, key), c.extraEnv + wh.extraEnv, c, wh.host, wh.networking)
    ensures NoMain(WebhookEnv(c, wh, key))
  {
    CommonNotPlain(c, key);
    FlagMembers();
    hide CommonSlots, Container, LegalServer, LegalEnv, RoleDefaults, BinaryDataSlots, WebhookEnv, SettingsSeen,
         CommonNamed, Plain, BINARY_DATA_NAMES, ROLE_FLAGS, MULTI_MAIN_TIMING, BinaryDataSeen, Lookup, LegalBinaryData,
         Names;
    var a, b, env := CommonSlots(c, key), BinaryDataSlots(c.binaryData), WebhookEnv(c, wh, key);
    WebhookContainer(c, wh, key);
    assert a + b + [] == a + b;
    ContainerParts(env, a, [], RoleDefaults(c, wh.host, wh.networking), wh.extraEnv, c);
    RoleDefaultsSeen(env, a + b, wh.extraEnv, c, wh.host, wh.networking);
    FlagOwn(env, "N8N_MULTI_MAIN_SETUP_ENABLED", None, c.extraEnv, wh.extraEnv);
    FlagOwn(env, "N8N_DISABLE_PRODUCTION_MAIN_PROCESS", None, c.extraEnv, wh.extraEnv);
  }

  lemma FlagMembers()
    ensures "N8N_MULTI_MAIN_SETUP_ENABLED" in ROLE_FLAGS && "N8N_DISABLE_PRODUCTION_MAIN_PROCESS" in ROLE_FLAGS
  {}

  /** The container of a Single; its one host also is the webhook address. */
  lemma SingleSettings(s: Single, key: SecretKeyRef)
    ensures var env, user := SingleEnv(s, key), s.extraEnv;
            && HostSeen(env, user, s.host, s.networking) && SmtpSeen(env, user, s.smtp)
            && HasText(env, user, "WEBHOOK_URL",
                       if s.host.None? then None else Some(Address(s.host.value, s.networking, "/")))
            && LoggingSeen(env, user, s.logging.GetOr(NO_LOGGING))
            && HasFlag(env, user, "N8N_SECURE_COOKIE", s.secureCookie)
  {
    var protocol := ProtocolFor(s.networking);
    var u := match s.host case Some(h) => [WebhookUrlEnv(h, protocol)] case None => [];
    LayersIn(s.host, protocol, s.smtp, s.logging, None, s.secureCookie);
    assert CommunityEnv(None) == [] && AllIn(u, {WEBHOOK_URL});
    SingleUrl(SingleEnv(s, key), s.extraEnv, s);
    assert s.extraEnv + [] == s.extraEnv;
    hide Container, HOST_NAMES, SMTP_NAMES, LOGGING_NAMES, COMMUNITY_NAMES, ADDRESS_NAMES, Decided, CookieLayer,
         DefaultAt, AllIn, HostEnv, SmtpEnv, LoggingEnv, CommunityEnv, AsLayer, DecidedBy, HostSeen, SmtpSeen,
         SingleEnv, LoggingSeen, HasFlag, HasText, ProtocolFor, WebhookUrlEnv;
    SingleContainer(s, key);
    var h, d := HostEnv(s.host, protocol), SingleDefaults(s);
    assert d == h + u + SmtpEnv(s.smtp) + LoggingEnv(s.logging) + CommunityEnv(None);
    LayersDecideGroups(SingleEnv(s, key), SingleSlots(s, key), d, s.secureCookie, s.extraEnv, [], h, SmtpEnv(s.smtp),
                       LoggingEnv(s.logging), CommunityEnv(None), u);
    HostRead(SingleEnv(s, key), s.extraEnv, s.host, s.networking);
    SmtpRead(SingleEnv(s, key), s.extraEnv, s.smtp);
    LoggingRead(SingleEnv(s, key), s.extraEnv, s.logging);
    CookieRead(SingleEnv(s, key), s.extraEnv, s.secureCookie);
  }

  lemma SingleUrl(env: seq<EnvEntry>, user: seq<EnvVar>, s: Single)
    ensures var u := match s.host case Some(h) => [WebhookUrlEnv(h, ProtocolFor(s.networking))] case None => [];
            Decided(env, user, WEBHOOK_URL, DefaultAt(u, WEBHOOK_URL)) ==>
              HasText(env, user, "WEBHOOK_URL",
                      if s.host.None? then None else Some(Address(s.host.value, s.networking, "/")))
  {
    hide DefaultAt, Lookup, Names;
    AtOne(WebhookUrlEnv(s.host.GetOr(""), ProtocolFor(s.networking)), WEBHOOK_URL);
    assert "https" + "://" == "https://" && "http" + "://" == "http://";
  }
}

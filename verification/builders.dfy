/** Labels and the fields each applied object declares. */
module Builders {
  import opened Wrappers
  import opened Kube
  import opened Resources

  // ----- Labels -----

  function SelectorLabels(name: string): map<string, string> {
    map["app.kubernetes.io/name" := "n8n", "app.kubernetes.io/instance" := name]
  }

  function CommonLabels(name: string, image: string, component: string): map<string, string> {
    SelectorLabels(name)
    + map["app.kubernetes.io/managed-by" := "n8n-rustful-operator", "app.kubernetes.io/part-of" := "n8n",
          "app.kubernetes.io/component" := component, "app.kubernetes.io/version" := ImageVersion(image)]
  }

  /** The text after the last `sep`, or none. */
  function AfterLast(s: string, sep: char): Option<string> {
    if s == "" then None
    else if s[|s| - 1] == sep then Some("")
    else match AfterLast(s[..|s| - 1], sep)
      case Some(t) => Some(t + [s[|s| - 1]])
      case None => None
  }

  function ImageVersion(image: string): string {
    AfterLast(AfterLast(image, '/').GetOr(image), ':').GetOr("latest")
  }

  const OPERATOR_VERSION := "n8n.slys.dev/operator-version"
  const INSTANCE_AI_REVISION := "n8n.slys.dev/instance-ai-revision"

  function CommonAnnotations(): map<string, string> {
    map[OPERATOR_VERSION := "current"]
  }

  // ----- Field groups -----

  function LabelFields(m: map<string, string>): Fields {
    map k | k in m :: Label(k) := Text(m[k])
  }

  function AnnotationFields(m: map<string, string>): Fields {
    map k | k in m :: Annotation(k) := Text(m[k])
  }

  function SelectorFields(m: map<string, string>): Fields {
    map k | k in m :: SelectorLabel(k) := Text(m[k])
  }

  function PodLabelFields(m: map<string, string>): Fields {
    map k | k in m :: PodLabel(k) := Text(m[k])
  }

  function PodAnnotationFields(m: map<string, string>): Fields {
    map k | k in m :: PodAnnotation(k) := Text(m[k])
  }

  function DataFields(m: map<string, string>): Fields {
    map k | k in m :: Data(k) := Text(m[k])
  }

  function TextField(name: string, v: Option<string>): Fields {
    match v case Some(t) => map[Spec(name) := Text(t)] case None => map[]
  }

  /** Labels, annotations and owner of every applied child. */
  function Meta(labels: map<string, string>, owner: string): Fields {
    LabelFields(labels) + AnnotationFields(CommonAnnotations()) + map[Spec("owner") := Text(owner)]
  }

  // ----- Pod configuration -----

  function PodLabelsOf(pod: Option<PodConfig>): map<string, string> {
    if pod.Some? then pod.value.podLabels.GetOr(map[]) else map[]
  }

  function PodAnnotationsOf(pod: Option<PodConfig>): map<string, string> {
    if pod.Some? then pod.value.podAnnotations.GetOr(map[]) else map[]
  }

  /** Selector, labels and annotations of a workload; the user's entries are merged over the operator's. */
  function WorkloadFields(selector: map<string, string>, labels: map<string, string>,
                          annotations: map<string, string>, pod: Option<PodConfig>): Fields
  {
    SelectorFields(selector) + PodLabelFields(labels + PodLabelsOf(pod))
    + PodAnnotationFields(annotations + PodAnnotationsOf(pod))
  }

  // ----- n8n Deployments -----

  function InstanceAiSecret(crName: string): string {
    crName + "-instance-ai"
  }

  /** `instanceAi` is the name of the resource whose Secret is pulled in, and that Secret's revision. */
  function DeploymentFields(name: string, image: string, component: string, replicas: Option<int>,
                            env: seq<EnvEntry>, volumes: seq<string>, command: seq<string>,
                            pod: Option<PodConfig>, strategy: Option<Strategy>,
                            instanceAi: Option<(string, string)>, owner: string): Fields
  {
    var labels := CommonLabels(name, image, component);
    var annotations := CommonAnnotations()
      + if instanceAi.Some? then map[INSTANCE_AI_REVISION := instanceAi.value.1] else map[];
    Meta(labels, owner) + WorkloadFields(SelectorLabels(name), labels, annotations, pod)
    + PodSpecFields(image, env, volumes, command, strategy, instanceAi)
    + (if replicas.Some? then map[Replicas := Number(replicas.value)] else map[])
  }

  function PodSpecFields(image: string, env: seq<EnvEntry>, volumes: seq<string>, command: seq<string>,
                         strategy: Option<Strategy>, instanceAi: Option<(string, string)>): Fields
  {
    map[Spec("image") := Text(image), EnvList := Environment(env), Spec("volumes") := Texts(volumes)]
    + (if command == [] then map[] else map[Spec("command") := Texts(command)])
    + (if instanceAi.Some? then map[Spec("envFrom") := Text(InstanceAiSecret(instanceAi.value.0))] else map[])
    + (if strategy.Some? then map[Spec("strategy") := Texts(StrategyTexts(strategy.value))] else map[])
  }

  lemma MetaPaths(labels: map<string, string>, owner: string)
    ensures forall p | p in Meta(labels, owner) :: p.Label? || p.Annotation? || p.Spec?
  {
    hide CommonAnnotations;
  }

  lemma WorkloadPaths(selector: map<string, string>, labels: map<string, string>, annotations: map<string, string>,
                      pod: Option<PodConfig>)
    ensures forall p | p in WorkloadFields(selector, labels, annotations, pod) ::
              p.SelectorLabel? || p.PodLabel? || p.PodAnnotation?
  {
    hide PodLabelsOf, PodAnnotationsOf;
  }

  lemma PodSpecPaths(image: string, env: seq<EnvEntry>, volumes: seq<string>, command: seq<string>,
                     strategy: Option<Strategy>, instanceAi: Option<(string, string)>)
    ensures forall p | p in PodSpecFields(image, env, volumes, command, strategy, instanceAi) :: p.Spec? || p.EnvList?
  {
    hide StrategyTexts, InstanceAiSecret;
  }

  /** A Deployment carries the common labels, which no other field of it can cover. */
  lemma DeploymentLabel(name: string, image: string, component: string, replicas: Option<int>,
                        env: seq<EnvEntry>, volumes: seq<string>, command: seq<string>,
                        pod: Option<PodConfig>, strategy: Option<Strategy>,
                        instanceAi: Option<(string, string)>, owner: string, key: string)
    requires key in CommonLabels(name, image, component)
    ensures var f := DeploymentFields(name, image, component, replicas, env, volumes, command, pod, strategy,
                                      instanceAi, owner);
            Label(key) in f && f[Label(key)] == Text(CommonLabels(name, image, component)[key])
  {
    hide CommonLabels, SelectorLabels, CommonAnnotations, Meta, WorkloadFields, PodSpecFields, INSTANCE_AI_REVISION;
    var labels := CommonLabels(name, image, component);
    var annotations := CommonAnnotations()
      + if instanceAi.Some? then map[INSTANCE_AI_REVISION := instanceAi.value.1] else map[];
    MetaLabel(labels, owner, key);
    WorkloadPaths(SelectorLabels(name), labels, annotations, pod);
    PodSpecPaths(image, env, volumes, command, strategy, instanceAi);
  }

  lemma MetaLabel(labels: map<string, string>, owner: string, key: string)
    requires key in labels
    ensures Label(key) in Meta(labels, owner) && Meta(labels, owner)[Label(key)] == Text(labels[key])
  {
    hide CommonAnnotations;
    assert Label(key) in LabelFields(labels);
  }

  /** A Deployment declares a replica count exactly when it was given one. */
  lemma DeploymentReplicas(name: string, image: string, component: string, replicas: Option<int>,
                           env: seq<EnvEntry>, volumes: seq<string>, command: seq<string>,
                           pod: Option<PodConfig>, strategy: Option<Strategy>,
                           instanceAi: Option<(string, string)>, owner: string)
    ensures var f := DeploymentFields(name, image, component, replicas, env, volumes, command, pod, strategy,
                                      instanceAi, owner);
            && (Replicas in f <==> replicas.Some?)
            && (replicas.Some? ==> f[Replicas] == Number(replicas.value))
  {
    hide CommonLabels, SelectorLabels, CommonAnnotations, Meta, WorkloadFields, PodSpecFields, INSTANCE_AI_REVISION;
    var labels := CommonLabels(name, image, component);
    var annotations := CommonAnnotations()
      + if instanceAi.Some? then map[INSTANCE_AI_REVISION := instanceAi.value.1] else map[];
    MetaPaths(labels, owner);
    WorkloadPaths(SelectorLabels(name), labels, annotations, pod);
    PodSpecPaths(image, env, volumes, command, strategy, instanceAi);
  }

  /** The pods carry the instance-ai revision, unless the user's own annotation takes its place. */
  lemma DeploymentRevision(name: string, image: string, component: string, replicas: Option<int>,
                           env: seq<EnvEntry>, volumes: seq<string>, command: seq<string>,
                           pod: Option<PodConfig>, strategy: Option<Strategy>, crName: string, revision: string,
                               owner: string)
    ensures var f := DeploymentFields(name, image, component, replicas, env, volumes, command, pod, strategy,
                                      Some((crName, revision)), owner);
            var user := PodAnnotationsOf(pod);
            && PodAnnotation(INSTANCE_AI_REVISION) in f
            && f[PodAnnotation(INSTANCE_AI_REVISION)]
               == Text(if INSTANCE_AI_REVISION in user then user[INSTANCE_AI_REVISION] else revision)
  {
    hide CommonLabels, SelectorLabels, CommonAnnotations, Meta, PodSpecFields, WorkloadFields, INSTANCE_AI_REVISION,
        PodAnnotationsOf;
    var labels := CommonLabels(name, image, component);
    PodSpecPaths(image, env, volumes, command, strategy, Some((crName, revision)));
    var annotations := CommonAnnotations() + map[INSTANCE_AI_REVISION := revision];
    WorkloadAnnotation(SelectorLabels(name), labels, annotations, pod, INSTANCE_AI_REVISION);
  }

  lemma WorkloadAnnotation(selector: map<string, string>, labels: map<string, string>, annotations: map<string, string>,
                           pod: Option<PodConfig>, key: string)
    requires key in annotations
    ensures var f, user := WorkloadFields(selector, labels, annotations, pod), PodAnnotationsOf(pod);
            PodAnnotation(key) in f && f[PodAnnotation(key)]
                == Text(if key in user then user[key] else annotations[key])
  {
    hide PodAnnotationsOf, PodLabelsOf;
    assert PodAnnotation(key) in PodAnnotationFields(annotations + PodAnnotationsOf(pod));
  }

  function StrategyTexts(s: Strategy): seq<string> {
    if s.kind == "RollingUpdate" then [s.kind, s.maxSurge.GetOr(""), s.maxUnavailable.GetOr("")] else [s.kind]
  }

  function ServiceFields(name: string, image: string, component: string, serviceType: Option<string>,
                         sticky: bool, owner: string): Fields
  {
    Meta(CommonLabels(name, image, component), owner) + SelectorFields(SelectorLabels(name))
    + map[Spec("type") := Text(serviceType.GetOr("ClusterIP")), Spec("port") := Number(5678)]
    + (if sticky then map[Spec("sessionAffinity") := Text("ClientIP")] else map[])
  }

  function HpaFields(name: string, image: string, a: Autoscaling, owner: string): Fields {
    Meta(CommonLabels(name, image, "worker"), owner)
    + map[Spec("scaleTargetRef") := Text(name), Spec("minReplicas") := Number(a.minReplicas),
          Spec("maxReplicas") := Number(a.maxReplicas), Spec("averageUtilization") := Number(a.cpu.GetOr(70))]
  }

  function DestinationRuleFields(name: string, image: string, ns: string, owner: string): Fields {
    Meta(CommonLabels(name, image, "main"), owner)
    + map[Spec("host") := Text(name + "." + ns + ".svc.cluster.local"), Spec("httpCookie") := Text("n8n-route")]
  }

  function PvcFields(instance: string, image: string, component: string, p: Storage, owner: string): Fields {
    Meta(CommonLabels(instance, image, component), owner)
    + map[Spec("accessModes") := Text(p.accessMode), Spec("storage") := Text(p.size)]
    + TextField("storageClassName", p.storageClass)
  }

  // ----- Networking -----

  function IngressFields(name: string, image: string, component: string, host: string, cfg: IngressConfig,
                         owner: string): Fields
  {
    Meta(CommonLabels(name, image, "ingress")["app.kubernetes.io/component" := component + "-ingress"], owner)
    + map[Spec("host") := Text(host), Spec("backend") := Text(name)]
    + TextField("ingressClassName", cfg.className) + TextField("tls", cfg.tlsSecretName)
  }

  function RouteFields(name: string, image: string, component: string, host: string, gateway: GatewayRef,
                       section: Option<string>, rule: string, owner: string): Fields
  {
    Meta(CommonLabels(name, image, component), owner)
    + map[Spec("hostname") := Text(host), Spec("parent") := Text(gateway.name), Spec("rule") := Text(rule)]
    + TextField("parentNamespace", gateway.ns) + TextField("sectionName", section)
  }

  function RedirectName(name: string): string {
    name + "-redirect"
  }

  // ----- Secrets and volumes -----

  function EncryptionSecretFields(name: string, image: string, generated: string, owner: string): Fields {
    Meta(CommonLabels(name, image, "encryption-key"), owner) + map[Data("encryption_key") := Text(generated)]
  }

  function SslVolumes(ssl: Option<DatabaseSsl>): seq<string> {
    match ssl
    case None => []
    case Some(s) =>
      (if s.caSecret.Some? then ["n8n-db-ssl-ca:" + s.caSecret.value.name] else [])
      + (if s.certSecret.Some? then ["n8n-db-ssl-cert:" + s.certSecret.value.name] else [])
      + (if s.keySecret.Some? then ["n8n-db-ssl-key:" + s.keySecret.value.name] else [])
  }

  function DbVolumes(db: DatabaseSpec): seq<string> {
    if db.kind == "postgresdb" then (if db.postgres.Some? then SslVolumes(db.postgres.value.ssl) else [])
    else if db.kind == "mysqldb" || db.kind == "mariadb" then
      (if db.mysql.Some? then SslVolumes(db.mysql.value.ssl) else [])
    else []
  }
}

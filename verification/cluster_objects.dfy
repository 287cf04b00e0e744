/** The objects a Cluster or a Single asks for, rendered from its spec. */
module ClusterObjects {
  import opened Wrappers
  import opened Kube
  import opened Resources
  import opened Env
  import opened OperatorEnv
  import opened Validate
  import opened Builders

  /** The networking objects of a role; `conflict` when both an Ingress and a route are configured. */
  datatype Surface = Surface(conflict: bool, ingress: Option<Fields>, route: Option<Fields>, redirect: Option<Fields>)

  const NO_SURFACE := Surface(false, None, None, None)

  /** A redirect only accompanies a route. */
  predicate SurfaceOk(s: Surface) {
    s.route.None? ==> s.redirect.None?
  }

  datatype Webhook = Webhook(deployment: Fields, service: Fields, surface: Surface)

  /** The main Deployment is rendered once the instance-ai revision has been read. */
  datatype Objects = Objects(
    encryption: Option<Fields>, nodes: Option<Fields>, binary: Option<Fields>, mainData: Option<Fields>,
    mainDeployment: string -> Fields, mainService: Fields, rule: Option<Fields>, main: Surface,
    worker: Fields, hpa: Option<Fields>,
    webhook: Option<Webhook>,
    status: Fields)

  datatype SingleObjects = SingleObjects(
    encryption: Option<Fields>, data: Option<Fields>, deployment: string -> Fields, service: Fields,
    surface: Surface, status: Fields)

  // ----- Names -----

  function MainName(name: string): string { name + "-main" }
  function WorkerName(name: string): string { name + "-worker" }
  function WebhookName(name: string): string { name + "-webhook" }
  function NodesPvc(name: string): string { name + "-nodes" }
  function BinaryPvc(name: string): string { name + "-binary-data" }
  function MainPvc(name: string): string { name + "-main-data" }
  function EncryptionSecret(name: string): string { name + "-encryption-key" }
  function ClusterOwner(name: string): string { "Cluster/" + name }

  // ----- Networking -----

  function RoleSurface(name: string, image: string, component: string, host: Option<string>,
                       net: Option<NetworkingSpec>, owner: string): (s: Surface)
    ensures SurfaceOk(s)
  {
    match net
    case None => NO_SURFACE
    case Some(n) =>
      Surface(
        Conflicting(net),
        (match n.ingress
         case Some(cfg) => Some(IngressFields(name, image, component, host.GetOr(""), cfg, owner))
         case None => None),
        (match n.httpRoute
         case Some(cfg) => Some(RouteFields(name, image, "http-route", host.GetOr(""), cfg.gateway,
                                            cfg.gateway.sectionName, name, owner))
         case None => None),
        (match n.httpRoute
         case Some(cfg) =>
           if cfg.httpsRedirectSectionName.None? then None
           else Some(RouteFields(RedirectName(name), image, "http-redirect", host.GetOr(""), cfg.gateway,
                                 cfg.httpsRedirectSectionName, "https 301", owner))
         case None => None))
  }

  // ----- Cluster -----

  function KeySecret(ref: Option<SecretKeyRef>, name: string): SecretKeyRef {
    ref.GetOr(SecretKeyRef(EncryptionSecret(name), "encryption_key"))
  }

  function Pvc(instance: string, image: string, component: string, p: Option<Storage>, owner: string): Option<Fields> {
    match p case Some(s) => Some(PvcFields(instance, image, component, s, owner)) case None => None
  }

  function NodesStorage(c: Cluster): Option<Storage> {
    if c.communityNodes.Some? then c.communityNodes.value.sharedStorage else None
  }

  function BinaryStorage(c: Cluster): Option<Storage> {
    if c.binaryData.Some? && c.binaryData.value.mode == "filesystem" then c.binaryData.value.sharedStorage else None
  }

  function BundleVolumes(c: Cluster): seq<string> {
    DbVolumes(c.database)
    + (if NodesStorage(c).Some? then ["n8n-nodes:" + NodesPvc(c.name)] else [])
    + (if BinaryStorage(c).Some? then ["n8n-binary-data:" + BinaryPvc(c.name)] else [])
  }

  function MainVolumes(c: Cluster): seq<string> {
    BundleVolumes(c) + if c.main.persistence.Some? then ["n8n-data:" + MainPvc(c.name)] else []
  }

  function MainDeployment(c: Cluster, revision: string): Fields {
    DeploymentFields(MainName(c.name), c.main.image.GetOr(c.image), "main", Some(c.main.replicas),
                     MainEnv(c, KeySecret(c.encryptionKey, c.name)), MainVolumes(c), [], c.main.pod, c.main.strategy,
                     Some((c.name, revision)), ClusterOwner(c.name))
  }

  /** With autoscaling on, the replica count is left to the autoscaler. */
  function WorkerDeployment(c: Cluster): Fields {
    DeploymentFields(WorkerName(c.name), c.workers.image.GetOr(c.image), "worker",
                     if c.workers.autoscaling.Some? then None else Some(c.workers.replicas),
                     WorkerEnv(c, KeySecret(c.encryptionKey, c.name)), BundleVolumes(c), ["n8n", "worker"],
                     c.workers.pod, c.workers.strategy, None, ClusterOwner(c.name))
  }

  function WebhookDeployment(c: Cluster, wh: WebhookConfig): Fields {
    DeploymentFields(WebhookName(c.name), wh.image.GetOr(c.image), "webhook", Some(wh.replicas),
                     WebhookEnv(c, wh, KeySecret(c.encryptionKey, c.name)), BundleVolumes(c), ["n8n", "webhook"],
                     wh.pod, wh.strategy, None, ClusterOwner(c.name))
  }

  function ClusterStatus(c: Cluster): Fields {
    map[Status("ready") := Truth(true), Status("mainReplicas") := Number(c.main.replicas),
        Status("workerReplicas") := Number(c.workers.replicas),
        Status("webhookReplicas") := Number(if c.webhooks.Some? then c.webhooks.value.replicas else 0),
        Status("encryptionKeySecret") := Text(KeySecret(c.encryptionKey, c.name).name)]
  }

  function RenderCluster(c: Cluster, generated: string): Objects {
    var owner := ClusterOwner(c.name);
    var mainImage := c.main.image.GetOr(c.image);
    Objects(
      if c.encryptionKey.Some? then None else Some(EncryptionSecretFields(c.name, c.image, generated, owner)),
      Pvc(c.name, c.image, "nodes", NodesStorage(c), owner),
      Pvc(c.name, c.image, "nodes", BinaryStorage(c), owner),
      Pvc(MainName(c.name), mainImage, "data", c.main.persistence, owner),
      (revision: string) => MainDeployment(c, revision),
      ServiceFields(MainName(c.name), mainImage, "main", c.main.serviceType, MultiMain(c), owner),
      if MultiMain(c) then Some(DestinationRuleFields(MainName(c.name), mainImage, c.ns, owner)) else None,
      RoleSurface(MainName(c.name), mainImage, "main", c.main.host, c.main.networking, owner),
      WorkerDeployment(c),
      (match c.workers.autoscaling
       case Some(a) => Some(HpaFields(WorkerName(c.name), c.workers.image.GetOr(c.image), a, owner))
       case None => None),
      (match c.webhooks
       case Some(wh) =>
         var image := wh.image.GetOr(c.image);
         Some(Webhook(WebhookDeployment(c, wh),
                      ServiceFields(WebhookName(c.name), image, "webhook", wh.serviceType, false, owner),
                      RoleSurface(WebhookName(c.name), image, "webhook", wh.host, wh.networking, owner)))
       case None => None),
      ClusterStatus(c))
  }

  lemma ClusterSurfaces(c: Cluster, generated: string)
    ensures var o := RenderCluster(c, generated);
            SurfaceOk(o.main) && (o.webhook.Some? ==> SurfaceOk(o.webhook.value.surface))
  {
    hide IngressFields, RouteFields, EncryptionSecretFields, Pvc, MainDeployment, WorkerDeployment, WebhookDeployment,
         ServiceFields, DestinationRuleFields, HpaFields, ClusterStatus;
  }

  // ----- Single -----

  function SingleDeployment(s: Single, revision: string): Fields {
    var key := KeySecret(s.encryptionKey, s.name);
    DeploymentFields(s.name, s.image, "workflow-engine", Some(s.replicas), SingleEnv(s, key),
                     (if s.database.Some? then DbVolumes(s.database.value) else [])
                     + (if s.persistence.Some? then ["n8n-data:" + s.name + "-data"] else []),
                     [], s.pod, s.strategy, Some((s.name, revision)), "Single/" + s.name)
  }

  function RenderSingle(s: Single, generated: string): SingleObjects {
    var owner := "Single/" + s.name;
    SingleObjects(
      if s.encryptionKey.Some? then None else Some(EncryptionSecretFields(s.name, s.image, generated, owner)),
      Pvc(s.name, s.image, "data", s.persistence, owner),
      (revision: string) => SingleDeployment(s, revision),
      ServiceFields(s.name, s.image, "workflow-engine", s.serviceType, false, owner),
      RoleSurface(s.name, s.image, "workflow-engine", s.host, s.networking, owner),
      map[Status("ready") := Truth(true), Status("replicas") := Number(s.replicas),
          Status("encryptionKeySecret") := Text(KeySecret(s.encryptionKey, s.name).name)]
      + (if s.host.Some? then map[Status("url") := Text("https://" + s.host.value)] else map[]))
  }

  lemma SingleSurface(s: Single, generated: string)
    ensures SurfaceOk(RenderSingle(s, generated).surface)
  {
    hide IngressFields, RouteFields, EncryptionSecretFields, Pvc, SingleDeployment, ServiceFields, KeySecret;
  }
}

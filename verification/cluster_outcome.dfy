/**
 What a Cluster pass leaves, told from the spec alone: every object of every role, the volumes, the key, the
 status.
 */
module ClusterOutcome {
  import opened Wrappers
  import opened Kube
  import opened Server
  import opened Resources
  import opened Rules
  import opened Env
  import opened OperatorEnv
  import opened EnvValues
  import opened EnvSettings
  import opened EnvDefaults
  import opened Validate
  import opened Builders
  import opened ClusterObjects
  import opened Plans
  import opened ClusterOrder
  import opened Convergence
  import opened RoleOutcome

  // ----- The roles in terms of the spec -----

  function ImageOf(own: Option<string>, c: Cluster): string {
    if own.Some? then own.value else c.image
  }

  /** The key reference of the spec, or the generated key's. */
  function KeyOf(given: Option<SecretKeyRef>, name: string): SecretKeyRef {
    if given.Some? then given.value else SecretKeyRef(name + "-encryption-key", "encryption_key")
  }

  /** The certificates of the database connection. */
  function TlsMounts(db: DatabaseSpec): seq<string> {
    var ssl := if db.postgres.Some? then db.postgres.value.ssl else if db.mysql.Some? then db.mysql.value.ssl else None;
    if ssl.None? then []
    else
      (if ssl.value.caSecret.Some? then ["n8n-db-ssl-ca:" + ssl.value.caSecret.value.name] else [])
      + (if ssl.value.certSecret.Some? then ["n8n-db-ssl-cert:" + ssl.value.certSecret.value.name] else [])
      + (if ssl.value.keySecret.Some? then ["n8n-db-ssl-key:" + ssl.value.keySecret.value.name] else [])
  }

  function SharedNodes(c: Cluster): Option<Storage> {
    if c.communityNodes.Some? then c.communityNodes.value.sharedStorage else None
  }

  function SharedData(c: Cluster): Option<Storage> {
    if c.binaryData.Some? && c.binaryData.value.mode == "filesystem" then c.binaryData.value.sharedStorage else None
  }

  /** What every role mounts. */
  function Mounts(c: Cluster): seq<string> {
    TlsMounts(c.database)
    + (if SharedNodes(c).Some? then ["n8n-nodes:" + c.name + "-nodes"] else [])
    + (if SharedData(c).Some? then ["n8n-binary-data:" + c.name + "-binary-data"] else [])
  }

  /** Main has its own volume besides. */
  function MainMounts(c: Cluster): seq<string> {
    Mounts(c) + if c.main.persistence.Some? then ["n8n-data:" + c.name + "-main-data"] else []
  }

  /** Main runs under its count, with its own volume and the instance-ai Secret, and sees what it should. */
  predicate MainRuns(t: Store, c: Cluster) {
    var role, k := c.name + "-main", Key(Deployment, c.ns, c.name + "-main");
    var env, user := EnvAt(t, k), c.extraEnv + c.main.extraEnv;
    && DeploymentOf(Declared(t, k), role, ImageOf(c.main.image, c), "main", Some(c.main.replicas), env, MainMounts(c),
                    [], c.main.pod, c.main.strategy, Some(c.name + "-instance-ai"), "Cluster/" + c.name)
    && BackendsSeen(env, c, KeyOf(c.encryptionKey, c.name))
    && SettingsSeen(env, user, c, c.main.host, c.main.networking)
    && MainFlagsSeen(env, user, c) && UserDecides(env, c.extraEnv, c.main.extraEnv)
  }

  /** Several mains share sessions through an Istio rule; a single one has none. */
  predicate RuleAs(t: Store, c: Cluster) {
    var role, k := c.name + "-main", Key(DestinationRule, c.ns, c.name + "-main");
    if c.main.replicas > 1 then
      && FieldIs(Declared(t, k), Spec("host"), Some(Text(role + "." + c.ns + ".svc.cluster.local")))
      && FieldIs(Declared(t, k), Spec("httpCookie"), Some(Text("n8n-route")))
      && MetaOf(Declared(t, k), role, ImageOf(c.main.image, c), "main", "Cluster/" + c.name)
    else k !in t.objects
  }

  predicate MainUp(t: Store, c: Cluster, cloud: Cloud) {
    var role, image, owner := c.name + "-main", ImageOf(c.main.image, c), "Cluster/" + c.name;
    && MainRuns(t, c) && ServiceAs(t, c.ns, role, image, "main", c.main.serviceType, c.main.replicas > 1, owner)
    && WayInAs(t, c.ns, role, image, "main", c.main.host, c.main.networking, owner, cloud.gateway)
    && (cloud.istio ==> RuleAs(t, c))
  }

  /** Workers run under their count, or under the autoscaler's when there is one, and then the count is not declared. */
  predicate WorkersRun(t: Store, c: Cluster) {
    var role, k := c.name + "-worker", Key(Deployment, c.ns, c.name + "-worker");
    var env, user := EnvAt(t, k), c.extraEnv + c.workers.extraEnv;
    && DeploymentOf(Declared(t, k), role, ImageOf(c.workers.image, c), "worker",
                    if c.workers.autoscaling.Some? then None else Some(c.workers.replicas), env, Mounts(c),
                    ["n8n", "worker"], c.workers.pod, c.workers.strategy, None, "Cluster/" + c.name)
    && BackendsSeen(env, c, KeyOf(c.encryptionKey, c.name)) && SettingsSeen(env, user, c, None, None)
    && WorkerFlagsSeen(env, c) && UserDecides(env, c.extraEnv, c.workers.extraEnv)
  }

  /** The autoscaler exists exactly if it is asked for, with the bounds asked for. */
  predicate ScalerAs(t: Store, c: Cluster) {
    var role, k := c.name + "-worker", Key(HorizontalPodAutoscaler, c.ns, c.name + "-worker");
    if c.workers.autoscaling.Some? then
      && ScalerOf(Declared(t, k), role, c.workers.autoscaling.value)
      && MetaOf(Declared(t, k), role, ImageOf(c.workers.image, c), "worker", "Cluster/" + c.name)
    else k !in t.objects
  }

  predicate WebhooksRun(t: Store, c: Cluster, wh: WebhookConfig) {
    var role, k := c.name + "-webhook", Key(Deployment, c.ns, c.name + "-webhook");
    var env, user := EnvAt(t, k), c.extraEnv + wh.extraEnv;
    && DeploymentOf(Declared(t, k), role, ImageOf(wh.image, c), "webhook", Some(wh.replicas), env, Mounts(c),
                    ["n8n", "webhook"], wh.pod, wh.strategy, None, "Cluster/" + c.name)
    && BackendsSeen(env, c, KeyOf(c.encryptionKey, c.name)) && SettingsSeen(env, user, c, wh.host, wh.networking)
    && NoMain(env) && UserDecides(env, c.extraEnv, wh.extraEnv)
  }

  /** The webhook role is up, or gone with everything it had. */
  predicate WebhooksUp(t: Store, c: Cluster, cloud: Cloud) {
    var role, owner := c.name + "-webhook", "Cluster/" + c.name;
    match c.webhooks
    case Some(wh) =>
      && WebhooksRun(t, c, wh)
      && ServiceAs(t, c.ns, role, ImageOf(wh.image, c), "webhook", wh.serviceType, false, owner)
      && WayInAs(t, c.ns, role, ImageOf(wh.image, c), "webhook", wh.host, wh.networking, owner, cloud.gateway)
    case None =>
      && Key(Deployment, c.ns, role) !in t.objects && Key(Service, c.ns, role) !in t.objects
      && WayInAs(t, c.ns, role, "", "", None, None, owner, cloud.gateway)
  }

  predicate VolumesUp(s: Store, t: Store, c: Cluster) {
    && ClaimedAs(s, t, Key(PersistentVolumeClaim, c.ns, c.name + "-nodes"), SharedNodes(c))
    && ClaimedAs(s, t, Key(PersistentVolumeClaim, c.ns, c.name + "-binary-data"), SharedData(c))
    && ClaimedAs(s, t, Key(PersistentVolumeClaim, c.ns, c.name + "-main-data"), c.main.persistence)
  }

  predicate Reported(t: Store, c: Cluster) {
    var f := Declared(t, Key(ClusterResource, c.ns, c.name));
    && FieldIs(f, Status("ready"), Some(Truth(true)))
    && FieldIs(f, Status("mainReplicas"), Some(Number(c.main.replicas)))
    && FieldIs(f, Status("workerReplicas"), Some(Number(c.workers.replicas)))
    && FieldIs(f, Status("webhookReplicas"), Some(Number(if c.webhooks.Some? then c.webhooks.value.replicas else 0)))
    && FieldIs(f, Status("encryptionKeySecret"), Some(Text(KeyOf(c.encryptionKey, c.name).name)))
  }

  // ----- What is rendered -----

  lemma RenderedMain(c: Cluster, g: string)
    ensures var o, owner, image := RenderCluster(c, g), "Cluster/" + c.name, c.main.image.GetOr(c.image);
            && (forall r :: o.mainDeployment(r) == MainDeployment(c, r))
            && o.mainService == ServiceFields(c.name + "-main", image, "main", c.main.serviceType, MultiMain(c), owner)
            && o.rule == (if MultiMain(c) then Some(DestinationRuleFields(c.name + "-main", image, c.ns, owner))
                          else None)
            && o.main == RoleSurface(c.name + "-main", image, "main", c.main.host, c.main.networking, owner)
  {
    hide IngressFields, RouteFields, EncryptionSecretFields, Pvc, MainDeployment, WorkerDeployment, WebhookDeployment,
         ServiceFields, DestinationRuleFields, HpaFields, ClusterStatus, RoleSurface;
  }

  lemma RenderedOthers(c: Cluster, g: string)
    ensures var o, owner := RenderCluster(c, g), "Cluster/" + c.name;
            && o.worker == WorkerDeployment(c) && o.status == ClusterStatus(c)
            && o.hpa == (match c.workers.autoscaling
                         case Some(a) => Some(HpaFields(c.name + "-worker", c.workers.image.GetOr(c.image), a, owner))
                         case None => None)
            && (c.webhooks.None? ==> o.webhook.None?)
            && (c.webhooks.Some? ==>
                  var wh, role := c.webhooks.value, c.name + "-webhook";
                  var image := wh.image.GetOr(c.image);
                  o.webhook == Some(Webhook(WebhookDeployment(c, wh),
                                            ServiceFields(role, image, "webhook", wh.serviceType, false, owner),
                                            RoleSurface(role, image, "webhook", wh.host, wh.networking, owner))))
  {
    hide IngressFields, RouteFields, EncryptionSecretFields, Pvc, MainDeployment, WorkerDeployment, WebhookDeployment,
         ServiceFields, DestinationRuleFields, HpaFields, ClusterStatus, RoleSurface;
  }

  lemma RenderedVolumes(c: Cluster, g: string)
    ensures var o, owner := RenderCluster(c, g), "Cluster/" + c.name;
            && o.nodes == Pvc(c.name, c.image, "nodes", SharedNodes(c), owner)
            && o.binary == Pvc(c.name, c.image, "nodes", SharedData(c), owner)
            && o.mainData == Pvc(c.name + "-main", c.main.image.GetOr(c.image), "data", c.main.persistence, owner)
            && o.encryption == (if c.encryptionKey.Some? then None
                                else Some(EncryptionSecretFields(c.name, c.image, g, owner)))
  {
    hide IngressFields, RouteFields, EncryptionSecretFields, Pvc, MainDeployment, WorkerDeployment, WebhookDeployment,
         ServiceFields, DestinationRuleFields, HpaFields, ClusterStatus, RoleSurface;
  }

  lemma MountsAre(c: Cluster)
    requires LegalServer(c.database)
    ensures BundleVolumes(c) == Mounts(c) && MainVolumes(c) == MainMounts(c)
  {
    KindsDiffer();
    assert DbVolumes(c.database) == TlsMounts(c.database);
    assert "n8n-nodes:" + NodesPvc(c.name) == "n8n-nodes:" + c.name + "-nodes";
    assert "n8n-data:" + MainPvc(c.name) == "n8n-data:" + c.name + "-main-data";
    assert "n8n-binary-data:" + BinaryPvc(c.name) == "n8n-binary-data:" + c.name + "-binary-data";
  }

  // ----- Role by role -----

  lemma MainMeets(t: Store, c: Cluster, g: string, cloud: Cloud, revision: string)
    requires LegalCluster(c)
    requires forall e | e in MainExpected(c.ns, c.name + "-main", RenderCluster(c, g), cloud, revision) :: Meets(t, e)
    ensures MainUp(t, c, cloud)
  {
    RenderedMain(c, g);
    hide RenderCluster, Meets, ServiceFields, RoleSurface, MainRuns, ServiceAs, IngressAs, RoutesAs, RuleAs,
         MainDeployment, LegalCluster, DestinationRuleFields;
    var role, image, owner := c.name + "-main", ImageOf(c.main.image, c), "Cluster/" + c.name;
    var es := MainExpected(c.ns, role, RenderCluster(c, g), cloud, revision);
    assert es[0] in es && es[1] in es && es[2] in es;
    MainRunning(t, c, revision);
    ServiceMeets(t, c.ns, role, image, "main", c.main.serviceType, c.main.replicas > 1, owner);
    IngressMeets(t, c.ns, role, image, "main", c.main.host, c.main.networking, owner);
    if cloud.gateway {
      assert es[3] in es && es[4] in es;
      RoutesMeet(t, c.ns, role, image, "main", c.main.host, c.main.networking, owner);
    }
    if cloud.istio {
      assert es[|es| - 1] in es;
      RuleMeets(t, c);
    }
  }

  lemma MainRunning(t: Store, c: Cluster, revision: string)
    requires LegalCluster(c)
             && Meets(t, Expectation(Key(Deployment, c.ns, c.name + "-main"), Some(MainDeployment(c, revision))))
    ensures MainRuns(t, c)
  {
    hide DeploymentFields, DeploymentOf, BackendsSeen, SettingsSeen, MainFlagsSeen, UserDecides, Meets, MainEnv, Mounts,
         MainMounts, MainVolumes, LegalServer, BundleVolumes, LegalEnvs, LegalStrategies, LegalBinaryData,
         LegalCommunity, LegalSmtp, EnvAt, Declared;
    var key := KeyOf(c.encryptionKey, c.name);
    MountsAre(c);
    DeploymentMeets(t, c.ns, c.name + "-main", ImageOf(c.main.image, c), "main", Some(c.main.replicas), MainEnv(c, key),
                    MainVolumes(c), [], c.main.pod, c.main.strategy, Some((c.name, revision)), "Cluster/" + c.name);
    ClusterBackends(c, key);
    MainSettings(c, key);
    ClusterUserDecides(c, key);
  }

  lemma RuleMeets(t: Store, c: Cluster)
    requires var role, image := c.name + "-main", c.main.image.GetOr(c.image);
             var rule := DestinationRuleFields(role, image, c.ns, "Cluster/" + c.name);
             Meets(t, Expectation(Key(DestinationRule, c.ns, role), if MultiMain(c) then Some(rule) else None))
    ensures RuleAs(t, c)
  {
    hide DestinationRuleFields, MetaOf;
    RuleIs(c.name + "-main", ImageOf(c.main.image, c), c.ns, "Cluster/" + c.name);
  }

  lemma WorkersMeet(t: Store, c: Cluster, g: string)
    requires LegalCluster(c)
    requires forall e | e in WorkerExpected(c.ns, c.name + "-worker", RenderCluster(c, g)) :: Meets(t, e)
    ensures WorkersRun(t, c) && ScalerAs(t, c)
  {
    RenderedOthers(c, g);
    hide RenderCluster, WorkersRun, WorkerDeployment, LegalCluster, HpaFields, MetaOf, ScalerOf;
    var es := WorkerExpected(c.ns, c.name + "-worker", RenderCluster(c, g));
    assert es[0] in es && es[1] in es;
    WorkersRunning(t, c);
    if c.workers.autoscaling.Some? {
      HpaIs(c.name + "-worker", ImageOf(c.workers.image, c), c.workers.autoscaling.value, "Cluster/" + c.name);
    }
  }

  lemma WorkersRunning(t: Store, c: Cluster)
    requires LegalCluster(c)
             && Meets(t, Expectation(Key(Deployment, c.ns, c.name + "-worker"), Some(WorkerDeployment(c))))
    ensures WorkersRun(t, c)
  {
    hide DeploymentFields, DeploymentOf, BackendsSeen, SettingsSeen, WorkerFlagsSeen, UserDecides, Meets, WorkerEnv,
         Mounts, LegalServer, BundleVolumes, LegalEnvs, LegalStrategies, LegalBinaryData, LegalCommunity, LegalSmtp,
         EnvAt, Declared;
    var key := KeyOf(c.encryptionKey, c.name);
    MountsAre(c);
    DeploymentMeets(t, c.ns, c.name + "-worker", ImageOf(c.workers.image, c), "worker",
                    if c.workers.autoscaling.Some? then None else Some(c.workers.replicas), WorkerEnv(c, key),
                    BundleVolumes(c), ["n8n", "worker"], c.workers.pod, c.workers.strategy, None, "Cluster/" + c.name);
    ClusterBackends(c, key);
    WorkerSettings(c, key);
    ClusterUserDecides(c, key);
  }

  lemma WebhooksMeet(t: Store, c: Cluster, g: string, cloud: Cloud)
    requires LegalCluster(c)
    requires forall e | e in WebhookExpected(c.ns, c.name + "-webhook", RenderCluster(c, g).webhook, cloud.gateway) ::
               Meets(t, e)
    ensures WebhooksUp(t, c, cloud)
  {
    RenderedOthers(c, g);
    hide RenderCluster, WebhooksRun, WebhookDeployment, LegalCluster, ServiceFields, RoleSurface, ServiceAs, Meets,
         WebhookExpected, WayInAs;
    if c.webhooks.Some? {
      WebhooksThere(t, c, c.webhooks.value, cloud);
    } else {
      WebhooksGone(t, c, cloud);
    }
  }

  lemma WebhooksThere(t: Store, c: Cluster, wh: WebhookConfig, cloud: Cloud)
    requires LegalCluster(c) && c.webhooks == Some(wh)
    requires var role, image, owner := c.name + "-webhook", wh.image.GetOr(c.image), "Cluster/" + c.name;
             var webhook := Webhook(WebhookDeployment(c, wh),
                                    ServiceFields(role, image, "webhook", wh.serviceType, false, owner),
                                    RoleSurface(role, image, "webhook", wh.host, wh.networking, owner));
             forall e | e in WebhookExpected(c.ns, role, Some(webhook), cloud.gateway) :: Meets(t, e)
    ensures WebhooksUp(t, c, cloud)
  {
    hide Meets, WebhooksRun, WebhookDeployment, LegalCluster, ServiceFields, RoleSurface, ServiceAs, IngressAs,
         RoutesAs;
    var role, image, owner := c.name + "-webhook", ImageOf(wh.image, c), "Cluster/" + c.name;
    var service := ServiceFields(role, image, "webhook", wh.serviceType, false, owner);
    var webhook := Webhook(WebhookDeployment(c, wh), service,
                           RoleSurface(role, image, "webhook", wh.host, wh.networking, owner));
    var es := WebhookExpected(c.ns, role, Some(webhook), cloud.gateway);
    assert es[0] in es && es[1] in es && es[2] in es;
    WebhooksRunning(t, c, wh);
    ServiceMeets(t, c.ns, role, image, "webhook", wh.serviceType, false, owner);
    IngressMeets(t, c.ns, role, image, "webhook", wh.host, wh.networking, owner);
    if cloud.gateway {
      assert es[3] in es && es[4] in es;
      RoutesMeet(t, c.ns, role, image, "webhook", wh.host, wh.networking, owner);
    }
  }

  lemma WebhooksGone(t: Store, c: Cluster, cloud: Cloud)
    requires c.webhooks.None?
    requires forall e | e in WebhookExpected(c.ns, c.name + "-webhook", None, cloud.gateway) :: Meets(t, e)
    ensures WebhooksUp(t, c, cloud)
  {
    hide Meets;
    var es := WebhookExpected(c.ns, c.name + "-webhook", None, cloud.gateway);
    assert es[0] in es && es[1] in es && es[2] in es;
    if cloud.gateway {
      assert es[3] in es && es[4] in es;
    }
    forall e | e in es && e.want.None? ensures e.key !in t.objects {
      AbsentMeets(t, e);
    }
  }

  lemma AbsentMeets(t: Store, e: Expectation)
    requires Meets(t, e) && e.want.None?
    ensures e.key !in t.objects
  {}

  lemma WebhooksRunning(t: Store, c: Cluster, wh: WebhookConfig)
    requires LegalCluster(c) && c.webhooks == Some(wh)
    requires Meets(t, Expectation(Key(Deployment, c.ns, c.name + "-webhook"), Some(WebhookDeployment(c, wh))))
    ensures WebhooksRun(t, c, wh)
  {
    hide DeploymentFields, DeploymentOf, BackendsSeen, SettingsSeen, NoMain, UserDecides, Meets, WebhookEnv, Mounts,
         LegalServer, BundleVolumes, LegalEnvs, LegalStrategies, LegalBinaryData, LegalCommunity, LegalSmtp, EnvAt,
         Declared;
    var key := KeyOf(c.encryptionKey, c.name);
    MountsAre(c);
    DeploymentMeets(t, c.ns, c.name + "-webhook", ImageOf(wh.image, c), "webhook", Some(wh.replicas),
                    WebhookEnv(c, wh, key), BundleVolumes(c), ["n8n", "webhook"], wh.pod, wh.strategy, None,
                    "Cluster/" + c.name);
    ClusterBackends(c, key);
    WebhookSettings(c, wh, key);
    ClusterUserDecides(c, key);
  }

  // ----- What a pass keeps away from -----

  /** Kinds whose API group is not served. */
  predicate Unserved(kind: Kind, cloud: Cloud) {
    (kind.HTTPRoute? && !cloud.gateway) || (kind.DestinationRule? && !cloud.istio)
  }

  /** Kinds that the roles never write. */
  predicate Outside(kind: Kind, cloud: Cloud) {
    && !kind.Deployment? && !kind.Service? && !kind.Ingress? && !kind.HorizontalPodAutoscaler?
    && (kind.HTTPRoute? ==> !cloud.gateway) && (kind.DestinationRule? ==> !cloud.istio)
  }

  /** No write of this kind. */
  predicate Avoids(ops: seq<Op>, kind: Kind) {
    forall op | op in ops :: !op.Purge? && op.key.kind != kind
  }

  lemma AvoidsThen(p: Plan, q: Plan, kind: Kind)
    requires Avoids(p.ops, kind) && Avoids(q.ops, kind)
    ensures Avoids(Then(p, q).ops, kind)
  {}

  lemma AvoidsOne(k: Key, want: Option<Fields>, kind: Kind)
    requires k.kind != kind
    ensures Avoids(One(k, want).ops, kind) && Avoids(Gone(k).ops, kind) && Avoids(Kept(k, want).ops, kind)
    ensures Avoids([], kind)
  {}

  lemma AvoidsNetworking(ns: string, role: string, s: Surface, cloud: Cloud, kind: Kind)
    requires Outside(kind, cloud)
    ensures Avoids(RoutePart(ns, role, s, cloud.gateway).ops, kind)
    ensures Avoids(NetworkingPart(ns, role, s, cloud.gateway).ops, kind)
  {
    assert Avoids(RoutePart(ns, role, s, cloud.gateway).ops, kind);
    hide Then, One, RoutePart, Avoids;
    var i := Key(Ingress, ns, role);
    AvoidsOne(i, s.ingress, kind);
    AvoidsThen(One(i, s.ingress), RoutePart(ns, role, s, cloud.gateway), kind);
  }

  lemma AvoidsShared(ns: string, name: string, o: Objects, kind: Kind)
    requires !kind.Secret? && !kind.PersistentVolumeClaim?
    ensures Avoids(SharedPart(ns, name, o).ops, kind)
  {}

  lemma AvoidsWorkload(ns: string, role: string, d: Fields, s: Fields, kind: Kind)
    requires !kind.Deployment? && !kind.Service?
    ensures Avoids(WorkloadPart(ns, role, d, s).ops, kind)
  {}

  lemma AvoidsMain(ns: string, name: string, o: Objects, cloud: Cloud, d: Fields, kind: Kind)
    requires Outside(kind, cloud)
    ensures Avoids(MainRest(ns, MainName(name), d, o.mainService, o.rule, o.main, cloud).ops, kind)
  {
    var role, rule := MainName(name), Key(DestinationRule, ns, MainName(name));
    var r := RulePart(rule, o.rule, cloud.istio);
    assert Avoids(r.ops, kind);
    hide Avoids, Then, WorkloadPart, NetworkingPart, RulePart, Outside;
    var w, n := WorkloadPart(ns, role, d, o.mainService), NetworkingPart(ns, role, o.main, cloud.gateway);
    OutsideWorkload(kind, cloud);
    AvoidsWorkload(ns, role, d, o.mainService, kind);
    AvoidsNetworking(ns, role, o.main, cloud, kind);
    AvoidsThen(r, n, kind);
    AvoidsThen(w, Then(r, n), kind);
  }

  lemma OutsideWorkload(kind: Kind, cloud: Cloud)
    requires Outside(kind, cloud)
    ensures !kind.Deployment? && !kind.Service? && !kind.Ingress? && !kind.HorizontalPodAutoscaler?
  {}

  lemma AvoidsOthers(ns: string, name: string, o: Objects, cloud: Cloud, kind: Kind)
    requires Outside(kind, cloud)
    ensures Avoids(WorkerPart(ns, name, o).ops, kind)
    ensures Avoids(WebhookPart(ns, name, o.webhook, cloud.gateway).ops, kind)
  {
    hide Avoids, Then, One, Gone, WorkloadPart, NetworkingPart, RoutePart;
    var d, h := Key(Deployment, ns, WorkerName(name)), Key(HorizontalPodAutoscaler, ns, WorkerName(name));
    AvoidsOne(d, Some(o.worker), kind);
    AvoidsOne(h, o.hpa, kind);
    AvoidsThen(One(d, Some(o.worker)), One(h, o.hpa), kind);
    var role := WebhookName(name);
    if o.webhook.Some? {
      var wh := o.webhook.value;
      AvoidsWorkload(ns, role, wh.deployment, wh.service, kind);
      AvoidsNetworking(ns, role, wh.surface, cloud, kind);
      AvoidsThen(WorkloadPart(ns, role, wh.deployment, wh.service), NetworkingPart(ns, role, wh.surface, cloud.gateway),
                 kind);
    } else {
      var x, y, z := Key(Deployment, ns, role), Key(Service, ns, role), Key(Ingress, ns, role);
      var n := RoutePart(ns, role, NO_SURFACE, cloud.gateway);
      AvoidsOne(x, None, kind);
      AvoidsOne(y, None, kind);
      AvoidsOne(z, None, kind);
      AvoidsNetworking(ns, role, NO_SURFACE, cloud, kind);
      AvoidsThen(Gone(x), Gone(y), kind);
      AvoidsThen(Gone(z), n, kind);
      AvoidsThen(Then(Gone(x), Gone(y)), Then(Gone(z), n), kind);
    }
  }

  /** Nothing of a kind that is not served is written. */
  lemma PassAvoids(ns: string, name: string, o: Objects, cloud: Cloud, revision: string, kind: Kind)
    requires Unserved(kind, cloud)
    ensures Avoids(ClusterPass(ns, name, o, cloud, revision).ops, kind)
  {
    var status, data := Key(ClusterResource, ns, name), Key(PersistentVolumeClaim, ns, MainPvc(name));
    hide Avoids, Then, One, Kept, SharedPart, MainRest, WorkerPart, WebhookPart;
    var rest := MainRest(ns, MainName(name), o.mainDeployment(revision), o.mainService, o.rule, o.main, cloud);
    var worker, webhook := WorkerPart(ns, name, o), WebhookPart(ns, name, o.webhook, cloud.gateway);
    var last := Then(RolesPart(ns, name, o, cloud, revision), One(status, Some(o.status)));
    AvoidsShared(ns, name, o, kind);
    AvoidsOne(data, o.mainData, kind);
    AvoidsMain(ns, name, o, cloud, o.mainDeployment(revision), kind);
    AvoidsOthers(ns, name, o, cloud, kind);
    AvoidsOne(status, Some(o.status), kind);
    AvoidsThen(Kept(data, o.mainData), rest, kind);
    AvoidsThen(worker, webhook, kind);
    AvoidsThen(MainPart(ns, name, o, cloud, revision), Then(worker, webhook), kind);
    AvoidsThen(RolesPart(ns, name, o, cloud, revision), One(status, Some(o.status)), kind);
    AvoidsThen(SharedPart(ns, name, o), last, kind);
  }

  // ----- Volumes, key and status -----

  lemma StatusShown(c: Cluster)
    ensures var f := ClusterStatus(c);
            && FieldIs(f, Status("ready"), Some(Truth(true)))
            && FieldIs(f, Status("mainReplicas"), Some(Number(c.main.replicas)))
            && FieldIs(f, Status("workerReplicas"), Some(Number(c.workers.replicas)))
            && FieldIs(f, Status("webhookReplicas"),
                       Some(Number(if c.webhooks.Some? then c.webhooks.value.replicas else 0)))
            && FieldIs(f, Status("encryptionKeySecret"), Some(Text(KeyOf(c.encryptionKey, c.name).name)))
  {
    assert |"ready"| == 5 && |"mainReplicas"| == 12 && |"workerReplicas"| == 14 && |"webhookReplicas"| == 15;
    assert |"encryptionKeySecret"| == 19;
  }

  lemma VolumeNames(name: string)
    ensures NodesPvc(name) == name + "-nodes" && BinaryPvc(name) == name + "-binary-data"
    ensures MainPvc(name) == name + "-main-data" && EncryptionSecret(name) == name + "-encryption-key"
    ensures |NodesPvc(name)| == |name| + 6 && |BinaryPvc(name)| == |name| + 12 && |MainPvc(name)| == |name| + 10
  {}

  lemma SharedWrites(ns: string, name: string, o: Objects)
    ensures var ops := SharedPart(ns, name, o).ops;
            var nodes := Key(PersistentVolumeClaim, ns, NodesPvc(name));
            var binary, key := Key(PersistentVolumeClaim, ns, BinaryPvc(name)), Key(Secret, ns, EncryptionSecret(name));
            && SharedPart(ns, name, o).ok
            && (o.nodes.Some? ==> Put(nodes, o.nodes.value) in ops)
            && (o.binary.Some? ==> Put(binary, o.binary.value) in ops)
            && (o.encryption.Some? ==> Create(key, o.encryption.value) in ops)
            && forall op | op in ops ::
                 (!op.Purge? && (op.key == nodes ==> o.nodes.Some?) && (op.key == binary ==> o.binary.Some?)
                  && (op.key == key ==> o.encryption.Some?) && op.key != Key(PersistentVolumeClaim, ns, MainPvc(name)))
  {
    VolumeNames(name);
  }

  lemma MainWrites(ns: string, name: string, o: Objects, cloud: Cloud, revision: string)
    ensures var ops, data := MainPart(ns, name, o, cloud, revision).ops, Key(PersistentVolumeClaim, ns, MainPvc(name));
            && (o.mainData.Some? ==> Put(data, o.mainData.value) in ops)
            && forall op | op in ops :: (!op.Purge? && !op.key.kind.Secret?
                                         && (op.key.kind.PersistentVolumeClaim? ==> op.key == data && o.mainData.Some?))
  {
    hide Avoids, MainRest;
    var d, data := o.mainDeployment(revision), Key(PersistentVolumeClaim, ns, MainPvc(name));
    AvoidsMain(ns, name, o, cloud, d, Secret);
    AvoidsMain(ns, name, o, cloud, d, PersistentVolumeClaim);
    AfterClaim(Kept(data, o.mainData), MainRest(ns, MainName(name), d, o.mainService, o.rule, o.main, cloud), data,
               o.mainData);
  }

  lemma AfterClaim(kept: Plan, rest: Plan, k: Key, want: Option<Fields>)
    requires kept == Kept(k, want) && k.kind.PersistentVolumeClaim?
    requires Avoids(rest.ops, Secret) && Avoids(rest.ops, PersistentVolumeClaim)
    ensures var ops := Then(kept, rest).ops;
            && (want.Some? ==> Put(k, want.value) in ops)
            && forall op | op in ops :: (!op.Purge? && !op.key.kind.Secret?
                                         && (op.key.kind.PersistentVolumeClaim? ==> op.key == k && want.Some?))
  {}

  lemma OtherWrites(ns: string, name: string, o: Objects, cloud: Cloud)
    ensures var worker, webhook := WorkerPart(ns, name, o).ops, WebhookPart(ns, name, o.webhook, cloud.gateway).ops;
            forall op | op in worker || op in webhook ::
              !op.Purge? && !op.key.kind.Secret? && !op.key.kind.PersistentVolumeClaim?
  {
    hide WorkerPart, WebhookPart;
    AvoidsOthers(ns, name, o, cloud, Secret);
    AvoidsOthers(ns, name, o, cloud, PersistentVolumeClaim);
  }

  /** The writes of a pass that succeeds, as far as they are about volumes and the key. */
  lemma PassWrites(ns: string, name: string, o: Objects, cloud: Cloud, revision: string)
    requires ClusterPass(ns, name, o, cloud, revision).ok
    ensures var ops := ClusterPass(ns, name, o, cloud, revision).ops;
            var nodes, binary := Key(PersistentVolumeClaim, ns, NodesPvc(name)),
                                 Key(PersistentVolumeClaim, ns, BinaryPvc(name));
            var data, key := Key(PersistentVolumeClaim, ns, MainPvc(name)), Key(Secret, ns, EncryptionSecret(name));
            && (if o.nodes.Some? then Put(nodes, o.nodes.value) in ops else Untouched(ops, nodes))
            && (if o.binary.Some? then Put(binary, o.binary.value) in ops else Untouched(ops, binary))
            && (if o.mainData.Some? then Put(data, o.mainData.value) in ops else Untouched(ops, data))
            && (if o.encryption.Some? then Create(key, o.encryption.value) in ops else Untouched(ops, key))
  {
    SharedWrites(ns, name, o);
    MainWrites(ns, name, o, cloud, revision);
    OtherWrites(ns, name, o, cloud);
    VolumeNames(name);
    hide SharedPart, MainPart, WorkerPart, WebhookPart, NodesPvc, BinaryPvc, MainPvc, EncryptionSecret;
    var ops := ClusterPass(ns, name, o, cloud, revision).ops;
    assert MainPart(ns, name, o, cloud, revision).ok;
    assert forall op | op in ops ::
        (op in SharedPart(ns, name, o).ops || op in MainPart(ns, name, o, cloud, revision).ops
         || op in WorkerPart(ns, name, o).ops || op in WebhookPart(ns, name, o.webhook, cloud.gateway).ops
         || op == Put(Key(ClusterResource, ns, name), o.status));
    assert forall op | op in SharedPart(ns, name, o).ops || op in MainPart(ns, name, o, cloud, revision).ops ::
           op in ops;
  }

  /** No write names the object. */
  predicate Untouched(ops: seq<Op>, k: Key) {
    forall op | op in ops :: !op.Purge? && op.key != k
  }

  // ----- The whole pass -----

  /** The objects of a Cluster. */
  predicate OfCluster(c: Cluster, k: Key) {
    var main, worker, webhook := c.name + "-main", c.name + "-worker", c.name + "-webhook";
    && k.ns == c.ns
    && match k.kind
       case Deployment => k.name == main || k.name == worker || k.name == webhook
       case Service => k.name == main || k.name == webhook
       case Ingress => k.name == main || k.name == webhook
       case HTTPRoute =>
         k.name == main || k.name == webhook || k.name == main + "-redirect" || k.name == webhook + "-redirect"
       case DestinationRule => k.name == main
       case HorizontalPodAutoscaler => k.name == worker
       case PersistentVolumeClaim =>
         k.name == c.name + "-nodes" || k.name == c.name + "-binary-data" || k.name == c.name + "-main-data"
       case Secret => k.name == c.name + "-encryption-key"
       case ClusterResource => k.name == c.name
       case _ => false
  }

  lemma OwnIsOf(c: Cluster, k: Key)
    requires Own(c.ns, c.name, k)
    ensures OfCluster(c, k)
  {
    VolumeNames(c.name);
    assert MainName(c.name) == c.name + "-main" && WorkerName(c.name) == c.name + "-worker"
        && WebhookName(c.name) == c.name + "-webhook";
  }

  /** From `s` to `t`, everything the spec asks for and nothing else, and nothing of a kind that is not served. */
  predicate ClusterUp(s: Store, t: Store, c: Cluster, generated: string, cloud: Cloud) {
    && MainUp(t, c, cloud) && WorkersRun(t, c) && ScalerAs(t, c) && WebhooksUp(t, c, cloud) && VolumesUp(s, t, c)
    && KeyAs(s, t, Key(Secret, c.ns, c.name + "-encryption-key"), c.encryptionKey, generated) && Reported(t, c)
    && forall k: Key | k in s.objects.Keys + t.objects.Keys && (!OfCluster(c, k) || Unserved(k.kind, cloud)) ::
         t.Find(k) == s.Find(k)
  }

  /**
   One failure-free pass over an acceptable spec, from any store: each role runs with the image, count, volumes and
   settings of its own fields, behind a Service and the Ingress or routes asked for; the autoscaler, the Istio rule and
   the webhook role exist exactly if asked for; volumes are claimed, the key is created once, the status is reported,
   and nothing else changes.
   */
  lemma ClusterOutcome(s: Store, c: Cluster, generated: string, cloud: Cloud)
    requires Acceptable(c, cloud.gateway)
    ensures ClusterUp(s, Run(s, CleanPass(s, c, generated, cloud).ops), c, generated, cloud)
  {
    hide Run, MainUp, WorkersRun, ScalerAs, WebhooksUp, Revision, ClusterPlan, ExpectedOf, LegalCluster,
         NetworkingAccepted, VolumesUp, KeyAs, Reported, OfCluster, Unserved;
    var revision := Revision(s, c.ns, c.name);
    var t := Run(s, CleanPass(s, c, generated, cloud).ops);
    ClusterConverges(s, c, generated, cloud);
    RolesMeet(t, c, cloud, revision);
    PassRest(s, c, generated, cloud, revision);
    forall k: Key | k in s.objects.Keys + t.objects.Keys && (!OfCluster(c, k) || Unserved(k.kind, cloud))
      ensures t.Find(k) == s.Find(k)
    {
      PassFrame(s, c, generated, cloud, revision, k);
    }
  }

  lemma RolesMeet(t: Store, c: Cluster, cloud: Cloud, revision: string)
    requires LegalCluster(c) && forall e | e in ExpectedOf(c, cloud, revision) :: Meets(t, e)
    ensures MainUp(t, c, cloud) && WorkersRun(t, c) && ScalerAs(t, c) && WebhooksUp(t, c, cloud)
  {
    hide Meets, RenderCluster, MainExpected, WorkerExpected, WebhookExpected, MainUp, WorkersRun, ScalerAs, WebhooksUp,
         LegalCluster;
    MainMeets(t, c, "", cloud, revision);
    WorkersMeet(t, c, "");
    WebhooksMeet(t, c, "", cloud);
  }

  lemma PassFrame(s: Store, c: Cluster, generated: string, cloud: Cloud, revision: string, k: Key)
    requires !OfCluster(c, k) || Unserved(k.kind, cloud)
    ensures Run(s, ClusterPlan(c, generated, cloud, revision).ops).Find(k) == s.Find(k)
  {
    hide OfCluster, Own, Run, ClusterPass, RenderCluster, ClusterError, Unserved;
    var o, ops := RenderCluster(c, generated), ClusterPlan(c, generated, cloud, revision).ops;
    NoOps(s);
    if Own(c.ns, c.name, k) {
      OwnIsOf(c, k);
      PassAvoids(c.ns, c.name, o, cloud, revision, k.kind);
      RunFrame(s, ops, k);
    } else {
      ClusterFrame(s, c.ns, c.name, o, cloud, revision, ops, k);
    }
  }

  lemma NoOps(s: Store)
    ensures Run(s, []) == s
  {}

  /** Volumes, key and status. */
  lemma PassRest(s: Store, c: Cluster, generated: string, cloud: Cloud, revision: string)
    requires Acceptable(c, cloud.gateway)
    ensures var t := Run(s, ClusterPlan(c, generated, cloud, revision).ops);
            && VolumesUp(s, t, c) && Reported(t, c)
            && KeyAs(s, t, Key(Secret, c.ns, c.name + "-encryption-key"), c.encryptionKey, generated)
  {
    PlanSucceeds(c, generated, cloud, revision);
    RenderedVolumes(c, generated);
    RenderedOthers(c, generated);
    hide Run, ClusterPass, RenderCluster, ClusterError, Acceptable, EncryptionSecretFields, ClaimedAs, KeyAs, PvcFields,
         ClusterStatus, Keyed, Distinct, ClaimOf, Meets, EncryptionSecret, NodesPvc, BinaryPvc, MainPvc;
    var o := RenderCluster(c, generated);
    var ops := ClusterPlan(c, generated, cloud, revision).ops;
    assert ops == ClusterPass(c.ns, c.name, o, cloud, revision).ops && ClusterPass(c.ns, c.name, o, cloud, revision).ok;
    ClusterDistinct(c.ns, c.name, o, cloud, revision);
    PassWrites(c.ns, c.name, o, cloud, revision);
    VolumeNames(c.name);
    ClaimsAre(c, "Cluster/" + c.name);
    ClaimStep(s, ops, Key(PersistentVolumeClaim, c.ns, c.name + "-nodes"), SharedNodes(c), o.nodes);
    ClaimStep(s, ops, Key(PersistentVolumeClaim, c.ns, c.name + "-binary-data"), SharedData(c), o.binary);
    ClaimStep(s, ops, Key(PersistentVolumeClaim, c.ns, c.name + "-main-data"), c.main.persistence, o.mainData);
    SecretIs(c.name, c.image, generated, "Cluster/" + c.name);
    KeyStep(s, ops, Key(Secret, c.ns, c.name + "-encryption-key"), c.encryptionKey, o.encryption, generated);
    StatusMeets(s, c, ops, o, cloud, revision);
  }

  /** The claims rendered for the volumes asked for. */
  lemma ClaimsAre(c: Cluster, owner: string)
    ensures SharedNodes(c).Some? ==>
            ClaimOf(PvcFields(c.name, c.image, "nodes", SharedNodes(c).value, owner), SharedNodes(c).value)
    ensures SharedData(c).Some? ==>
            ClaimOf(PvcFields(c.name, c.image, "nodes", SharedData(c).value, owner), SharedData(c).value)
    ensures c.main.persistence.Some? ==>
              ClaimOf(PvcFields(c.name + "-main", c.main.image.GetOr(c.image), "data", c.main.persistence.value, owner),
                      c.main.persistence.value)
  {
    hide PvcFields, ClaimOf, MetaOf;
    if SharedNodes(c).Some? {
      PvcIs(c.name, c.image, "nodes", SharedNodes(c).value, owner);
    }
    if SharedData(c).Some? {
      PvcIs(c.name, c.image, "nodes", SharedData(c).value, owner);
    }
    if c.main.persistence.Some? {
      PvcIs(c.name + "-main", c.main.image.GetOr(c.image), "data", c.main.persistence.value, owner);
    }
  }

  lemma StatusMeets(s: Store, c: Cluster, ops: seq<Op>, o: Objects, cloud: Cloud, revision: string)
    requires ops == ClusterPass(c.ns, c.name, o, cloud, revision).ops
             && ClusterPass(c.ns, c.name, o, cloud, revision).ok
    requires Keyed(ops) && Distinct(ops) && o.status == ClusterStatus(c)
    ensures Reported(Run(s, ops), c)
  {
    StatusShown(c);
    hide Run, ClusterPass, ClusterStatus, Keyed, Distinct, FieldIs;
    PassCovers(c.ns, c.name, o, cloud, revision);
    var e := Expectation(Key(ClusterResource, c.ns, c.name), Some(o.status));
    WriteMeets(s, ops, e);
    DeclaredIs(Run(s, ops), e);
  }

  /**
   So does a reconcile that reports success without a failing call, by what `ReconcileCluster` promises of its log.
   */
  lemma AttemptOutcome(base: Store, before: seq<Op>, after: seq<Op>, c: Cluster, generated: string, cloud: Cloud)
    requires Conforms(before, after, CleanPass(Run(base, before), c, generated, cloud), true, true)
    ensures ClusterUp(Run(base, before), Run(base, after), c, generated, cloud)
  {
    hide ClusterPlan, Acceptable, ClusterUp, Revision, Run, Thinned;
    var s := Run(base, before);
    PlanSucceeds(c, generated, cloud, Revision(s, c.ns, c.name));
    RunConcat(base, before, CleanPass(s, c, generated, cloud).ops);
    ClusterOutcome(s, c, generated, cloud);
  }
}

/** What one reconcile should write, part by part, for rendered objects. */
module Plans {
  import opened Wrappers
  import opened Kube
  import opened Server
  import opened Resources
  import opened Builders
  import opened Validate
  import opened ClusterObjects

  /** The API groups served during a pass. */
  datatype Cloud = Cloud(gateway: bool, istio: bool)

  /** Apply what is wanted, delete what is not. */
  function Sync(k: Key, want: Option<Fields>): Op {
    match want
    case Some(w) => Put(k, w)
    case None => Remove(k)
  }

  function One(k: Key, want: Option<Fields>): Plan {
    Plan([Sync(k, want)], true)
  }

  /** A removal that a pass may succeed without. */
  function Gone(k: Key): Plan {
    Plan([Discard(k)], true)
  }

  /** Applied when wanted; when not, removed as far as that goes. */
  function Loose(k: Key, want: Option<Fields>): Plan {
    if want.Some? then One(k, want) else Gone(k)
  }

  /** Applied when wanted, and otherwise left alone. */
  function Kept(k: Key, want: Option<Fields>): Plan {
    if want.Some? then One(k, want) else Plan([], true)
  }

  /** The generated key is created once, never overwritten. */
  function EncryptionPart(ns: string, name: string, want: Option<Fields>): Plan {
    match want
    case Some(w) => Plan([Create(Key(Secret, ns, EncryptionSecret(name)), w)], true)
    case None => Plan([], true)
  }

  function RoutePart(ns: string, name: string, s: Surface, gateway: bool): Plan {
    if gateway then
      Then(Loose(Key(HTTPRoute, ns, name), s.route), Loose(Key(HTTPRoute, ns, RedirectName(name)), s.redirect))
    else
      Plan([], s.route.None?)
  }

  function NetworkingPart(ns: string, name: string, s: Surface, gateway: bool): Plan {
    if s.conflict then Plan([], false)
    else Then(One(Key(Ingress, ns, name), s.ingress), RoutePart(ns, name, s, gateway))
  }

  function RulePart(k: Key, want: Option<Fields>, istio: bool): Plan {
    if istio then Loose(k, want) else Plan([], true)
  }

  /** A Deployment and its Service. */
  function WorkloadPart(ns: string, name: string, deployment: Fields, service: Fields): Plan {
    Then(One(Key(Deployment, ns, name), Some(deployment)), One(Key(Service, ns, name), Some(service)))
  }

  /** Nothing of a role is left, as far as its removal goes. */
  function RoleAbsent(ns: string, name: string, gateway: bool): Plan {
    Then(Then(Gone(Key(Deployment, ns, name)), Gone(Key(Service, ns, name))),
         Then(Gone(Key(Ingress, ns, name)), RoutePart(ns, name, NO_SURFACE, gateway)))
  }

  /** The main role's objects that follow its volume and the revision read. */
  function MainRest(ns: string, name: string, deployment: Fields, service: Fields, rule: Option<Fields>, s: Surface,
                    cloud: Cloud): Plan
  {
    Then(WorkloadPart(ns, name, deployment, service),
    Then(RulePart(Key(DestinationRule, ns, name), rule, cloud.istio),
         NetworkingPart(ns, name, s, cloud.gateway)))
  }

  function MainPart(ns: string, name: string, o: Objects, cloud: Cloud, revision: string): Plan {
    Then(Kept(Key(PersistentVolumeClaim, ns, MainPvc(name)), o.mainData),
         MainRest(ns, MainName(name), o.mainDeployment(revision), o.mainService, o.rule, o.main, cloud))
  }

  function WorkerPart(ns: string, name: string, o: Objects): Plan {
    Then(One(Key(Deployment, ns, WorkerName(name)), Some(o.worker)),
         One(Key(HorizontalPodAutoscaler, ns, WorkerName(name)), o.hpa))
  }

  function WebhookPart(ns: string, name: string, webhook: Option<Webhook>, gateway: bool): Plan {
    match webhook
    case Some(wh) => Then(WorkloadPart(ns, WebhookName(name), wh.deployment, wh.service),
                          NetworkingPart(ns, WebhookName(name), wh.surface, gateway))
    case None => RoleAbsent(ns, WebhookName(name), gateway)
  }

  /** The generated key and the volumes all roles share. */
  function SharedPart(ns: string, name: string, o: Objects): Plan {
    Then(EncryptionPart(ns, name, o.encryption),
    Then(Kept(Key(PersistentVolumeClaim, ns, NodesPvc(name)), o.nodes),
         Kept(Key(PersistentVolumeClaim, ns, BinaryPvc(name)), o.binary)))
  }

  function RolesPart(ns: string, name: string, o: Objects, cloud: Cloud, revision: string): Plan {
    Then(MainPart(ns, name, o, cloud, revision),
    Then(WorkerPart(ns, name, o),
         WebhookPart(ns, name, o.webhook, cloud.gateway)))
  }

  /** The whole pass; the status comes last. */
  function ClusterPass(ns: string, name: string, o: Objects, cloud: Cloud, revision: string): Plan {
    Then(SharedPart(ns, name, o),
    Then(RolesPart(ns, name, o, cloud, revision),
         One(Key(ClusterResource, ns, name), Some(o.status))))
  }

  function ChildrenPart(ns: string, name: string, o: SingleObjects, gateway: bool, revision: string): Plan {
    Then(Kept(Key(PersistentVolumeClaim, ns, name + "-data"), o.data),
    Then(WorkloadPart(ns, name, o.deployment(revision), o.service),
         NetworkingPart(ns, name, o.surface, gateway)))
  }

  function SinglePass(ns: string, name: string, o: SingleObjects, gateway: bool, revision: string): Plan {
    Then(EncryptionPart(ns, name, o.encryption),
    Then(ChildrenPart(ns, name, o, gateway, revision),
         One(Key(SingleResource, ns, name), Some(o.status))))
  }

  // ----- From spec to plan -----

  /** `generated` is the key a pass draws in case it has to create the encryption Secret. */
  function ClusterPlan(c: Cluster, generated: string, cloud: Cloud, revision: string): Plan {
    if ClusterError(c).Some? then Plan([], false)
    else ClusterPass(c.ns, c.name, RenderCluster(c, generated), cloud, revision)
  }

  function SinglePlan(s: Single, generated: string, gateway: bool, revision: string): Plan {
    if SingleError(s).Some? then Plan([], false)
    else SinglePass(s.ns, s.name, RenderSingle(s, generated), gateway, revision)
  }

  /** The instance-ai Secret's revision, as stamped on the pods. */
  function Revision(s: Store, ns: string, name: string): string {
    match s.Find(Key(Secret, ns, InstanceAiSecret(name)))
    case Some(o) => NatText(o.version)
    case None => "none"
  }
}

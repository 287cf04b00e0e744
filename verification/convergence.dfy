/**
 What a Cluster pass achieves: from any store, one failure-free pass makes the managed objects those of the
 spec, a second pass changes nothing, and volumes are never removed.
 */
module Convergence {
  import opened Wrappers
  import opened Kube
  import opened Server
  import opened Resources
  import opened Rules
  import opened Validate
  import opened Builders
  import opened ClusterObjects
  import opened Plans
  import opened ClusterOrder

  // ----- What the spec asks for, object by object -----

  /** An object and what it should be; `None` for absent. */
  datatype Expectation = Expectation(key: Key, want: Option<Fields>)

  /** The live object is absent, or declares exactly the wanted fields under this manager. */
  predicate Meets(s: Store, e: Expectation) {
    match e.want
    case None => e.key !in s.objects
    case Some(w) => e.key in s.objects && s.objects[e.key].Owned() == w
  }

  function Absent(k: Key): Expectation {
    Expectation(k, None)
  }

  function Routes(ns: string, role: string, s: Surface): seq<Expectation> {
    [ Expectation(Key(HTTPRoute, ns, role), s.route), Expectation(Key(HTTPRoute, ns, role + "-redirect"), s.redirect) ]
  }

  function MainExpected(ns: string, role: string, o: Objects, cloud: Cloud, revision: string): seq<Expectation> {
    [ Expectation(Key(Deployment, ns, role), Some(o.mainDeployment(revision))),
      Expectation(Key(Service, ns, role), Some(o.mainService)),
      Expectation(Key(Ingress, ns, role), o.main.ingress) ]
    + (if cloud.gateway then Routes(ns, role, o.main) else [])
    + (if cloud.istio then [Expectation(Key(DestinationRule, ns, role), o.rule)] else [])
  }

  function WorkerExpected(ns: string, role: string, o: Objects): seq<Expectation> {
    [ Expectation(Key(Deployment, ns, role), Some(o.worker)),
      Expectation(Key(HorizontalPodAutoscaler, ns, role), o.hpa) ]
  }

  function WebhookExpected(ns: string, role: string, webhook: Option<Webhook>, gateway: bool): seq<Expectation> {
    match webhook
    case Some(wh) =>
      [ Expectation(Key(Deployment, ns, role), Some(wh.deployment)),
        Expectation(Key(Service, ns, role), Some(wh.service)),
        Expectation(Key(Ingress, ns, role), wh.surface.ingress) ]
      + if gateway then Routes(ns, role, wh.surface) else []
    case None =>
      [ Absent(Key(Deployment, ns, role)), Absent(Key(Service, ns, role)), Absent(Key(Ingress, ns, role)) ]
      + if gateway then [Absent(Key(HTTPRoute, ns, role)), Absent(Key(HTTPRoute, ns, role + "-redirect"))] else []
  }

  /** The managed objects of a Cluster under the served API groups. */
  function Expected(ns: string, name: string, o: Objects, cloud: Cloud, revision: string): seq<Expectation> {
    MainExpected(ns, name + "-main", o, cloud, revision) + WorkerExpected(ns, name + "-worker", o)
    + WebhookExpected(ns, name + "-webhook", o.webhook, cloud.gateway)
  }

  /** The write that brings an expectation about is there. */
  predicate Served(ops: seq<Op>, e: Expectation) {
    match e.want
    case Some(w) => Put(e.key, w) in ops
    case None => Remove(e.key) in ops || Discard(e.key) in ops
  }

  /** Every expectation has its write in the pass. */
  predicate Covered(p: Plan, es: seq<Expectation>) {
    forall e | e in es :: Served(p.ops, e)
  }

  lemma CoveredThen(p: Plan, q: Plan, a: seq<Expectation>, b: seq<Expectation>)
    requires p.ok && Covered(p, a) && Covered(q, b)
    ensures Covered(Then(p, q), a + b)
  {}

  lemma NetworkingCovers(ns: string, role: string, s: Surface, gateway: bool)
    requires NetworkingPart(ns, role, s, gateway).ok
    ensures Covered(NetworkingPart(ns, role, s, gateway),
                    [Expectation(Key(Ingress, ns, role), s.ingress)] + if gateway then Routes(ns, role, s) else [])
  {}

  lemma WorkloadCovers(ns: string, role: string, d: Fields, s: Fields)
    ensures WorkloadPart(ns, role, d, s).ok
    ensures Covered(WorkloadPart(ns, role, d, s),
                    [ Expectation(Key(Deployment, ns, role), Some(d)), Expectation(Key(Service, ns, role), Some(s)) ])
  {}

  lemma RuleCovers(k: Key, want: Option<Fields>, istio: bool)
    ensures RulePart(k, want, istio).ok
    ensures Covered(RulePart(k, want, istio), if istio then [Expectation(k, want)] else [])
  {}

  lemma VolumeCovers(k: Key, want: Option<Fields>)
    ensures Kept(k, want).ok && Covered(Kept(k, want), [])
  {}

  lemma MainCovers(ns: string, name: string, o: Objects, cloud: Cloud, revision: string)
    requires MainPart(ns, name, o, cloud, revision).ok
    ensures Covered(MainPart(ns, name, o, cloud, revision), MainExpected(ns, name + "-main", o, cloud, revision))
  {
    hide NetworkingPart, WorkloadPart, RulePart, Kept, Routes, Served;
    var main := MainName(name);
    var rule, volume := Key(DestinationRule, ns, main), Key(PersistentVolumeClaim, ns, MainPvc(name));
    var n := NetworkingPart(ns, main, o.main, cloud.gateway);
    WorkloadCovers(ns, main, o.mainDeployment(revision), o.mainService);
    RuleCovers(rule, o.rule, cloud.istio);
    VolumeCovers(volume, o.mainData);
    assert n.ok;
    NetworkingCovers(ns, main, o.main, cloud.gateway);
    var first := [ Expectation(Key(Deployment, ns, main), Some(o.mainDeployment(revision))),
                   Expectation(Key(Service, ns, main), Some(o.mainService)) ];
    var ingress := [Expectation(Key(Ingress, ns, main), o.main.ingress)];
    var middle := ingress + if cloud.gateway then Routes(ns, main, o.main) else [];
    var last := if cloud.istio then [Expectation(rule, o.rule)] else [];
    CoveredThen(RulePart(rule, o.rule, cloud.istio), n, last, middle);
    var work := WorkloadPart(ns, main, o.mainDeployment(revision), o.mainService);
    CoveredThen(work, Then(RulePart(rule, o.rule, cloud.istio), n), first, last + middle);
    CoveredThen(Kept(volume, o.mainData), Then(work, Then(RulePart(rule, o.rule, cloud.istio), n)), [],
                first + (last + middle));
    assert MainExpected(ns, main, o, cloud, revision) == first + middle + last by {
      assert first + ingress == MainExpected(ns, main, o, cloud, revision)[..3];
    }
    CoveredAnyhow(MainPart(ns, name, o, cloud, revision), first, middle, last);
  }

  /** The order of expectations does not matter. */
  lemma CoveredAnyhow(p: Plan, a: seq<Expectation>, b: seq<Expectation>, c: seq<Expectation>)
    requires Covered(p, [] + (a + (c + b)))
    ensures Covered(p, a + b + c)
  {
    forall e | e in a + b + c ensures Served(p.ops, e) {
      assert e in a || e in b || e in c;
      assert e in [] + (a + (c + b));
    }
  }

  lemma WorkerCovers(ns: string, name: string, o: Objects)
    ensures Covered(WorkerPart(ns, name, o), WorkerExpected(ns, name + "-worker", o))
  {}

  lemma WebhookCovers(ns: string, name: string, webhook: Option<Webhook>, gateway: bool)
    requires WebhookPart(ns, name, webhook, gateway).ok
    ensures Covered(WebhookPart(ns, name, webhook, gateway), WebhookExpected(ns, name + "-webhook", webhook, gateway))
  {
    if webhook.Some? {
      NetworkingCovers(ns, WebhookName(name), webhook.value.surface, gateway);
    }
  }

  lemma RolesCover(ns: string, name: string, o: Objects, cloud: Cloud, revision: string)
    requires RolesPart(ns, name, o, cloud, revision).ok
    ensures Covered(RolesPart(ns, name, o, cloud, revision), Expected(ns, name, o, cloud, revision))
  {
    hide MainPart, WorkerPart, WebhookPart, MainExpected, WorkerExpected, WebhookExpected, Covered;
    var main, worker := MainPart(ns, name, o, cloud, revision), WorkerPart(ns, name, o);
    var webhook := WebhookPart(ns, name, o.webhook, cloud.gateway);
    var m, w := MainExpected(ns, name + "-main", o, cloud, revision), WorkerExpected(ns, name + "-worker", o);
    var h := WebhookExpected(ns, name + "-webhook", o.webhook, cloud.gateway);
    assert worker.ok by { WorkerSucceeds(ns, name, o); }
    assert main.ok && webhook.ok;
    MainCovers(ns, name, o, cloud, revision);
    WorkerCovers(ns, name, o);
    WebhookCovers(ns, name, o.webhook, cloud.gateway);
    CoveredThen(worker, webhook, w, h);
    CoveredThen(main, Then(worker, webhook), m, w + h);
    assert m + (w + h) == Expected(ns, name, o, cloud, revision);
  }

  lemma WorkerSucceeds(ns: string, name: string, o: Objects)
    ensures WorkerPart(ns, name, o).ok
  {}

  lemma PassCovers(ns: string, name: string, o: Objects, cloud: Cloud, revision: string)
    requires ClusterPass(ns, name, o, cloud, revision).ok
    ensures Covered(ClusterPass(ns, name, o, cloud, revision), Expected(ns, name, o, cloud, revision))
    ensures Put(Key(ClusterResource, ns, name), o.status) in ClusterPass(ns, name, o, cloud, revision).ops
  {
    hide SharedPart, RolesPart, Expected;
    RolesCover(ns, name, o, cloud, revision);
  }

  // ----- When a pass succeeds -----

  predicate Routed(net: Option<NetworkingSpec>) {
    net.Some? && net.value.httpRoute.Some?
  }

  predicate NetworkingAccepted(net: Option<NetworkingSpec>, gateway: bool) {
    OneWayIn(net) && (Routed(net) ==> gateway)
  }

  /**
   A spec that a failure-free pass can carry out: valid, no role with both kinds of networking, routes only if
   served.
   */
  predicate Acceptable(c: Cluster, gateway: bool) {
    && LegalCluster(c)
    && NetworkingAccepted(c.main.networking, gateway)
    && (c.webhooks.Some? ==> NetworkingAccepted(c.webhooks.value.networking, gateway))
  }

  predicate SurfaceAccepted(s: Surface, gateway: bool) {
    !s.conflict && (s.route.Some? ==> gateway)
  }

  lemma PassSucceeds(ns: string, name: string, o: Objects, cloud: Cloud, revision: string)
    ensures ClusterPass(ns, name, o, cloud, revision).ok
       <==> (SurfaceAccepted(o.main, cloud.gateway)
             && (o.webhook.Some? ==> SurfaceAccepted(o.webhook.value.surface, cloud.gateway)))
  {
    assert SharedPart(ns, name, o).ok;
    assert MainPart(ns, name, o, cloud, revision).ok <==> SurfaceAccepted(o.main, cloud.gateway);
    assert WebhookPart(ns, name, o.webhook, cloud.gateway).ok
      <==> (o.webhook.Some? ==> SurfaceAccepted(o.webhook.value.surface, cloud.gateway));
  }

  lemma SurfacesOfSpec(c: Cluster, generated: string, gateway: bool)
    ensures var o := RenderCluster(c, generated);
            && (SurfaceAccepted(o.main, gateway) <==> NetworkingAccepted(c.main.networking, gateway))
            && (o.webhook.Some? <==> c.webhooks.Some?)
            && (c.webhooks.Some? ==>
                  (SurfaceAccepted(o.webhook.value.surface, gateway)
                   <==> NetworkingAccepted(c.webhooks.value.networking, gateway)))
  {
    hide IngressFields, RouteFields, EncryptionSecretFields, Pvc, MainDeployment, WorkerDeployment, WebhookDeployment,
         ServiceFields, DestinationRuleFields, HpaFields, ClusterStatus;
  }

  lemma PlanSucceeds(c: Cluster, generated: string, cloud: Cloud, revision: string)
    ensures ClusterPlan(c, generated, cloud, revision).ok <==> Acceptable(c, cloud.gateway)
  {
    hide ClusterPass, RenderCluster, SurfaceAccepted, ClusterError;
    ClusterErrorNames(c);
    SurfacesOfSpec(c, generated, cloud.gateway);
    PassSucceeds(c.ns, c.name, RenderCluster(c, generated), cloud, revision);
  }

  // ----- Convergence -----

  function ExpectedOf(c: Cluster, cloud: Cloud, revision: string): seq<Expectation> {
    Expected(c.ns, c.name, RenderCluster(c, ""), cloud, revision)
  }

  /** The whole failure-free pass, from what the store says. */
  function CleanPass(s: Store, c: Cluster, generated: string, cloud: Cloud): Plan {
    ClusterPlan(c, generated, cloud, Revision(s, c.ns, c.name))
  }

  /** The generated key shows up nowhere but in the encryption Secret's creation. */
  lemma OnlyKeyDiffers(c: Cluster, g1: string, g2: string)
    ensures RenderCluster(c, g1) == RenderCluster(c, g2).(encryption := RenderCluster(c, g1).encryption)
    ensures RenderCluster(c, g1).encryption.Some? <==> RenderCluster(c, g2).encryption.Some?
  {
    hide IngressFields, RouteFields, EncryptionSecretFields, Pvc, MainDeployment, WorkerDeployment, WebhookDeployment,
         ServiceFields, DestinationRuleFields, HpaFields, ClusterStatus, RoleSurface;
  }

  /** From any store at all, one failure-free pass leaves every managed object as the spec asks. */
  lemma ClusterConverges(s: Store, c: Cluster, generated: string, cloud: Cloud)
    requires Acceptable(c, cloud.gateway)
    ensures forall e | e in ExpectedOf(c, cloud, Revision(s, c.ns, c.name)) ::
            Meets(Run(s, CleanPass(s, c, generated, cloud).ops), e)
  {
    var o, revision := RenderCluster(c, generated), Revision(s, c.ns, c.name);
    PlanSucceeds(c, generated, cloud, revision);
    var plan := ClusterPass(c.ns, c.name, o, cloud, revision);
    assert plan == CleanPass(s, c, generated, cloud) && plan.ok by { hide ClusterPass, RenderCluster, ClusterError; }
    hide ClusterPass, RenderCluster, ClusterError, Revision, Run;
    ClusterDistinct(c.ns, c.name, o, cloud, revision);
    PassCovers(c.ns, c.name, o, cloud, revision);
    OnlyKeyDiffers(c, generated, "");
    assert Expected(c.ns, c.name, o, cloud, revision) == ExpectedOf(c, cloud, revision);
    hide Expected, ExpectedOf;
    forall e | e in ExpectedOf(c, cloud, revision) ensures Meets(Run(s, plan.ops), e) {
      WriteMeets(s, plan.ops, e);
    }
  }

  lemma WriteMeets(s: Store, ops: seq<Op>, e: Expectation)
    requires Keyed(ops) && Distinct(ops) && Served(ops, e)
    ensures Meets(Run(s, ops), e)
  {
    hide Run;
    var op := if e.want.Some? then Put(e.key, e.want.value)
              else if Remove(e.key) in ops then Remove(e.key) else Discard(e.key);
    var i :| 0 <= i < |ops| && ops[i] == op;
    RunSettles(s, ops, i);
    if e.want.Some? {
      assert Run(s, ops).objects[e.key].Owned() == e.want.value;
    }
  }

  lemma SettledMeets(s: Store, e: Expectation)
    requires Settled(s, Sync(e.key, e.want))
    ensures Meets(s, e)
  {
    if e.want.Some? {
      assert s.objects[e.key].Owned() == e.want.value;
    }
  }
}

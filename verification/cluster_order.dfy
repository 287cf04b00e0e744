/**
 The order of writes of a Cluster pass: no object is written twice, and nothing outside the pass's own names is
 touched.
 */
module ClusterOrder {
  import opened Wrappers
  import opened Kube
  import opened Server
  import opened Resources
  import opened Validate
  import opened Builders
  import opened ClusterObjects
  import opened Plans

  // ----- Every object of a pass has its own place in the order of writes -----

  /** The place of an object in a Cluster pass, by kind and by the length of its name suffix; 18 for all others. */
  function Rank(name: string, k: Key): nat {
    var suffix := |k.name| - |name|;
    match k.kind
    case Secret => if suffix == 15 then 0 else 18
    case PersistentVolumeClaim => if suffix == 6 then 1 else if suffix == 12 then 2 else if suffix == 10 then 3 else 18
    case Deployment => if suffix == 5 then 4 else if suffix == 7 then 10 else if suffix == 8 then 12 else 18
    case Service => if suffix == 5 then 5 else if suffix == 8 then 13 else 18
    case DestinationRule => if suffix == 5 then 6 else 18
    case Ingress => if suffix == 5 then 7 else if suffix == 8 then 14 else 18
    case HTTPRoute =>
      if suffix == 5 then 8 else if suffix == 14 then 9 else if suffix == 8 then 15 else if suffix == 17 then 16 else 18
    case HorizontalPodAutoscaler => if suffix == 7 then 11 else 18
    case ClusterResource => if suffix == 0 then 17 else 18
    case _ => 18
  }

  /** The object at each place. */
  function KeyAt(ns: string, name: string, place: nat): Key
    requires place < 18
  {
    var main, worker, webhook := MainName(name), WorkerName(name), WebhookName(name);
    match place
    case 0 => Key(Secret, ns, EncryptionSecret(name))
    case 1 => Key(PersistentVolumeClaim, ns, NodesPvc(name))
    case 2 => Key(PersistentVolumeClaim, ns, BinaryPvc(name))
    case 3 => Key(PersistentVolumeClaim, ns, MainPvc(name))
    case 4 => Key(Deployment, ns, main)
    case 5 => Key(Service, ns, main)
    case 6 => Key(DestinationRule, ns, main)
    case 7 => Key(Ingress, ns, main)
    case 8 => Key(HTTPRoute, ns, main)
    case 9 => Key(HTTPRoute, ns, RedirectName(main))
    case 10 => Key(Deployment, ns, worker)
    case 11 => Key(HorizontalPodAutoscaler, ns, worker)
    case 12 => Key(Deployment, ns, webhook)
    case 13 => Key(Service, ns, webhook)
    case 14 => Key(Ingress, ns, webhook)
    case 15 => Key(HTTPRoute, ns, webhook)
    case 16 => Key(HTTPRoute, ns, RedirectName(webhook))
    case _ => Key(ClusterResource, ns, name)
  }

  /** The object is one that some pass of this Cluster may write. */
  predicate Own(ns: string, name: string, k: Key) {
    var place := Rank(name, k);
    place < 18 && k == KeyAt(ns, name, place)
  }

  /** Volumes are only ever applied, Secrets only ever created, and the status only ever applied. */
  predicate Mild(op: Op) {
    && !op.Purge?
    && (op.key.kind.PersistentVolumeClaim? || op.key.kind.ClusterResource? ==> op.Put?)
    && (op.key.kind.Secret? ==> op.Create?)
  }

  predicate Slotted(ns: string, name: string, op: Op, lo: nat, hi: nat) {
    Mild(op) && Own(ns, name, op.key) && lo <= Rank(name, op.key) < hi
  }

  predicate Ascending(ns: string, name: string, ops: seq<Op>, lo: nat, hi: nat) {
    && (forall op | op in ops :: Slotted(ns, name, op, lo, hi))
    && (forall i, j | 0 <= i < j < |ops| :: Slotted(ns, name, ops[i], lo, hi) && Slotted(ns, name, ops[j], lo, hi)
                                            && Rank(name, ops[i].key) < Rank(name, ops[j].key))
  }

  lemma AscendingThen(ns: string, name: string, p: Plan, q: Plan, lo: nat, mid: nat, hi: nat)
    requires lo <= mid <= hi && Ascending(ns, name, p.ops, lo, mid) && Ascending(ns, name, q.ops, mid, hi)
    ensures Ascending(ns, name, Then(p, q).ops, lo, hi)
  {
    hide Rank, Own;
    var ops := Then(p, q).ops;
    forall op | op in ops ensures Slotted(ns, name, op, lo, hi) {
      assert op in p.ops || op in q.ops;
    }
    forall i, j | 0 <= i < j < |ops|
      ensures Slotted(ns, name, ops[i], lo, hi) && Slotted(ns, name, ops[j], lo, hi)
      ensures Rank(name, ops[i].key) < Rank(name, ops[j].key)
    {
      assert ops[i] in ops && ops[j] in ops;
      if j < |p.ops| {
      } else if i >= |p.ops| {
        assert ops[i] == q.ops[i - |p.ops|] && ops[j] == q.ops[j - |p.ops|];
      } else {
        assert ops[i] in p.ops && ops[j] in q.ops;
      }
    }
  }

  lemma AscendingOne(ns: string, name: string, k: Key, want: Option<Fields>, lo: nat, hi: nat)
    requires Own(ns, name, k) && lo <= Rank(name, k) < hi
    requires k.kind.PersistentVolumeClaim? || k.kind.ClusterResource? ==> want.Some?
    requires !k.kind.Secret?
    ensures Ascending(ns, name, One(k, want).ops, lo, hi)
    ensures Ascending(ns, name, Loose(k, want).ops, lo, hi)
    ensures want.None? ==> Ascending(ns, name, Gone(k).ops, lo, hi)
  {}

  lemma NetworkingAscends(ns: string, name: string, role: string, s: Surface, gateway: bool, lo: nat)
    requires Own(ns, name, Key(Ingress, ns, role)) && Own(ns, name, Key(HTTPRoute, ns, role))
    requires Own(ns, name, Key(HTTPRoute, ns, RedirectName(role)))
    requires Rank(name, Key(Ingress, ns, role)) == lo && Rank(name, Key(HTTPRoute, ns, role)) == lo + 1
    requires Rank(name, Key(HTTPRoute, ns, RedirectName(role))) == lo + 2
    ensures Ascending(ns, name, RoutePart(ns, role, s, gateway).ops, lo + 1, lo + 3)
    ensures Ascending(ns, name, NetworkingPart(ns, role, s, gateway).ops, lo, lo + 3)
  {
    hide Rank, Own, Ascending, Then, One, Loose;
    var i, r, t := Key(Ingress, ns, role), Key(HTTPRoute, ns, role), Key(HTTPRoute, ns, RedirectName(role));
    AscendingNothing(ns, name, lo, lo + 3);
    AscendingNothing(ns, name, lo + 1, lo + 3);
    AscendingOne(ns, name, i, s.ingress, lo, lo + 1);
    AscendingOne(ns, name, r, s.route, lo + 1, lo + 2);
    AscendingOne(ns, name, t, s.redirect, lo + 2, lo + 3);
    AscendingThen(ns, name, Loose(r, s.route), Loose(t, s.redirect), lo + 1, lo + 2, lo + 3);
    AscendingThen(ns, name, One(i, s.ingress), RoutePart(ns, role, s, gateway), lo, lo + 1, lo + 3);
  }

  lemma AscendingNothing(ns: string, name: string, lo: nat, hi: nat)
    ensures Ascending(ns, name, [], lo, hi)
  {}

  lemma WorkloadAscends(ns: string, name: string, role: string, d: Option<Fields>, s: Option<Fields>, lo: nat)
    requires Own(ns, name, Key(Deployment, ns, role)) && Own(ns, name, Key(Service, ns, role))
    requires Rank(name, Key(Deployment, ns, role)) == lo && Rank(name, Key(Service, ns, role)) == lo + 1
    ensures Ascending(ns, name, Then(One(Key(Deployment, ns, role), d), One(Key(Service, ns, role), s)).ops, lo, lo + 2)
    ensures Ascending(ns, name, Then(Gone(Key(Deployment, ns, role)), Gone(Key(Service, ns, role))).ops, lo, lo + 2)
  {
    hide Rank, Own, Ascending, Then, One, Gone, Loose;
    AscendingOne(ns, name, Key(Deployment, ns, role), d, lo, lo + 1);
    AscendingOne(ns, name, Key(Service, ns, role), s, lo + 1, lo + 2);
    AscendingThen(ns, name, One(Key(Deployment, ns, role), d), One(Key(Service, ns, role), s), lo, lo + 1, lo + 2);
    AscendingOne(ns, name, Key(Deployment, ns, role), None, lo, lo + 1);
    AscendingOne(ns, name, Key(Service, ns, role), None, lo + 1, lo + 2);
    AscendingThen(ns, name, Gone(Key(Deployment, ns, role)), Gone(Key(Service, ns, role)), lo, lo + 1, lo + 2);
  }

  lemma KeptAscends(ns: string, name: string, pvc: string, want: Option<Fields>, at: nat)
    requires Own(ns, name, Key(PersistentVolumeClaim, ns, pvc)) && Rank(name, Key(PersistentVolumeClaim, ns, pvc)) == at
    ensures Ascending(ns, name, Kept(Key(PersistentVolumeClaim, ns, pvc), want).ops, at, at + 1)
  {}

  lemma SharedAscends(ns: string, name: string, o: Objects)
    ensures Ascending(ns, name, SharedPart(ns, name, o).ops, 0, 3)
  {
    var e := EncryptionPart(ns, name, o.encryption);
    var p, q := Kept(Key(PersistentVolumeClaim, ns, NodesPvc(name)), o.nodes),
                Kept(Key(PersistentVolumeClaim, ns, BinaryPvc(name)), o.binary);
    assert Ascending(ns, name, e.ops, 0, 1);
    KeptAscends(ns, name, NodesPvc(name), o.nodes, 1);
    KeptAscends(ns, name, BinaryPvc(name), o.binary, 2);
    hide Ascending, Then, Kept, EncryptionPart;
    AscendingThen(ns, name, p, q, 1, 2, 3);
    AscendingThen(ns, name, e, Then(p, q), 0, 1, 3);
  }

  lemma MainAscends(ns: string, name: string, o: Objects, cloud: Cloud, revision: string)
    ensures Ascending(ns, name, MainPart(ns, name, o, cloud, revision).ops, 3, 10)
  {
    hide Ascending, Then, Kept, One, Loose, WorkloadPart, NetworkingPart;
    var role := MainName(name);
    var d, rule := o.mainDeployment(revision), Key(DestinationRule, ns, role);
    KeptAscends(ns, name, MainPvc(name), o.mainData, 3);
    WorkloadAscends(ns, name, role, Some(d), Some(o.mainService), 4);
    AscendingNothing(ns, name, 6, 7);
    AscendingOne(ns, name, rule, o.rule, 6, 7);
    NetworkingAscends(ns, name, role, o.main, cloud.gateway, 7);
    var w := WorkloadPart(ns, role, d, o.mainService);
    assert Ascending(ns, name, w.ops, 4, 6) by { WorkloadIs(ns, role, d, o.mainService); }
    var r, n := RulePart(rule, o.rule, cloud.istio), NetworkingPart(ns, role, o.main, cloud.gateway);
    AscendingThen(ns, name, r, n, 6, 7, 10);
    AscendingThen(ns, name, w, Then(r, n), 4, 6, 10);
    AscendingThen(ns, name, Kept(Key(PersistentVolumeClaim, ns, MainPvc(name)), o.mainData), Then(w, Then(r, n)), 3,
                  4, 10);
  }

  lemma WorkloadIs(ns: string, role: string, d: Fields, s: Fields)
    ensures WorkloadPart(ns, role, d, s)
            == Then(One(Key(Deployment, ns, role), Some(d)), One(Key(Service, ns, role), Some(s)))
  {}

  lemma WorkerAscends(ns: string, name: string, o: Objects)
    ensures Ascending(ns, name, WorkerPart(ns, name, o).ops, 10, 12)
  {
    hide Ascending, Then, One;
    var d, h := Key(Deployment, ns, WorkerName(name)), Key(HorizontalPodAutoscaler, ns, WorkerName(name));
    AscendingOne(ns, name, d, Some(o.worker), 10, 11);
    AscendingOne(ns, name, h, o.hpa, 11, 12);
    AscendingThen(ns, name, One(d, Some(o.worker)), One(h, o.hpa), 10, 11, 12);
  }

  lemma WebhookAscends(ns: string, name: string, webhook: Option<Webhook>, gateway: bool)
    ensures Ascending(ns, name, WebhookPart(ns, name, webhook, gateway).ops, 12, 17)
  {
    hide Ascending, Then, One, Gone, Loose, WorkloadPart, NetworkingPart, RoutePart;
    var role := WebhookName(name);
    if webhook.Some? {
      var wh := webhook.value;
      WorkloadAscends(ns, name, role, Some(wh.deployment), Some(wh.service), 12);
      WorkloadIs(ns, role, wh.deployment, wh.service);
      NetworkingAscends(ns, name, role, wh.surface, gateway, 14);
      AscendingThen(ns, name, WorkloadPart(ns, role, wh.deployment, wh.service),
                    NetworkingPart(ns, role, wh.surface, gateway), 12, 14, 17);
    } else {
      var i := Key(Ingress, ns, role);
      WorkloadAscends(ns, name, role, None, None, 12);
      AscendingOne(ns, name, i, None, 14, 15);
      NetworkingAscends(ns, name, role, NO_SURFACE, gateway, 14);
      AscendingThen(ns, name, Gone(i), RoutePart(ns, role, NO_SURFACE, gateway), 14, 15, 17);
      AscendingThen(ns, name, Then(Gone(Key(Deployment, ns, role)), Gone(Key(Service, ns, role))),
                    Then(Gone(i), RoutePart(ns, role, NO_SURFACE, gateway)), 12, 14, 17);
    }
  }

  lemma ClusterAscends(ns: string, name: string, o: Objects, cloud: Cloud, revision: string)
    ensures Ascending(ns, name, RolesPart(ns, name, o, cloud, revision).ops, 3, 17)
    ensures Ascending(ns, name, ClusterPass(ns, name, o, cloud, revision).ops, 0, 18)
  {
    hide Ascending, Then, One, SharedPart, MainPart, WorkerPart, WebhookPart;
    var shared, main := SharedPart(ns, name, o), MainPart(ns, name, o, cloud, revision);
    var worker, webhook := WorkerPart(ns, name, o), WebhookPart(ns, name, o.webhook, cloud.gateway);
    var status := One(Key(ClusterResource, ns, name), Some(o.status));
    SharedAscends(ns, name, o);
    MainAscends(ns, name, o, cloud, revision);
    WorkerAscends(ns, name, o);
    WebhookAscends(ns, name, o.webhook, cloud.gateway);
    AscendingThen(ns, name, worker, webhook, 10, 12, 17);
    AscendingThen(ns, name, main, Then(worker, webhook), 3, 10, 17);
    AscendingOne(ns, name, Key(ClusterResource, ns, name), Some(o.status), 17, 18);
    AscendingThen(ns, name, Then(main, Then(worker, webhook)), status, 3, 17, 18);
    AscendingThen(ns, name, shared, Then(Then(main, Then(worker, webhook)), status), 0, 3, 18);
  }

  /** No two writes of a pass name the same object. */
  lemma ClusterDistinct(ns: string, name: string, o: Objects, cloud: Cloud, revision: string)
    ensures Keyed(ClusterPass(ns, name, o, cloud, revision).ops)
    ensures Distinct(ClusterPass(ns, name, o, cloud, revision).ops)
  {
    hide ClusterPass, Rank, Own;
    ClusterAscends(ns, name, o, cloud, revision);
  }

  /** Objects outside the Cluster's own names are never touched, in particular not the instance-ai Secret. */
  lemma ClusterFrame(s: Store, ns: string, name: string, o: Objects, cloud: Cloud, revision: string, ops: seq<Op>,
                     k: Key)
    requires forall op | op in ops :: op in ClusterPass(ns, name, o, cloud, revision).ops
    requires !Own(ns, name, k)
    ensures Run(s, ops).Find(k) == s.Find(k)
  {
    hide ClusterPass, Rank, Own;
    ClusterAscends(ns, name, o, cloud, revision);
    RunFrame(s, ops, k);
  }
}

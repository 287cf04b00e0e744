/** What a Single pass achieves: the same laws as for a Cluster, for the smaller set of objects. */
module SingleRuns {
  import opened Wrappers
  import opened Kube
  import opened Server
  import opened Resources
  import opened Rules
  import opened Validate
  import opened Builders
  import opened ClusterObjects
  import opened Plans
  import Convergence

  // ----- No object is written twice -----

  /** The writes name objects of these kinds only, each at most once. */
  predicate Apart(ops: seq<Op>, kinds: set<Kind>) {
    && Keyed(ops)
    && (forall op | op in ops && !op.Purge? :: op.key.kind in kinds)
    && Distinct(ops)
  }

  lemma ApartThen(p: Plan, q: Plan, a: set<Kind>, b: set<Kind>)
    requires Apart(p.ops, a) && Apart(q.ops, b) && a !! b
    ensures Apart(Then(p, q).ops, a + b)
  {
    var ops := Then(p, q).ops;
    assert forall op | op in ops :: op in p.ops || op in q.ops;
    forall i, j | 0 <= i < j < |ops| ensures ops[i].key != ops[j].key {
      assert ops[i] in ops && ops[j] in ops;
      if i < |p.ops| <= j {
        assert ops[i] in p.ops && ops[j] in q.ops;
      } else if |p.ops| <= i {
        assert ops[i] == q.ops[i - |p.ops|] && ops[j] == q.ops[j - |p.ops|];
      }
    }
  }

  lemma RoutesApart(ns: string, name: string, s: Surface, gateway: bool)
    ensures Apart(RoutePart(ns, name, s, gateway).ops, {HTTPRoute})
  {
    assert |RedirectName(name)| > |name|;
  }

  lemma ChildrenApart(ns: string, name: string, o: SingleObjects, gateway: bool, revision: string)
    ensures Apart(ChildrenPart(ns, name, o, gateway, revision).ops,
                  {PersistentVolumeClaim, Deployment, Service, Ingress, HTTPRoute})
  {
    var data := Kept(Key(PersistentVolumeClaim, ns, name + "-data"), o.data);
    var d := One(Key(Deployment, ns, name), Some(o.deployment(revision)));
    var s := One(Key(Service, ns, name), Some(o.service));
    var i, r := One(Key(Ingress, ns, name), o.surface.ingress), RoutePart(ns, name, o.surface, gateway);
    assert Apart(data.ops, {PersistentVolumeClaim}) && Apart(d.ops, {Deployment}) && Apart(s.ops, {Service})
        && Apart(i.ops, {Ingress});
    assert Apart([], {Ingress, HTTPRoute});
    RoutesApart(ns, name, o.surface, gateway);
    hide Apart, Then, One, Kept, RoutePart;
    ApartThen(i, r, {Ingress}, {HTTPRoute});
    ApartThen(d, s, {Deployment}, {Service});
    var n := NetworkingPart(ns, name, o.surface, gateway);
    assert Apart(n.ops, {Ingress, HTTPRoute}) by {
      assert {Ingress} + {HTTPRoute} == {Ingress, HTTPRoute};
    }
    ApartThen(Then(d, s), n, {Deployment} + {Service}, {Ingress, HTTPRoute});
    ApartThen(data, Then(Then(d, s), n), {PersistentVolumeClaim}, {Deployment} + {Service} + {Ingress, HTTPRoute});
    assert {PersistentVolumeClaim} + ({Deployment} + {Service} + {Ingress, HTTPRoute})
        == {PersistentVolumeClaim, Deployment, Service, Ingress, HTTPRoute};
  }

  lemma SingleDistinct(ns: string, name: string, o: SingleObjects, gateway: bool, revision: string)
    ensures Apart(SinglePass(ns, name, o, gateway, revision).ops,
                  {Secret, PersistentVolumeClaim, Deployment, Service, Ingress, HTTPRoute, SingleResource})
  {
    hide ChildrenPart;
    var e, c := EncryptionPart(ns, name, o.encryption), ChildrenPart(ns, name, o, gateway, revision);
    var s := One(Key(SingleResource, ns, name), Some(o.status));
    assert Apart(e.ops, {Secret}) && Apart(s.ops, {SingleResource});
    var children := {PersistentVolumeClaim, Deployment, Service, Ingress, HTTPRoute};
    ChildrenApart(ns, name, o, gateway, revision);
    ApartThen(c, s, children, {SingleResource});
    ApartThen(e, Then(c, s), {Secret}, children + {SingleResource});
    assert {Secret} + (children + {SingleResource}) == {Secret, PersistentVolumeClaim, Deployment, Service, Ingress,
                                                        HTTPRoute, SingleResource};
  }

  // ----- The Single's own objects -----

  /** The object is one that some pass of this Single may write. */
  predicate Own(ns: string, name: string, k: Key) {
    && k.ns == ns
    && match k.kind
       case Secret => k.name == EncryptionSecret(name)
       case PersistentVolumeClaim => k.name == name + "-data"
       case Deployment => k.name == name
       case Service => k.name == name
       case Ingress => k.name == name
       case HTTPRoute => k.name == name || k.name == RedirectName(name)
       case SingleResource => k.name == name
       case _ => false
  }

  /** Volumes and the status are only ever applied, Secrets only ever created; only routes are removed loosely. */
  predicate Mild(op: Op) {
    && !op.Purge?
    && (op.key.kind.PersistentVolumeClaim? || op.key.kind.SingleResource? ==> op.Put?)
    && (op.key.kind.Secret? ==> op.Create?)
    && (op.Discard? ==> op.key.kind.HTTPRoute?)
  }

  predicate AllOwn(ns: string, name: string, ops: seq<Op>) {
    forall op | op in ops :: Mild(op) && Own(ns, name, op.key)
  }

  lemma OwnThen(ns: string, name: string, p: Plan, q: Plan)
    requires AllOwn(ns, name, p.ops) && AllOwn(ns, name, q.ops)
    ensures AllOwn(ns, name, Then(p, q).ops)
  {
    hide Own;
  }

  lemma OwnOne(ns: string, name: string, k: Key, want: Option<Fields>)
    requires Own(ns, name, k) && !k.kind.Secret?
    requires k.kind.PersistentVolumeClaim? || k.kind.SingleResource? ==> want.Some?
    ensures AllOwn(ns, name, One(k, want).ops)
    ensures k.kind.HTTPRoute? ==> AllOwn(ns, name, Loose(k, want).ops)
  {
    hide Own;
  }

  lemma OwnFirst(ns: string, name: string, o: SingleObjects)
    ensures AllOwn(ns, name, EncryptionPart(ns, name, o.encryption).ops)
    ensures AllOwn(ns, name, Kept(Key(PersistentVolumeClaim, ns, name + "-data"), o.data).ops)
    ensures AllOwn(ns, name, [])
  {
    hide EncryptionSecret;
  }

  lemma OwnNetworking(ns: string, name: string, s: Surface, gateway: bool)
    ensures AllOwn(ns, name, NetworkingPart(ns, name, s, gateway).ops)
  {
    var i, r, t := Key(Ingress, ns, name), Key(HTTPRoute, ns, name), Key(HTTPRoute, ns, RedirectName(name));
    assert Own(ns, name, i) && Own(ns, name, r) && Own(ns, name, t);
    assert AllOwn(ns, name, []);
    hide AllOwn, Own, Then, One, Loose, RedirectName;
    OwnOne(ns, name, i, s.ingress);
    OwnOne(ns, name, r, s.route);
    OwnOne(ns, name, t, s.redirect);
    OwnThen(ns, name, Loose(r, s.route), Loose(t, s.redirect));
    OwnThen(ns, name, One(i, s.ingress), RoutePart(ns, name, s, gateway));
  }

  lemma OwnPass(ns: string, name: string, o: SingleObjects, gateway: bool, revision: string)
    ensures AllOwn(ns, name, SinglePass(ns, name, o, gateway, revision).ops)
  {
    var d, s, r := Key(Deployment, ns, name), Key(Service, ns, name), Key(SingleResource, ns, name);
    assert Own(ns, name, d) && Own(ns, name, s) && Own(ns, name, r);
    hide AllOwn, Own, Then, One, Kept, EncryptionPart, NetworkingPart;
    var e, data := EncryptionPart(ns, name, o.encryption), Kept(Key(PersistentVolumeClaim, ns, name + "-data"), o.data);
    var w, n := WorkloadPart(ns, name, o.deployment(revision), o.service), NetworkingPart(ns, name, o.surface, gateway);
    var status := One(r, Some(o.status));
    OwnFirst(ns, name, o);
    OwnNetworking(ns, name, o.surface, gateway);
    OwnOne(ns, name, d, Some(o.deployment(revision)));
    OwnOne(ns, name, s, Some(o.service));
    OwnOne(ns, name, r, Some(o.status));
    OwnThen(ns, name, One(d, Some(o.deployment(revision))), One(s, Some(o.service)));
    OwnThen(ns, name, w, n);
    OwnThen(ns, name, data, Then(w, n));
    OwnThen(ns, name, Then(data, Then(w, n)), status);
    OwnThen(ns, name, e, Then(Then(data, Then(w, n)), status));
  }

  lemma PlanOwn(s: Single, g: string, gateway: bool, revision: string)
    ensures AllOwn(s.ns, s.name, SinglePlan(s, g, gateway, revision).ops)
  {
    hide RenderSingle, SingleError, SinglePass, Own;
    OwnPass(s.ns, s.name, RenderSingle(s, g), gateway, revision);
  }

  // ----- Acceptance and convergence -----

  /** A Single's conflict is part of validation; only the route may still fail on the API group. */
  predicate Acceptable(s: Single, gateway: bool) {
    LegalSingle(s) && (Convergence.Routed(s.networking) ==> gateway)
  }

  lemma PlanSucceeds(s: Single, generated: string, gateway: bool, revision: string)
    ensures SinglePlan(s, generated, gateway, revision).ok <==> Acceptable(s, gateway)
  {
    hide IngressFields, RouteFields, EncryptionSecretFields, Pvc, SingleDeployment, ServiceFields, KeySecret,
         DatabaseAllowed, EnvAllowed, SmtpAllowed, StrategyAllowed, LegalDatabase, LegalEnv, LegalSmtp, LegalStrategy;
    SingleErrorNames(s);
    var surface := RenderSingle(s, generated).surface;
    assert surface.conflict == Conflicting(s.networking);
    assert surface.route.Some? <==> Convergence.Routed(s.networking);
  }

  function Expected(ns: string, name: string, o: SingleObjects, gateway: bool,
                    revision: string): seq<Convergence.Expectation> {
    [ Convergence.Expectation(Key(Deployment, ns, name), Some(o.deployment(revision))),
      Convergence.Expectation(Key(Service, ns, name), Some(o.service)),
      Convergence.Expectation(Key(Ingress, ns, name), o.surface.ingress) ]
    + (if gateway then Convergence.Routes(ns, name, o.surface) else [])
    + [ Convergence.Expectation(Key(SingleResource, ns, name), Some(o.status)) ]
  }

  lemma PassCovers(ns: string, name: string, o: SingleObjects, gateway: bool, revision: string)
    requires SinglePass(ns, name, o, gateway, revision).ok
    ensures Convergence.Covered(SinglePass(ns, name, o, gateway, revision), Expected(ns, name, o, gateway, revision))
  {
    hide Convergence.Covered, Convergence.Routes, NetworkingPart, WorkloadPart, EncryptionPart, Kept, One;
    var e, data := EncryptionPart(ns, name, o.encryption), Kept(Key(PersistentVolumeClaim, ns, name + "-data"), o.data);
    var w, n := WorkloadPart(ns, name, o.deployment(revision), o.service), NetworkingPart(ns, name, o.surface, gateway);
    var status := One(Key(SingleResource, ns, name), Some(o.status));
    var es := Expected(ns, name, o, gateway, revision);
    PartsSucceed(ns, name, o, revision);
    assert n.ok;
    Convergence.NetworkingCovers(ns, name, o.surface, gateway);
    EndsCovered(ns, name, o, revision);
    assert es == [] + (([] + (es[..2] + es[2..|es| - 1])) + es[|es| - 1..]);
    assert es[2..|es| - 1] == [Convergence.Expectation(Key(Ingress, ns, name), o.surface.ingress)]
        + if gateway then Convergence.Routes(ns, name, o.surface) else [];
    Convergence.CoveredThen(w, n, es[..2], es[2..|es| - 1]);
    Convergence.CoveredThen(data, Then(w, n), [], es[..2] + es[2..|es| - 1]);
    Convergence.CoveredThen(Then(data, Then(w, n)), status, [] + (es[..2] + es[2..|es| - 1]), es[|es| - 1..]);
    Convergence.CoveredThen(e, Then(Then(data, Then(w, n)), status), [],
                            ([] + (es[..2] + es[2..|es| - 1])) + es[|es| - 1..]);
  }

  lemma PartsSucceed(ns: string, name: string, o: SingleObjects, revision: string)
    ensures EncryptionPart(ns, name, o.encryption).ok
    ensures Kept(Key(PersistentVolumeClaim, ns, name + "-data"), o.data).ok
    ensures WorkloadPart(ns, name, o.deployment(revision), o.service).ok
  {}

  lemma EndsCovered(ns: string, name: string, o: SingleObjects, revision: string)
    ensures Convergence.Covered(EncryptionPart(ns, name, o.encryption), [])
    ensures Convergence.Covered(Kept(Key(PersistentVolumeClaim, ns, name + "-data"), o.data), [])
    ensures Convergence.Covered(WorkloadPart(ns, name, o.deployment(revision), o.service),
                                [ Convergence.Expectation(Key(Deployment, ns, name), Some(o.deployment(revision))),
                                  Convergence.Expectation(Key(Service, ns, name), Some(o.service)) ])
    ensures Convergence.Covered(One(Key(SingleResource, ns, name), Some(o.status)),
                                [Convergence.Expectation(Key(SingleResource, ns, name), Some(o.status))])
  {}

  function CleanPass(t: Store, s: Single, generated: string, gateway: bool): Plan {
    SinglePlan(s, generated, gateway, Revision(t, s.ns, s.name))
  }

  /** The managed objects of a Single and its status, with the revision the store holds. */
  function ExpectedOf(t: Store, s: Single, g: string, gateway: bool): seq<Convergence.Expectation> {
    Expected(s.ns, s.name, RenderSingle(s, g), gateway, Revision(t, s.ns, s.name))
  }

  /** From any store, one failure-free pass leaves every managed object of the Single, and its status, as asked. */
  lemma SingleConverges(t: Store, s: Single, generated: string, gateway: bool)
    requires Acceptable(s, gateway)
    ensures forall e | e in ExpectedOf(t, s, generated, gateway) ::
              Convergence.Meets(Run(t, CleanPass(t, s, generated, gateway).ops), e)
  {
    hide Run, Revision, RenderSingle, SinglePass, SingleError, Expected, Keyed, Distinct;
    var o, revision := RenderSingle(s, generated), Revision(t, s.ns, s.name);
    PlanSucceeds(s, generated, gateway, revision);
    PassCovers(s.ns, s.name, o, gateway, revision);
    SingleDistinct(s.ns, s.name, o, gateway, revision);
    var ops := CleanPass(t, s, generated, gateway).ops;
    forall e | e in Expected(s.ns, s.name, o, gateway, revision) ensures Convergence.Meets(Run(t, ops), e) {
      Convergence.WriteMeets(t, ops, e);
    }
  }

  lemma OnlyKeyDiffers(s: Single, g: string, h: string)
    ensures RenderSingle(s, g) == RenderSingle(s, h).(encryption := RenderSingle(s, g).encryption)
    ensures RenderSingle(s, g).encryption.Some? <==> RenderSingle(s, h).encryption.Some?
  {
    hide IngressFields, RouteFields, EncryptionSecretFields, Pvc, SingleDeployment, ServiceFields, RoleSurface;
  }

  lemma SamePassButKey(ns: string, name: string, o: SingleObjects, encryption: Option<Fields>, gateway: bool,
                       revision: string,
                       op: Op)
    requires o.encryption.Some? <==> encryption.Some?
    ensures op in SinglePass(ns, name, o.(encryption := encryption), gateway, revision).ops ==>
            (op in SinglePass(ns, name, o, gateway, revision).ops
         || (op.Create? && exists first ::
               first in SinglePass(ns, name, o, gateway, revision).ops && first.Create? && first.key == op.key))
  {
    assert ChildrenPart(ns, name, o.(encryption := encryption), gateway, revision)
           == ChildrenPart(ns, name, o, gateway, revision);
    hide ChildrenPart;
    if op in EncryptionPart(ns, name, encryption).ops {
      var first := Create(Key(Secret, ns, EncryptionSecret(name)), o.encryption.value);
      assert first in EncryptionPart(ns, name, o.encryption).ops;
      assert first in SinglePass(ns, name, o, gateway, revision).ops;
    }
  }

  /** Once every write of a pass is settled, so is every write of the same pass with another key drawn. */
  lemma SettledForAnyKey(t: Store, s: Single, g: string, h: string, gateway: bool, revision: string)
    requires forall op | op in SinglePlan(s, g, gateway, revision).ops :: Settled(t, op)
    ensures forall op | op in SinglePlan(s, h, gateway, revision).ops :: Settled(t, op)
  {
    hide RenderSingle, SinglePass, SingleError;
    OnlyKeyDiffers(s, h, g);
    forall op | op in SinglePlan(s, h, gateway, revision).ops ensures Settled(t, op) {
      SamePassButKey(s.ns, s.name, RenderSingle(s, g), RenderSingle(s, h).encryption, gateway, revision, op);
    }
  }

  lemma PlanDistinct(s: Single, g: string, gateway: bool, revision: string)
    ensures Keyed(SinglePlan(s, g, gateway, revision).ops) && Distinct(SinglePlan(s, g, gateway, revision).ops)
  {
    hide RenderSingle, SinglePass, SingleError;
    SingleDistinct(s.ns, s.name, RenderSingle(s, g), gateway, revision);
  }

  /** A second pass, with a newly drawn key, leaves the store as it is, resource versions included. */
  lemma SinglePassIdempotent(t: Store, s: Single, g: string, h: string, gateway: bool)
    ensures var u := Run(t, CleanPass(t, s, g, gateway).ops);
            Run(u, CleanPass(u, s, h, gateway).ops) == u
  {
    hide Run, Revision, SinglePlan;
    var revision := Revision(t, s.ns, s.name);
    var ops := SinglePlan(s, g, gateway, revision).ops;
    var u := Run(t, ops);
    PassKeepsRevision(t, s, g, gateway);
    PlanDistinct(s, g, gateway, revision);
    forall op | op in ops ensures Settled(u, op) {
      var i :| 0 <= i < |ops| && ops[i] == op;
      RunSettles(t, ops, i);
    }
    SettledForAnyKey(u, s, g, h, gateway, revision);
    RunOfSettled(u, SinglePlan(s, h, gateway, revision).ops);
  }

  lemma PassKeepsRevision(t: Store, s: Single, generated: string, gateway: bool)
    ensures Revision(Run(t, CleanPass(t, s, generated, gateway).ops), s.ns, s.name) == Revision(t, s.ns, s.name)
  {
    hide Run, SinglePlan;
    var k := Key(Secret, s.ns, InstanceAiSecret(s.name));
    assert |k.name| == |s.name| + 12 && |EncryptionSecret(s.name)| == |s.name| + 15;
    var ops := CleanPass(t, s, generated, gateway).ops;
    PlanOwn(s, generated, gateway, Revision(t, s.ns, s.name));
    RunFrame(t, ops, k);
    assert Run(t, ops).Find(k) == t.Find(k);
  }

  // ----- Runs of passes -----

  /** Every write belongs to a pass over some spec of this Single, under some served group and revision. */
  ghost predicate OwnWrites(ns: string, name: string, ops: seq<Op>) {
    forall op | op in ops :: exists s: Single, g: string, gateway: bool, revision: string ::
      s.ns == ns && s.name == name && op in SinglePlan(s, g, gateway, revision).ops
  }

  lemma OwnWritesShape(ns: string, name: string, ops: seq<Op>)
    requires OwnWrites(ns, name, ops)
    ensures AllOwn(ns, name, ops)
  {
    hide SinglePlan, Own;
    forall op | op in ops ensures Mild(op) && Own(ns, name, op.key) {
      var s: Single, g: string, gateway: bool, revision: string :|
        s.ns == ns && s.name == name && op in SinglePlan(s, g, gateway, revision).ops;
      PlanOwn(s, g, gateway, revision);
    }
  }

  /** The data volume survives every run of passes, also of specs without persistence. */
  lemma VolumesStay(t: Store, ops: seq<Op>, ns: string, name: string, k: Key)
    requires OwnWrites(ns, name, ops) && k.kind.PersistentVolumeClaim? && k in t.objects
    ensures k in Run(t, ops).objects
  {
    hide Run, SinglePlan, Own;
    OwnWritesShape(ns, name, ops);
    RunKeeps(t, ops, k);
  }

  /** Once the generated key's Secret exists, no run of passes changes it, whatever keys they draw. */
  lemma GeneratedKeyStays(t: Store, ops: seq<Op>, ns: string, name: string)
    requires OwnWrites(ns, name, ops) && Key(Secret, ns, EncryptionSecret(name)) in t.objects
    ensures Run(t, ops).Find(Key(Secret, ns, EncryptionSecret(name))) == t.Find(Key(Secret, ns, EncryptionSecret(name)))
  {
    hide SinglePlan, Own, Run;
    OwnWritesShape(ns, name, ops);
    CreatedStays(t, ops, Key(Secret, ns, EncryptionSecret(name)));
  }

  /** The kinds a pass both applies and removes, as far as their API group is served. */
  predicate Managed(kind: Kind, gateway: bool) {
    kind.Deployment? || kind.Service? || kind.Ingress? || (kind.HTTPRoute? && gateway)
  }

  lemma ExpectedComplete(ns: string, name: string, o: SingleObjects, gateway: bool, revision: string, k: Key)
    requires Own(ns, name, k) && Managed(k.kind, gateway)
    ensures exists e :: e in Expected(ns, name, o, gateway, revision) && e.key == k
  {
    hide EncryptionSecret;
    var es := Expected(ns, name, o, gateway, revision);
    var i := match k.kind case Deployment => 0 case Service => 1 case Ingress => 2
                          case _ => if k.name == name then 3 else 4;
    assert es[i] in es && es[i].key == k;
  }

  /**
   Nothing of an earlier spec is left: whatever the Single's passes wrote before, in full or in part, after one
   failure-free pass a managed object is there exactly if the spec asks for it, provided that it was not there
   before the Single.
   */
  lemma NothingLeftBehind(base: Store, past: seq<Op>, s: Single, g: string, gateway: bool, k: Key)
    requires OwnWrites(s.ns, s.name, past) && Acceptable(s, gateway)
    requires Managed(k.kind, gateway) && k !in base.objects
    ensures var t := Run(base, past);
            k in Run(t, CleanPass(t, s, g, gateway).ops).objects
            <==> exists e :: e in ExpectedOf(t, s, g, gateway) && e.key == k && e.want.Some?
  {
    hide Run, Acceptable, Revision, RenderSingle, Expected, SinglePlan, Own;
    var t := Run(base, past);
    var revision := Revision(t, s.ns, s.name);
    var after := Run(t, CleanPass(t, s, g, gateway).ops);
    SingleConverges(t, s, g, gateway);
    if k in after.objects {
      if Own(s.ns, s.name, k) {
        ExpectedComplete(s.ns, s.name, RenderSingle(s, g), gateway, revision, k);
        var e :| e in ExpectedOf(t, s, g, gateway) && e.key == k;
        assert Convergence.Meets(after, e);
      } else {
        OwnWritesShape(s.ns, s.name, past);
        RunFrame(base, past, k);
        PlanOwn(s, g, gateway, revision);
        RunFrame(t, CleanPass(t, s, g, gateway).ops, k);
      }
    } else {
      forall e | e in ExpectedOf(t, s, g, gateway) && e.key == k ensures e.want.None? {
        assert Convergence.Meets(after, e);
      }
    }
  }

  // ----- Readiness -----

  function StatusKey(ns: string, name: string): Key {
    Key(SingleResource, ns, name)
  }

  /** The status write is in a pass exactly when the spec is acceptable. */
  lemma ReadyIffAcceptable(s: Single, generated: string, gateway: bool, revision: string)
    ensures Acceptable(s, gateway)
       <==> exists op :: op in SinglePlan(s, generated, gateway, revision).ops && Touches(op, StatusKey(s.ns, s.name))
  {
    hide RenderSingle, SingleError, Acceptable, ChildrenPart;
    PlanSucceeds(s, generated, gateway, revision);
    var o := RenderSingle(s, generated);
    ChildrenApart(s.ns, s.name, o, gateway, revision);
    if Acceptable(s, gateway) {
      var op := Put(StatusKey(s.ns, s.name), o.status);
      assert op in SinglePlan(s, generated, gateway, revision).ops && Touches(op, StatusKey(s.ns, s.name));
    }
  }

  ghost predicate BadWrites(ns: string, name: string, ops: seq<Op>) {
    forall op | op in ops :: exists s: Single, g: string, gateway: bool, revision: string ::
      s.ns == ns && s.name == name && !Acceptable(s, gateway) && op in SinglePlan(s, g, gateway, revision).ops
  }

  /** While every version of the spec has been unacceptable, no run of passes reports the Single ready. */
  lemma NeverReady(t: Store, ops: seq<Op>, ns: string, name: string)
    requires BadWrites(ns, name, ops) && !Ready(t, StatusKey(ns, name))
    ensures !Ready(Run(t, ops), StatusKey(ns, name))
  {
    hide Run, SinglePass, RenderSingle, SingleError, Acceptable;
    forall op | op in ops ensures !op.Purge? && !Touches(op, StatusKey(ns, name)) {
      var s: Single, g: string, gateway: bool, revision: string :|
        s.ns == ns && s.name == name && !Acceptable(s, gateway) && op in SinglePlan(s, g, gateway, revision).ops;
      ReadyIffAcceptable(s, g, gateway, revision);
      SingleDistinct(s.ns, s.name, RenderSingle(s, g), gateway, revision);
    }
    NeverReports(t, ops, StatusKey(ns, name));
  }

  // ----- From the reconciler's log to the results above -----

  /** Whatever an attempt with failing calls has written belongs to a pass of this Single. */
  lemma AttemptWrites(before: seq<Op>, after: seq<Op>, s: Single, g: string, gateway: bool, revision: string, ok: bool,
                      clean: bool)
    requires Conforms(before, after, SinglePlan(s, g, gateway, revision), ok, clean)
    ensures OwnWrites(s.ns, s.name, after[|before|..])
    ensures ok ==> Acceptable(s, gateway)
    ensures !Acceptable(s, gateway) ==> BadWrites(s.ns, s.name, after[|before|..])
  {
    hide SinglePlan, Acceptable, Thinned;
    ConformsWithin(before, after, SinglePlan(s, g, gateway, revision), ok, clean);
    PlanSucceeds(s, g, gateway, revision);
  }

  /** An attempt without a failing call succeeds exactly on an acceptable spec, and then everything is as asked. */
  lemma CleanAttempt(base: Store, before: seq<Op>, after: seq<Op>, s: Single, g: string, gateway: bool, ok: bool)
    requires Conforms(before, after, CleanPass(Run(base, before), s, g, gateway), ok, true)
    ensures ok <==> Acceptable(s, gateway)
    ensures ok ==>
            forall e | e in ExpectedOf(Run(base, before), s, g, gateway) :: Convergence.Meets(Run(base, after), e)
  {
    hide SinglePlan, Acceptable, ExpectedOf, Revision, Run, Thinned;
    var t := Run(base, before);
    PlanSucceeds(s, g, gateway, Revision(t, s.ns, s.name));
    RunConcat(base, before, CleanPass(t, s, g, gateway).ops);
    if ok {
      SingleConverges(t, s, g, gateway);
    }
  }

  /** What a success vouches for even when best-effort calls failed: all but the absence of stale routes. */
  predicate Vouched(e: Convergence.Expectation) {
    e.want.Some? || !e.key.kind.HTTPRoute?
  }

  /** Of the planned writes, the one that serves a vouched expectation is required, and enough. */
  lemma VouchedIsRequired(t: Store, made: seq<Op>, s: Single, g: string, gateway: bool, e: Convergence.Expectation)
    requires Acceptable(s, gateway) && e in ExpectedOf(t, s, g, gateway) && Vouched(e)
    requires forall op | op in made :: op in CleanPass(t, s, g, gateway).ops
    ensures var op := Sync(e.key, e.want);
            op in CleanPass(t, s, g, gateway).ops && Required(op) && (op in made ==> Convergence.Meets(Run(t, made), e))
  {
    hide RenderSingle, SingleError, Acceptable, Expected, SinglePass, Run, Settled, EncryptionSecret, RedirectName;
    var revision, op := Revision(t, s.ns, s.name), Sync(e.key, e.want);
    var ops := CleanPass(t, s, g, gateway).ops;
    PlanSucceeds(s, g, gateway, revision);
    assert SinglePlan(s, g, gateway, revision).ok ==> SingleError(s).None?;
    PassCovers(s.ns, s.name, RenderSingle(s, g), gateway, revision);
    assert Convergence.Served(ops, e);
    PlanOwn(s, g, gateway, revision);
    PlanDistinct(s, g, gateway, revision);
    if op in made {
      forall x | x in made && x.key == op.key ensures x == op {
        SameKeySameWrite(ops, x, op);
      }
      RunSettlesOnly(t, made, op);
      Convergence.SettledMeets(Run(t, made), e);
    }
  }

  /** An attempt that reports success, even though some best-effort calls failed, keeps what it vouches for. */
  lemma SuccessfulAttempt(base: Store, before: seq<Op>, after: seq<Op>, s: Single, g: string, gateway: bool,
                          clean: bool)
    requires Conforms(before, after, CleanPass(Run(base, before), s, g, gateway), true, clean)
    ensures Acceptable(s, gateway)
    ensures forall e | e in ExpectedOf(Run(base, before), s, g, gateway) && Vouched(e) ::
              Convergence.Meets(Run(base, after), e)
  {
    hide CleanPass, Acceptable, ExpectedOf, Run, Thinned, Vouched, Required, Convergence.Meets;
    var t, made := Run(base, before), after[|before|..];
    SuccessAccepts(t, s, g, gateway);
    ConformsWithin(before, after, CleanPass(t, s, g, gateway), true, clean);
    RunConcat(base, before, made);
    assert before + made == after;
    forall e | e in ExpectedOf(t, s, g, gateway) && Vouched(e) ensures Convergence.Meets(Run(base, after), e) {
      VouchedIsRequired(t, made, s, g, gateway, e);
    }
  }

  lemma SuccessAccepts(t: Store, s: Single, g: string, gateway: bool)
    ensures CleanPass(t, s, g, gateway).ok <==> Acceptable(s, gateway)
  {
    hide SinglePlan, Acceptable;
    PlanSucceeds(s, g, gateway, Revision(t, s.ns, s.name));
  }

  /** The status is the last write of a plan, and no other write of it names the resource. */
  lemma StatusEndsPlan(s: Single, g: string, gateway: bool, revision: string)
    requires Acceptable(s, gateway)
    ensures var ops := SinglePlan(s, g, gateway, revision).ops;
            var last := Put(StatusKey(s.ns, s.name), RenderSingle(s, g).status);
            && ops != [] && ops[|ops| - 1] == last && ops == ops[..|ops| - 1] + [last] && last !in ops[..|ops| - 1]
            && forall op | op in ops :: Touches(op, StatusKey(s.ns, s.name)) ==> op == last
  {
    hide RenderSingle, SingleError, Acceptable, ChildrenPart, EncryptionPart;
    PlanSucceeds(s, g, gateway, revision);
    PlanDistinct(s, g, gateway, revision);
    var ops, last := SinglePlan(s, g, gateway, revision).ops, Put(StatusKey(s.ns, s.name), RenderSingle(s, g).status);
    assert SinglePlan(s, g, gateway, revision).ok;
    assert ops[|ops| - 1] == last;
    forall op | op in ops && Touches(op, StatusKey(s.ns, s.name)) ensures op == last {
      SameKeySameWrite(ops, op, last);
    }
  }

  /**
   The status comes last also when calls fail: an attempt that got as far as writing it wrote it after everything
   else, and what the attempt vouches for was in place by then.
   */
  lemma StatusComesLast(base: Store, before: seq<Op>, after: seq<Op>, s: Single, g: string, gateway: bool, ok: bool,
                        clean: bool)
    requires Conforms(before, after, CleanPass(Run(base, before), s, g, gateway), ok, clean)
    requires exists op :: op in after[|before|..] && Touches(op, StatusKey(s.ns, s.name))
    ensures Acceptable(s, gateway)
    ensures after[|after| - 1] == Put(StatusKey(s.ns, s.name), RenderSingle(s, g).status)
    ensures forall e | e in ExpectedOf(Run(base, before), s, g, gateway) && Vouched(e)
            && e.key != StatusKey(s.ns, s.name) ::
              Convergence.Meets(Run(base, after[..|after| - 1]), e)
  {
    hide SinglePlan, Acceptable, ExpectedOf, Run, Thinned, Vouched, Required, Convergence.Meets, RenderSingle, Revision;
    var t, made := Run(base, before), after[|before|..];
    var plan, last := CleanPass(t, s, g, gateway), Put(StatusKey(s.ns, s.name), RenderSingle(s, g).status);
    ConformsWithin(before, after, plan, ok, clean);
    ReadyIffAcceptable(s, g, gateway, Revision(t, s.ns, s.name));
    StatusEndsPlan(s, g, gateway, Revision(t, s.ns, s.name));
    var front := plan.ops[..|plan.ops| - 1];
    ThinnedLast(made, front, last, ok);
    RunConcat(base, before, made[..|made| - 1]);
    assert before + made[..|made| - 1] == after[..|after| - 1];
    forall e | e in ExpectedOf(t, s, g, gateway) && Vouched(e) && e.key != StatusKey(s.ns, s.name)
      ensures Convergence.Meets(Run(base, after[..|after| - 1]), e)
    {
      VouchedIsRequired(t, made[..|made| - 1], s, g, gateway, e);
    }
  }
}

/** What a Single pass leaves, told from the spec alone. */
module SingleOutcome {
  import opened Wrappers
  import opened Kube
  import opened Server
  import opened Resources
  import opened Rules
  import opened Env
  import opened OperatorEnv
  import opened EnvValues
  import opened EnvSettings
  import opened EnvDefaults
  import opened Validate
  import opened Builders
  import opened ClusterObjects
  import opened Plans
  import opened RoleOutcome
  import opened ClusterOutcome
  import C = Convergence
  import opened SingleRuns

  /**
   The container has the key, the database's settings if there is one, and the defaults; the list decides the rest.
   */
  predicate ContainerSeen(env: seq<EnvEntry>, s: Single) {
    && HasKey(env, [], "N8N_ENCRYPTION_KEY", Some(KeyOf(s.encryptionKey, s.name)))
    && (s.database.Some? ==> DatabaseSeen(env, s.database.value))
    && HostSeen(env, s.extraEnv, s.host, s.networking) && SmtpSeen(env, s.extraEnv, s.smtp)
    && HasText(env, s.extraEnv, "WEBHOOK_URL",
               if s.host.None? then None else Some(Address(s.host.value, s.networking, "/")))
    && LoggingSeen(env, s.extraEnv, s.logging.GetOr(NO_LOGGING))
    && HasFlag(env, s.extraEnv, "N8N_SECURE_COOKIE", s.secureCookie)
    && UserDecides(env, s.extraEnv, [])
  }

  predicate InstanceRuns(t: Store, s: Single) {
    var k := Key(Deployment, s.ns, s.name);
    && DeploymentOf(Declared(t, k), s.name, s.image, "workflow-engine", Some(s.replicas), EnvAt(t, k),
                    (if s.database.Some? then TlsMounts(s.database.value) else [])
                    + (if s.persistence.Some? then ["n8n-data:" + s.name + "-data"] else []), [], s.pod, s.strategy,
                    Some(s.name + "-instance-ai"), "Single/" + s.name)
    && ContainerSeen(EnvAt(t, k), s)
  }

  predicate InstanceReported(t: Store, s: Single) {
    var f := Declared(t, Key(SingleResource, s.ns, s.name));
    && FieldIs(f, Status("ready"), Some(Truth(true))) && FieldIs(f, Status("replicas"), Some(Number(s.replicas)))
    && FieldIs(f, Status("encryptionKeySecret"), Some(Text(KeyOf(s.encryptionKey, s.name).name)))
    && FieldIs(f, Status("url"), if s.host.Some? then Some(Text("https://" + s.host.value)) else None)
  }

  /** From `b` to `t`, everything the spec asks for and nothing else, and no route while those are not served. */
  predicate SingleUp(b: Store, t: Store, s: Single, generated: string, gateway: bool) {
    var owner := "Single/" + s.name;
    && InstanceRuns(t, s) && ServiceAs(t, s.ns, s.name, s.image, "workflow-engine", s.serviceType, false, owner)
    && WayInAs(t, s.ns, s.name, s.image, "workflow-engine", s.host, s.networking, owner, gateway)
    && ClaimedAs(b, t, Key(PersistentVolumeClaim, s.ns, s.name + "-data"), s.persistence)
    && KeyAs(b, t, Key(Secret, s.ns, s.name + "-encryption-key"), s.encryptionKey, generated)
    && InstanceReported(t, s)
    && forall k: Key | k in b.objects.Keys + t.objects.Keys && (!OfSingle(s, k) || (k.kind.HTTPRoute? && !gateway)) ::
         t.Find(k) == b.Find(k)
  }

  /** The objects of a Single. */
  predicate OfSingle(s: Single, k: Key) {
    && k.ns == s.ns
    && match k.kind
       case Deployment => k.name == s.name
       case Service => k.name == s.name
       case Ingress => k.name == s.name
       case HTTPRoute => k.name == s.name || k.name == s.name + "-redirect"
       case PersistentVolumeClaim => k.name == s.name + "-data"
       case Secret => k.name == s.name + "-encryption-key"
       case SingleResource => k.name == s.name
       case _ => false
  }

  lemma Rendered(s: Single, g: string)
    ensures var o, owner := RenderSingle(s, g), "Single/" + s.name;
            && o.encryption == (if s.encryptionKey.Some? then None
                                else Some(EncryptionSecretFields(s.name, s.image, g, owner)))
            && o.data == Pvc(s.name, s.image, "data", s.persistence, owner)
            && (forall r :: o.deployment(r) == SingleDeployment(s, r))
            && o.service == ServiceFields(s.name, s.image, "workflow-engine", s.serviceType, false, owner)
            && o.surface == RoleSurface(s.name, s.image, "workflow-engine", s.host, s.networking, owner)
  {
    hide IngressFields, RouteFields, EncryptionSecretFields, Pvc, SingleDeployment, ServiceFields, RoleSurface;
  }

  lemma StatusShown(s: Single, g: string)
    ensures var f := RenderSingle(s, g).status;
            && FieldIs(f, Status("ready"), Some(Truth(true)))
            && FieldIs(f, Status("replicas"), Some(Number(s.replicas)))
            && FieldIs(f, Status("encryptionKeySecret"), Some(Text(KeyOf(s.encryptionKey, s.name).name)))
            && FieldIs(f, Status("url"), if s.host.Some? then Some(Text("https://" + s.host.value)) else None)
  {
    hide IngressFields, RouteFields, EncryptionSecretFields, Pvc, SingleDeployment, ServiceFields, RoleSurface;
    assert |"ready"| == 5 && |"replicas"| == 8 && |"encryptionKeySecret"| == 19 && |"url"| == 3;
  }

  lemma InstanceMeets(t: Store, s: Single, revision: string)
    requires LegalSingle(s)
    requires C.Meets(t, C.Expectation(Key(Deployment, s.ns, s.name), Some(SingleDeployment(s, revision))))
    ensures InstanceRuns(t, s)
  {
    hide DeploymentFields, DeploymentOf, DatabaseSeen, HostSeen, SmtpSeen, LoggingSeen, HasFlag, HasText, HasKey,
         UserDecides, C.Meets, SingleEnv, EnvAt, Declared, LegalDatabase, LegalEnv, Address;
    var key := KeyOf(s.encryptionKey, s.name);
    var volumes := (if s.database.Some? then DbVolumes(s.database.value) else [])
                   + (if s.persistence.Some? then ["n8n-data:" + s.name + "-data"] else []);
    if s.database.Some? {
      TlsMountsAre(s.database.value);
    }
    DeploymentMeets(t, s.ns, s.name, s.image, "workflow-engine", Some(s.replicas), SingleEnv(s, key), volumes, [],
                    s.pod, s.strategy, Some((s.name, revision)), "Single/" + s.name);
    SingleBackends(s, key);
    SingleSettings(s, key);
    SingleUserDecides(s, key);
  }

  lemma TlsMountsAre(db: DatabaseSpec)
    requires LegalDatabase(db)
    ensures DbVolumes(db) == TlsMounts(db)
  {
    KindsDiffer();
  }

  /** The expectations of a Single, one by one. */
  lemma ExpectedAre(ns: string, name: string, o: SingleObjects, gateway: bool, revision: string)
    ensures var es := Expected(ns, name, o, gateway, revision);
            && C.Expectation(Key(Deployment, ns, name), Some(o.deployment(revision))) in es
            && C.Expectation(Key(Service, ns, name), Some(o.service)) in es
            && C.Expectation(Key(Ingress, ns, name), o.surface.ingress) in es
            && (gateway ==>
                  && C.Expectation(Key(HTTPRoute, ns, name), o.surface.route) in es
                  && C.Expectation(Key(HTTPRoute, ns, name + "-redirect"), o.surface.redirect) in es)
            && C.Expectation(Key(SingleResource, ns, name), Some(o.status)) in es
  {
    var es := Expected(ns, name, o, gateway, revision);
    assert es[0] in es && es[1] in es && es[2] in es && es[|es| - 1] in es;
    if gateway {
      assert es[3] in es && es[4] in es;
    }
  }

  lemma StatusMeetsSingle(t: Store, s: Single, g: string)
    requires C.Meets(t, C.Expectation(Key(SingleResource, s.ns, s.name), Some(RenderSingle(s, g).status)))
    ensures InstanceReported(t, s)
  {
    StatusShown(s, g);
    hide RenderSingle, FieldIs, C.Meets;
    DeclaredIs(t, C.Expectation(Key(SingleResource, s.ns, s.name), Some(RenderSingle(s, g).status)));
  }

  lemma ChildrenMeet(t: Store, s: Single, g: string, gateway: bool, revision: string)
    requires LegalSingle(s)
    requires forall e | e in Expected(s.ns, s.name, RenderSingle(s, g), gateway, revision) :: C.Meets(t, e)
    ensures InstanceRuns(t, s) && InstanceReported(t, s)
    ensures ServiceAs(t, s.ns, s.name, s.image, "workflow-engine", s.serviceType, false, "Single/" + s.name)
    ensures WayInAs(t, s.ns, s.name, s.image, "workflow-engine", s.host, s.networking, "Single/" + s.name, gateway)
  {
    hide RenderSingle, C.Meets, ServiceFields, RoleSurface, InstanceRuns, ServiceAs, IngressAs, RoutesAs, FieldIs,
         SingleDeployment, LegalSingle, InstanceReported, Expected;
    Rendered(s, g);
    ExpectedAre(s.ns, s.name, RenderSingle(s, g), gateway, revision);
    var owner := "Single/" + s.name;
    InstanceMeets(t, s, revision);
    ServiceMeets(t, s.ns, s.name, s.image, "workflow-engine", s.serviceType, false, owner);
    IngressMeets(t, s.ns, s.name, s.image, "workflow-engine", s.host, s.networking, owner);
    StatusMeetsSingle(t, s, g);
    if gateway {
      RoutesMeet(t, s.ns, s.name, s.image, "workflow-engine", s.host, s.networking, owner);
    }
  }

  lemma SinglePassWrites(ns: string, name: string, o: SingleObjects, gateway: bool, revision: string)
    ensures var ops := SinglePass(ns, name, o, gateway, revision).ops;
            var data, key := Key(PersistentVolumeClaim, ns, name + "-data"), Key(Secret, ns, EncryptionSecret(name));
            && (if o.data.Some? then Put(data, o.data.value) in ops else Untouched(ops, data))
            && (if o.encryption.Some? then Create(key, o.encryption.value) in ops else Untouched(ops, key))
  {
    hide Avoids, WorkloadPart, NetworkingPart, EncryptionSecret;
    var w, n := WorkloadPart(ns, name, o.deployment(revision), o.service), NetworkingPart(ns, name, o.surface, gateway);
    var data := Key(PersistentVolumeClaim, ns, name + "-data");
    forall kind | kind == Secret || kind == PersistentVolumeClaim ensures Avoids(Then(w, n).ops, kind) {
      AvoidsWorkload(ns, name, o.deployment(revision), o.service, kind);
      AvoidsNetworking(ns, name, o.surface, Cloud(gateway, true), kind);
      AvoidsThen(w, n, kind);
    }
    AfterClaim(Kept(data, o.data), Then(w, n), data, o.data);
    hide Then, Kept;
    AroundChildren(EncryptionPart(ns, name, o.encryption), ChildrenPart(ns, name, o, gateway, revision),
                   One(Key(SingleResource, ns, name), Some(o.status)), ns, name, o);
  }

  lemma AroundChildren(e: Plan, children: Plan, status: Plan, ns: string, name: string, o: SingleObjects)
    requires e == EncryptionPart(ns, name, o.encryption) && status == One(Key(SingleResource, ns, name), Some(o.status))
    requires var data := Key(PersistentVolumeClaim, ns, name + "-data");
             && (o.data.Some? ==> Put(data, o.data.value) in children.ops)
             && forall op | op in children.ops ::
                  (!op.Purge? && !op.key.kind.Secret?
                   && (op.key.kind.PersistentVolumeClaim? ==> op.key == data && o.data.Some?))
    ensures var ops := Then(e, Then(children, status)).ops;
            var data, key := Key(PersistentVolumeClaim, ns, name + "-data"), Key(Secret, ns, EncryptionSecret(name));
            && (if o.data.Some? then Put(data, o.data.value) in ops else Untouched(ops, data))
            && (if o.encryption.Some? then Create(key, o.encryption.value) in ops else Untouched(ops, key))
  {}

  /**
   One failure-free pass over an acceptable Single, from any store: the instance runs with the image, count, volumes
   and settings of its spec behind its Service and the Ingress or routes asked for, the volume is claimed, the key is
   created once, the status is reported, and nothing else changes.
   */
  lemma SingleOutcome(b: Store, s: Single, generated: string, gateway: bool)
    requires Acceptable(s, gateway)
    ensures SingleUp(b, Run(b, CleanPass(b, s, generated, gateway).ops), s, generated, gateway)
  {
    hide Run, Revision, SinglePlan, Expected, LegalSingle, InstanceRuns, ServiceAs, WayInAs, ClaimedAs, KeyAs,
         InstanceReported, OfSingle, RenderSingle;
    var revision := Revision(b, s.ns, s.name);
    var t := Run(b, CleanPass(b, s, generated, gateway).ops);
    SingleConverges(b, s, generated, gateway);
    ChildrenMeet(t, s, generated, gateway, revision);
    SingleRest(b, s, generated, gateway, revision);
    forall k: Key | k in b.objects.Keys + t.objects.Keys && (!OfSingle(s, k) || (k.kind.HTTPRoute? && !gateway))
      ensures t.Find(k) == b.Find(k)
    {
      SingleFrame(b, s, generated, gateway, revision, k);
    }
  }

  lemma SingleFrame(b: Store, s: Single, generated: string, gateway: bool, revision: string, k: Key)
    requires !OfSingle(s, k) || (k.kind.HTTPRoute? && !gateway)
    ensures Run(b, SinglePlan(s, generated, gateway, revision).ops).Find(k) == b.Find(k)
  {
    OwnIsOfSingle(s, k);
    hide OfSingle, Own, Run, SinglePass, RenderSingle, SingleError;
    PlanOwn(s, generated, gateway, revision);
    if Own(s.ns, s.name, k) {
      AvoidsOne(Key(SingleResource, s.ns, s.name), None, k.kind);
      SingleAvoids(s.ns, s.name, RenderSingle(s, generated), gateway, revision);
    }
    RunFrame(b, SinglePlan(s, generated, gateway, revision).ops, k);
  }

  lemma OwnIsOfSingle(s: Single, k: Key)
    ensures Own(s.ns, s.name, k) ==> OfSingle(s, k)
  {}

  /** No route is written while routes are not served. */
  lemma SingleAvoids(ns: string, name: string, o: SingleObjects, gateway: bool, revision: string)
    ensures !gateway ==> Avoids(SinglePass(ns, name, o, gateway, revision).ops, HTTPRoute)
  {
    var e, status := EncryptionPart(ns, name, o.encryption), One(Key(SingleResource, ns, name), Some(o.status));
    var d := o.deployment(revision);
    var data := Kept(Key(PersistentVolumeClaim, ns, name + "-data"), o.data);
    assert Avoids(e.ops, HTTPRoute) && Avoids(status.ops, HTTPRoute) && Avoids(data.ops, HTTPRoute);
    hide Avoids, Then, WorkloadPart, NetworkingPart, Kept, EncryptionPart, One;
    if !gateway {
      var w, n := WorkloadPart(ns, name, d, o.service), NetworkingPart(ns, name, o.surface, gateway);
      AvoidsWorkload(ns, name, d, o.service, HTTPRoute);
      AvoidsNetworking(ns, name, o.surface, Cloud(gateway, true), HTTPRoute);
      AvoidsThen(w, n, HTTPRoute);
      AvoidsThen(data, Then(w, n), HTTPRoute);
      AvoidsThen(ChildrenPart(ns, name, o, gateway, revision), status, HTTPRoute);
      AvoidsThen(e, Then(ChildrenPart(ns, name, o, gateway, revision), status), HTTPRoute);
    }
  }

  /** Volume and key. */
  lemma SingleRest(b: Store, s: Single, generated: string, gateway: bool, revision: string)
    requires Acceptable(s, gateway)
    ensures var t := Run(b, SinglePlan(s, generated, gateway, revision).ops);
            && ClaimedAs(b, t, Key(PersistentVolumeClaim, s.ns, s.name + "-data"), s.persistence)
            && KeyAs(b, t, Key(Secret, s.ns, s.name + "-encryption-key"), s.encryptionKey, generated)
  {
    PlanSucceeds(s, generated, gateway, revision);
    Rendered(s, generated);
    assert EncryptionSecret(s.name) == s.name + "-encryption-key";
    hide Run, SinglePass, RenderSingle, SingleError, Acceptable, EncryptionSecretFields, ClaimedAs, KeyAs, PvcFields,
         Keyed,
         Distinct, ClaimOf, EncryptionSecret;
    var o := RenderSingle(s, generated);
    var ops := SinglePlan(s, generated, gateway, revision).ops;
    PlanDistinct(s, generated, gateway, revision);
    SinglePassWrites(s.ns, s.name, o, gateway, revision);
    if s.persistence.Some? {
      PvcIs(s.name, s.image, "data", s.persistence.value, "Single/" + s.name);
    }
    ClaimStep(b, ops, Key(PersistentVolumeClaim, s.ns, s.name + "-data"), s.persistence, o.data);
    SecretIs(s.name, s.image, generated, "Single/" + s.name);
    KeyStep(b, ops, Key(Secret, s.ns, s.name + "-encryption-key"), s.encryptionKey, o.encryption, generated);
  }

  /** So does a reconcile that reports success without a failing call, by what `ReconcileSingle` promises of its log. */
  lemma InstanceAttemptOutcome(base: Store, before: seq<Op>, after: seq<Op>, s: Single, generated: string,
                               gateway: bool)
    requires Conforms(before, after, CleanPass(Run(base, before), s, generated, gateway), true, true)
    ensures SingleUp(Run(base, before), Run(base, after), s, generated, gateway)
  {
    hide SinglePlan, Acceptable, SingleUp, Revision, Run, Thinned;
    var b := Run(base, before);
    PlanSucceeds(s, generated, gateway, Revision(b, s.ns, s.name));
    RunConcat(base, before, CleanPass(b, s, generated, gateway).ops);
    SingleOutcome(b, s, generated, gateway);
  }
}

/**
 The Cluster and Single reconcilers, one method for each function of the source. Every API call is a step that
 may fail; the objects have been rendered by `ClusterObjects`.
 */
module Reconciler {
  import opened Wrappers
  import opened Kube
  import opened Server
  import opened Resources
  import opened Rules
  import opened Validate
  import opened Builders
  import opened ClusterObjects
  import opened Plans

  // ----- Single objects -----

  /** Applies what is wanted, deletes what is not. */
  method SyncObject(server: ApiServer, k: Key, want: Option<Fields>) returns (out: Outcome)
    requires server.Valid() && !k.kind.HTTPRoute?
    modifies server`store, server`log, server`faults
    ensures server.Valid() && server.faults >= old(server.faults)
    ensures Conforms(old(server.log), server.log, One(k, want), out.Pass?, server.faults == old(server.faults))
  {
    if want.Some? {
      out := server.Write(Put(k, want.value));
    } else {
      out := server.DeleteIfPresent(k);
    }
  }

  /** Deletes what a lookup found; a failed lookup is not an error. */
  method RemoveIfSeen(server: ApiServer, k: Key) returns (out: Outcome)
    requires server.Valid()
    modifies server`store, server`log, server`faults
    ensures server.Valid() && server.faults >= old(server.faults)
    ensures Conforms(old(server.log), server.log, Gone(k), out.Pass?, server.faults == old(server.faults))
  {
    var seen := server.Get(k);
    if seen.Ok? && seen.value.Some? {
      out := server.Write(Discard(k));
    } else {
      if seen.Ok? {
        server.NoteAbsent(Discard(k));
      }
      out := Pass;
    }
  }

  /** Applied when wanted, and otherwise left alone. */
  method ApplyIfWanted(server: ApiServer, k: Key, want: Option<Fields>) returns (out: Outcome)
    requires server.Valid() && !k.kind.HTTPRoute?
    modifies server`store, server`log, server`faults
    ensures server.Valid() && server.faults >= old(server.faults)
    ensures Conforms(old(server.log), server.log, Kept(k, want), out.Pass?, server.faults == old(server.faults))
  {
    if want.Some? {
      out := server.Write(Put(k, want.value));
    } else {
      out := Pass;
    }
  }

  /** Looks for the generated key's Secret and creates it when absent; a conflict means it exists by now. */
  method ResolveEncryptionSecret(server: ApiServer, ns: string, name: string,
                                 want: Option<Fields>) returns (out: Outcome)
    requires server.Valid()
    modifies server`store, server`log, server`faults
    ensures server.Valid() && server.faults >= old(server.faults)
    ensures Conforms(old(server.log), server.log,
                     EncryptionPart(ns, name, want), out.Pass?, server.faults == old(server.faults))
  {
    if want.None? {
      return Pass;
    }
    var k := Key(Secret, ns, EncryptionSecret(name));
    var seen := server.Get(k);
    if seen.Err? {
      return Fail(seen.error);
    }
    if seen.value.Some? {
      server.NotePresent(k, want.value);
      out := Pass;
    } else {
      out := server.Write(Create(k, want.value));
    }
  }

  method ReadRevision(server: ApiServer, ns: string, name: string) returns (r: Result<string>)
    modifies server`faults
    ensures server.faults >= old(server.faults) && (r.Ok? <==> server.faults == old(server.faults))
    ensures r.Ok? ==> r.value == Revision(server.store, ns, name)
  {
    var secret := server.Get(Key(Secret, ns, InstanceAiSecret(name)));
    if secret.Err? {
      return Err(secret.error);
    }
    r := Ok(if secret.value.Some? then NatText(secret.value.value.version) else "none");
  }

  /** Applied for more than one main, removed otherwise; nothing while the Istio group is not served. */
  method SyncDestinationRule(server: ApiServer, k: Key, want: Option<Fields>) returns (out: Outcome)
    requires server.Valid() && k.kind.DestinationRule?
    modifies server`store, server`log, server`faults
    ensures server.Valid() && server.faults >= old(server.faults)
    ensures Conforms(old(server.log), server.log,
                     RulePart(k, want, server.istio), out.Pass?, server.faults == old(server.faults))
  {
    var _, served := server.Discover();
    if !served {
      out := Pass;
    } else if want.Some? {
      out := server.Write(Put(k, want.value));
    } else {
      out := RemoveIfSeen(server, k);
    }
  }

  // ----- Networking -----

  /** Writes the route, then the redirect route or the removal of a stale one. */
  method ApplyHttpRoute(server: ApiServer, ns: string, name: string, s: Surface) returns (out: Outcome)
    requires server.Valid() && s.route.Some?
    modifies server`store, server`log, server`faults
    ensures server.Valid() && server.faults >= old(server.faults)
    ensures Conforms(old(server.log), server.log,
                     RoutePart(ns, name, s, server.gateway), out.Pass?, server.faults == old(server.faults))
  {
    hide Conforms, Then, Run;
    var primary, second := Key(HTTPRoute, ns, name), Key(HTTPRoute, ns, RedirectName(name));
    ghost var start, startFaults := server.log, server.faults;
    out := server.Write(Put(primary, s.route.value));
    if !server.gateway {
      RefusedConforms(start, RoutePart(ns, name, s, false), server.faults == startFaults);
      return;
    }
    ghost var log, faults := server.log, server.faults;
    ConformsWrite(start, log, Put(primary, s.route.value), out.Pass?, faults == startFaults);
    if out.Fail? {
      ConformsStop(start, log, Loose(primary, s.route), Loose(second, s.redirect), faults == startFaults);
      return;
    }
    if s.redirect.Some? {
      out := server.Write(Put(second, s.redirect.value));
      ConformsWrite(log, server.log, Put(second, s.redirect.value), out.Pass?, server.faults == faults);
    } else {
      out := RemoveIfSeen(server, second);
    }
    ConformsThen(start, log, server.log, Loose(primary, s.route), Loose(second, s.redirect), out.Pass?,
                 faults == startFaults, server.faults == faults);
  }

  /** A refused write is the planned failure of a plan without writes. */
  lemma RefusedConforms(log: seq<Op>, p: Plan, clean: bool)
    requires p == Plan([], false)
    ensures Conforms(log, log, p, false, clean)
  {}

  /** Best-effort removal of a role's two routes. Nothing is probed while the Gateway API is not served. */
  method DeleteHttpRoute(server: ApiServer, ns: string, name: string) returns (out: Outcome)
    requires server.Valid()
    modifies server`store, server`log, server`faults
    ensures server.Valid() && server.faults >= old(server.faults)
    ensures Conforms(old(server.log), server.log,
                     RoutePart(ns, name, NO_SURFACE, server.gateway), out.Pass?, server.faults == old(server.faults))
  {
    hide Conforms, Then, Run, Gone;
    ghost var start, startFaults := server.log, server.faults;
    var served, _ := server.Discover();
    if !served {
      UnservedConforms(start, ns, name, server.gateway, server.faults == startFaults);
      return Pass;
    }
    var primary, second := Key(HTTPRoute, ns, name), Key(HTTPRoute, ns, RedirectName(name));
    ghost var probed := server.faults;
    out := RemoveIfSeen(server, primary);
    ghost var log, faults := server.log, server.faults;
    if out.Fail? {
      ConformsStop(start, log, Gone(primary), Gone(second), faults == probed);
      LessClean(start, log, RoutePart(ns, name, NO_SURFACE, true), false, faults == probed, faults == startFaults);
      return;
    }
    out := RemoveIfSeen(server, second);
    ConformsThen(start, log, server.log, Gone(primary), Gone(second), out.Pass?,
                 faults == probed, server.faults == faults);
    LessClean(start, server.log, RoutePart(ns, name, NO_SURFACE, true), out.Pass?,
              faults == probed && server.faults == faults, server.faults == startFaults);
  }

  lemma LessClean(a: seq<Op>, b: seq<Op>, p: Plan, ok: bool, clean: bool, cleaner: bool)
    requires Conforms(a, b, p, ok, clean) && (cleaner ==> clean)
    ensures Conforms(a, b, p, ok, cleaner)
  {}

  /** Without a look at the routes nothing is removed; that is a fault only if the group is served after all. */
  lemma UnservedConforms(log: seq<Op>, ns: string, name: string, gateway: bool, clean: bool)
    requires clean ==> !gateway
    ensures Conforms(log, log, RoutePart(ns, name, NO_SURFACE, gateway), true, clean)
  {}

  lemma OnlyRemovals(ns: string, name: string, gateway: bool)
    ensures RoutePart(ns, name, NO_SURFACE, gateway).ok
    ensures forall op | op in RoutePart(ns, name, NO_SURFACE, gateway).ops :: !Required(op)
  {}

  /** A failure to delete stale routes is ignored. */
  method ApplyOrDeleteRoute(server: ApiServer, ns: string, name: string, s: Surface) returns (out: Outcome)
    requires server.Valid() && SurfaceOk(s)
    modifies server`store, server`log, server`faults
    ensures server.Valid() && server.faults >= old(server.faults)
    ensures Conforms(old(server.log), server.log,
                     RoutePart(ns, name, s, server.gateway), out.Pass?, server.faults == old(server.faults))
    ensures s.route.None? ==> out.Pass?
  {
    if s.route.Some? {
      out := ApplyHttpRoute(server, ns, name, s);
    } else {
      ghost var start, faults := server.log, server.faults;
      var removed := DeleteHttpRoute(server, ns, name);
      OnlyRemovals(ns, name, server.gateway);
      ConformsIgnored(start, server.log, RoutePart(ns, name, NO_SURFACE, server.gateway), removed.Pass?,
                      server.faults == faults);
      out := Pass;
    }
  }

  method ReconcileRoleNetworking(server: ApiServer, ns: string, name: string, s: Surface) returns (out: Outcome)
    requires server.Valid() && SurfaceOk(s)
    modifies server`store, server`log, server`faults
    ensures server.Valid() && server.faults >= old(server.faults)
    ensures Conforms(old(server.log), server.log,
                     NetworkingPart(ns, name, s, server.gateway), out.Pass?, server.faults == old(server.faults))
    ensures s.conflict ==> out == Fail(ConflictingNetworking)
  {
    if s.conflict {
      return Fail(ConflictingNetworking);
    }
    ghost var first, rest := One(Key(Ingress, ns, name), s.ingress), RoutePart(ns, name, s, server.gateway);
    out := SyncObject(server, Key(Ingress, ns, name), s.ingress);
    if out.Fail? {
      ConformsStop(old(server.log), server.log, first, rest, server.faults == old(server.faults));
      return;
    }
    ghost var mid, faults := server.log, server.faults;
    out := ApplyOrDeleteRoute(server, ns, name, s);
    ConformsThen(old(server.log), mid, server.log, first, rest, out.Pass?,
                 faults == old(server.faults), server.faults == faults);
  }

  // ----- Roles -----

  /** The writes between two states of the log leave the instance-ai revision alone. */
  lemma RevisionStable(base: Store, before: seq<Op>, after: seq<Op>, ns: string, name: string)
    requires before <= after && Keyed(after[|before|..])
    requires forall op | op in after[|before|..] :: op.key != Key(Secret, ns, InstanceAiSecret(name))
    ensures Revision(Run(base, after), ns, name) == Revision(Run(base, before), ns, name)
  {
    RunConcat(base, before, after[|before|..]);
    assert before + after[|before|..] == after;
    RunFrame(Run(base, before), after[|before|..], Key(Secret, ns, InstanceAiSecret(name)));
  }

  /** A Deployment and its Service, applied in this order. */
  method ApplyWorkload(server: ApiServer, ns: string, name: string, deployment: Fields,
                       service: Fields) returns (out: Outcome)
    requires server.Valid()
    modifies server`store, server`log, server`faults
    ensures server.Valid() && server.faults >= old(server.faults)
    ensures Conforms(old(server.log), server.log,
                     WorkloadPart(ns, name, deployment, service), out.Pass?, server.faults == old(server.faults))
  {
    ghost var start, startFaults := server.log, server.faults;
    ghost var p0 := One(Key(Deployment, ns, name), Some(deployment));
    ghost var p1 := One(Key(Service, ns, name), Some(service));
    ghost var done, log, faults := Plan([], true), start, startFaults;
    out := SyncObject(server, Key(Deployment, ns, name), Some(deployment));
    ConformsStep(start, log, server.log, done, p0, p1, out.Pass?, faults == startFaults, server.faults == faults);
    if out.Fail? {
      return;
    }
    done, log, faults := Then(done, p0), server.log, server.faults;
    out := SyncObject(server, Key(Service, ns, name), Some(service));
    ConformsThen(start, log, server.log, done, p1, out.Pass?, faults == startFaults, server.faults == faults);
  }

  /** A DestinationRule, then the role's networking. */
  method ApplySurface(server: ApiServer, ns: string, name: string, rule: Option<Fields>,
                      s: Surface) returns (out: Outcome)
    requires server.Valid() && SurfaceOk(s)
    modifies server`store, server`log, server`faults
    ensures server.Valid() && server.faults >= old(server.faults)
    ensures Conforms(old(server.log), server.log,
                     Then(RulePart(Key(DestinationRule, ns, name), rule, server.istio),
                          NetworkingPart(ns, name, s, server.gateway)),
                     out.Pass?, server.faults == old(server.faults))
  {
    hide Conforms, Then, WorkloadPart, RulePart, NetworkingPart, Kept, One, Run;
    ghost var start, startFaults := server.log, server.faults;
    ghost var p0 := RulePart(Key(DestinationRule, ns, name), rule, server.istio);
    ghost var p1 := NetworkingPart(ns, name, s, server.gateway);
    out := SyncDestinationRule(server, Key(DestinationRule, ns, name), rule);
    if out.Fail? {
      ConformsStop(start, server.log, p0, p1, server.faults == startFaults);
      return;
    }
    ghost var log, faults := server.log, server.faults;
    out := ReconcileRoleNetworking(server, ns, name, s);
    ConformsThen(start, log, server.log, p0, p1, out.Pass?, faults == startFaults, server.faults == faults);
  }

  /** The main role's objects once the revision is known: workload, DestinationRule, networking. */
  method ApplyMain(server: ApiServer, ns: string, name: string, deployment: Fields, service: Fields,
                   rule: Option<Fields>, s: Surface) returns (out: Outcome)
    requires server.Valid() && SurfaceOk(s)
    modifies server`store, server`log, server`faults
    ensures server.Valid() && server.faults >= old(server.faults)
    ensures Conforms(old(server.log), server.log,
                     MainRest(ns, name, deployment, service, rule, s, Cloud(server.gateway, server.istio)),
                     out.Pass?, server.faults == old(server.faults))
  {
    hide Conforms, Then, WorkloadPart, RulePart, NetworkingPart, Kept, One, Run;
    ghost var start, startFaults := server.log, server.faults;
    ghost var p0 := WorkloadPart(ns, name, deployment, service);
    ghost var p1 := Then(RulePart(Key(DestinationRule, ns, name), rule, server.istio),
                         NetworkingPart(ns, name, s, server.gateway));
    out := ApplyWorkload(server, ns, name, deployment, service);
    if out.Fail? {
      ConformsStop(start, server.log, p0, p1, server.faults == startFaults);
      return;
    }
    ghost var log, faults := server.log, server.faults;
    out := ApplySurface(server, ns, name, rule, s);
    ConformsThen(start, log, server.log, p0, p1, out.Pass?, faults == startFaults, server.faults == faults);
  }

  /** The main volume, then the revision read, then everything the revision is stamped on. */
  method ReconcileMain(server: ApiServer, ns: string, name: string, o: Objects) returns (out: Outcome)
    requires server.Valid() && SurfaceOk(o.main)
    modifies server`store, server`log, server`faults
    ensures server.Valid() && server.faults >= old(server.faults)
    ensures Conforms(old(server.log), server.log,
                     MainPart(ns, name, o, Cloud(server.gateway, server.istio), Revision(old(server.store), ns, name)),
                     out.Pass?, server.faults == old(server.faults))
  {
    hide Conforms, Then, MainRest, Run, Revision, SurfaceOk;
    ghost var start, startFaults := server.log, server.faults;
    ghost var p0 := Kept(Key(PersistentVolumeClaim, ns, MainPvc(name)), o.mainData);
    ghost var p1 := MainRest(ns, MainName(name), o.mainDeployment(Revision(server.store, ns, name)), o.mainService,
                             o.rule, o.main, Cloud(server.gateway, server.istio));
    out := ApplyIfWanted(server, Key(PersistentVolumeClaim, ns, MainPvc(name)), o.mainData);
    if out.Fail? {
      ConformsStop(start, server.log, p0, p1, server.faults == startFaults);
      return;
    }
    ghost var log, faults := server.log, server.faults;
    ConformsWithin(start, log, p0, true, faults == startFaults);
    RevisionStable(server.base, start, server.log, ns, name);
    var revision := ReadRevision(server, ns, name);
    if revision.Err? {
      ConformsIdle(start, log, p0, p1, faults == startFaults);
      return Fail(revision.error);
    }
    out := ApplyMain(server, ns, MainName(name), o.mainDeployment(revision.value), o.mainService, o.rule, o.main);
    ConformsThen(start, log, server.log, p0, p1, out.Pass?, faults == startFaults, server.faults == faults);
  }

  /** The worker Deployment, then the autoscaler or its removal. */
  method ReconcileWorkers(server: ApiServer, ns: string, name: string, o: Objects) returns (out: Outcome)
    requires server.Valid()
    modifies server`store, server`log, server`faults
    ensures server.Valid() && server.faults >= old(server.faults)
    ensures Conforms(old(server.log), server.log,
                     WorkerPart(ns, name, o), out.Pass?, server.faults == old(server.faults))
  {
    hide Conforms, Then, One, Run;
    ghost var start, startFaults := server.log, server.faults;
    ghost var p0 := One(Key(Deployment, ns, WorkerName(name)), Some(o.worker));
    ghost var p1 := One(Key(HorizontalPodAutoscaler, ns, WorkerName(name)), o.hpa);
    out := SyncObject(server, Key(Deployment, ns, WorkerName(name)), Some(o.worker));
    if out.Fail? {
      ConformsStop(start, server.log, p0, p1, server.faults == startFaults);
      return;
    }
    ghost var log, faults := server.log, server.faults;
    out := SyncObject(server, Key(HorizontalPodAutoscaler, ns, WorkerName(name)), o.hpa);
    ConformsThen(start, log, server.log, p0, p1, out.Pass?, faults == startFaults, server.faults == faults);
  }

  /** A delete whose failure is ignored, whatever it is; a missing object answers with an error too. */
  method TryDelete(server: ApiServer, k: Key)
    requires server.Valid()
    modifies server`store, server`log, server`faults
    ensures server.Valid() && server.faults >= old(server.faults)
    ensures Conforms(old(server.log), server.log, Gone(k), true, server.faults == old(server.faults))
  {
    var _ := server.Write(Discard(k));
  }

  /** Tears the webhook role down: Deployment, Service, Ingress and routes, each as far as it goes. */
  method RemoveWebhooks(server: ApiServer, ns: string, name: string)
    requires server.Valid()
    modifies server`store, server`log, server`faults
    ensures server.Valid() && server.faults >= old(server.faults)
    ensures Conforms(old(server.log), server.log,
                     RoleAbsent(ns, name, server.gateway), true, server.faults == old(server.faults))
  {
    hide Conforms, Then, Gone, RoutePart, Run;
    ghost var start, startFaults := server.log, server.faults;
    ghost var p0, p1 := Gone(Key(Deployment, ns, name)), Gone(Key(Service, ns, name));
    ghost var p2, p3 := Gone(Key(Ingress, ns, name)), RoutePart(ns, name, NO_SURFACE, server.gateway);
    TryDelete(server, Key(Deployment, ns, name));
    ghost var log1, faults1 := server.log, server.faults;
    TryDelete(server, Key(Service, ns, name));
    ghost var log2, faults2 := server.log, server.faults;
    ConformsThen(start, log1, log2, p0, p1, true, faults1 == startFaults, faults2 == faults1);
    TryDelete(server, Key(Ingress, ns, name));
    ghost var log3, faults3 := server.log, server.faults;
    var removed := DeleteHttpRoute(server, ns, name);
    OnlyRemovals(ns, name, server.gateway);
    ConformsIgnored(log3, server.log, p3, removed.Pass?, server.faults == faults3);
    ConformsThen(log2, log3, server.log, p2, p3, true, faults3 == faults2, server.faults == faults3);
    ConformsThen(start, log2, server.log, Then(p0, p1), Then(p2, p3), true,
                 faults2 == startFaults, server.faults == faults2);
  }

  /** The webhook role: workload and networking when configured, otherwise its removal. */
  method ReconcileWebhooks(server: ApiServer, ns: string, name: string, o: Objects) returns (out: Outcome)
    requires server.Valid() && (o.webhook.Some? ==> SurfaceOk(o.webhook.value.surface))
    modifies server`store, server`log, server`faults
    ensures server.Valid() && server.faults >= old(server.faults)
    ensures Conforms(old(server.log), server.log,
                     WebhookPart(ns, name, o.webhook, server.gateway), out.Pass?, server.faults == old(server.faults))
    ensures o.webhook.None? ==> out.Pass?
  {
    hide Conforms, Then, WorkloadPart, NetworkingPart, RoleAbsent, Run;
    if o.webhook.None? {
      RemoveWebhooks(server, ns, WebhookName(name));
      return Pass;
    }
    var wh := o.webhook.value;
    ghost var start, startFaults := server.log, server.faults;
    ghost var p0 := WorkloadPart(ns, WebhookName(name), wh.deployment, wh.service);
    ghost var p1 := NetworkingPart(ns, WebhookName(name), wh.surface, server.gateway);
    out := ApplyWorkload(server, ns, WebhookName(name), wh.deployment, wh.service);
    if out.Fail? {
      ConformsStop(start, server.log, p0, p1, server.faults == startFaults);
      return;
    }
    ghost var log, faults := server.log, server.faults;
    out := ReconcileRoleNetworking(server, ns, WebhookName(name), wh.surface);
    ConformsThen(start, log, server.log, p0, p1, out.Pass?, faults == startFaults, server.faults == faults);
  }

  // ----- Whole passes -----

  /** The generated key, then the volumes every role shares. */
  method ApplyShared(server: ApiServer, ns: string, name: string, o: Objects) returns (out: Outcome)
    requires server.Valid()
    modifies server`store, server`log, server`faults
    ensures server.Valid() && server.faults >= old(server.faults)
    ensures Conforms(old(server.log), server.log,
                     SharedPart(ns, name, o), out.Pass?, server.faults == old(server.faults))
  {
    hide Conforms, Then, EncryptionPart, Kept, Run;
    ghost var start, startFaults := server.log, server.faults;
    ghost var p0 := EncryptionPart(ns, name, o.encryption);
    ghost var p1 := Kept(Key(PersistentVolumeClaim, ns, NodesPvc(name)), o.nodes);
    ghost var p2 := Kept(Key(PersistentVolumeClaim, ns, BinaryPvc(name)), o.binary);
    out := ResolveEncryptionSecret(server, ns, name, o.encryption);
    if out.Fail? {
      ConformsStop(start, server.log, p0, Then(p1, p2), server.faults == startFaults);
      return;
    }
    ghost var log, faults := server.log, server.faults;
    out := ApplyIfWanted(server, Key(PersistentVolumeClaim, ns, NodesPvc(name)), o.nodes);
    ConformsStep(start, log, server.log, p0, p1, p2, out.Pass?, faults == startFaults, server.faults == faults);
    if out.Fail? {
      return;
    }
    log, faults := server.log, server.faults;
    out := ApplyIfWanted(server, Key(PersistentVolumeClaim, ns, BinaryPvc(name)), o.binary);
    ConformsThen(start, log, server.log, Then(p0, p1), p2, out.Pass?, faults == startFaults, server.faults == faults);
  }

  /** Main, then workers, then webhooks. */
  method ReconcileRoles(server: ApiServer, ns: string, name: string, o: Objects) returns (out: Outcome)
    requires server.Valid() && SurfaceOk(o.main) && (o.webhook.Some? ==> SurfaceOk(o.webhook.value.surface))
    modifies server`store, server`log, server`faults
    ensures server.Valid() && server.faults >= old(server.faults)
    ensures Conforms(old(server.log), server.log,
                     RolesPart(ns, name, o, Cloud(server.gateway, server.istio), Revision(old(server.store), ns, name)),
                     out.Pass?, server.faults == old(server.faults))
  {
    hide Conforms, Then, MainPart, WorkerPart, WebhookPart, Run, Revision, SurfaceOk;
    ghost var start, startFaults := server.log, server.faults;
    ghost var p0 := MainPart(ns, name, o, Cloud(server.gateway, server.istio), Revision(server.store, ns, name));
    ghost var p1, p2 := WorkerPart(ns, name, o), WebhookPart(ns, name, o.webhook, server.gateway);
    out := ReconcileMain(server, ns, name, o);
    if out.Fail? {
      ConformsStop(start, server.log, p0, Then(p1, p2), server.faults == startFaults);
      return;
    }
    ghost var log, faults := server.log, server.faults;
    out := ReconcileWorkers(server, ns, name, o);
    ConformsStep(start, log, server.log, p0, p1, p2, out.Pass?, faults == startFaults, server.faults == faults);
    if out.Fail? {
      return;
    }
    log, faults := server.log, server.faults;
    out := ReconcileWebhooks(server, ns, name, o);
    ConformsThen(start, log, server.log, Then(p0, p1), p2, out.Pass?, faults == startFaults, server.faults == faults);
  }

  /** The event, and then the status as the very last write. */
  method Report(server: ApiServer, k: Key, status: Fields) returns (out: Outcome)
    requires server.Valid() && !k.kind.HTTPRoute?
    modifies server`store, server`log, server`faults
    ensures server.Valid() && server.faults >= old(server.faults)
    ensures Conforms(old(server.log), server.log, One(k, Some(status)), out.Pass?, server.faults == old(server.faults))
  {
    out := server.Publish();
    if out.Pass? {
      out := server.Write(Put(k, status));
    }
  }

  /** The shared part leaves the instance-ai revision alone. */
  lemma SharedKeepsRevision(base: Store, before: seq<Op>, after: seq<Op>, ns: string, name: string, o: Objects,
                            ok: bool,
                            clean: bool)
    requires Conforms(before, after, SharedPart(ns, name, o), ok, clean)
    ensures Revision(Run(base, after), ns, name) == Revision(Run(base, before), ns, name)
  {
    hide Revision, Run, Thinned;
    EncryptionSecretApart(name);
    ConformsWithin(before, after, SharedPart(ns, name, o), ok, clean);
    RevisionStable(base, before, after, ns, name);
  }

  lemma EncryptionSecretApart(name: string)
    ensures EncryptionSecret(name) != InstanceAiSecret(name)
  {
    assert EncryptionSecret(name)[|EncryptionSecret(name)| - 1] == 'y';
    assert InstanceAiSecret(name)[|InstanceAiSecret(name)| - 1] == 'i';
  }

  method ApplyClusterObjects(server: ApiServer, ns: string, name: string, o: Objects) returns (out: Outcome)
    requires server.Valid() && SurfaceOk(o.main) && (o.webhook.Some? ==> SurfaceOk(o.webhook.value.surface))
    modifies server`store, server`log, server`faults
    ensures server.Valid() && server.faults >= old(server.faults)
    ensures Conforms(old(server.log), server.log,
                     ClusterPass(ns, name, o, Cloud(server.gateway, server.istio),
                                 Revision(old(server.store), ns, name)),
                     out.Pass?, server.faults == old(server.faults))
  {
    hide Conforms, Then, SharedPart, RolesPart, One, Run, Revision, SurfaceOk;
    ghost var start, startFaults := server.log, server.faults;
    ghost var p0 := SharedPart(ns, name, o);
    ghost var p1 := RolesPart(ns, name, o, Cloud(server.gateway, server.istio), Revision(server.store, ns, name));
    ghost var p2 := One(Key(ClusterResource, ns, name), Some(o.status));
    out := ApplyShared(server, ns, name, o);
    if out.Fail? {
      ConformsStop(start, server.log, p0, Then(p1, p2), server.faults == startFaults);
      return;
    }
    ghost var log, faults := server.log, server.faults;
    SharedKeepsRevision(server.base, start, log, ns, name, o, true, faults == startFaults);
    out := ReconcileRoles(server, ns, name, o);
    ConformsStep(start, log, server.log, p0, p1, p2, out.Pass?, faults == startFaults, server.faults == faults);
    if out.Fail? {
      return;
    }
    log, faults := server.log, server.faults;
    out := Report(server, Key(ClusterResource, ns, name), o.status);
    ConformsThen(start, log, server.log, Then(p0, p1), p2, out.Pass?, faults == startFaults, server.faults == faults);
  }

  /** One reconcile of a Cluster: nothing is written for a spec that fails validation. */
  method ReconcileCluster(server: ApiServer, c: Cluster, generated: string) returns (out: Outcome)
    requires server.Valid()
    modifies server`store, server`log, server`faults
    ensures server.Valid() && server.faults >= old(server.faults)
    ensures Conforms(old(server.log), server.log,
                     ClusterPlan(c, generated, Cloud(server.gateway, server.istio),
                                 Revision(old(server.store), c.ns, c.name)),
                     out.Pass?, server.faults == old(server.faults))
    ensures ClusterError(c).Some? ==> out == Fail(ClusterError(c).value)
    ensures !LegalCluster(c) ==> out.Fail? && server.log == old(server.log)
  {
    hide LegalCluster, LegalDatabase, LegalServer, LegalEnvs, ClusterPass, ClusterError, RenderCluster, Revision,
         SurfaceOk;
    out := ValidateCluster(c);
    if out.Fail? {
      return;
    }
    ClusterSurfaces(c, generated);
    var o := RenderCluster(c, generated);
    out := ApplyClusterObjects(server, c.ns, c.name, o);
  }

  // ----- Single -----

  /** A Single's data volume, workload and networking. */
  method ApplyChildren(server: ApiServer, ns: string, name: string, o: SingleObjects) returns (out: Outcome)
    requires server.Valid() && SurfaceOk(o.surface)
    modifies server`store, server`log, server`faults
    ensures server.Valid() && server.faults >= old(server.faults)
    ensures Conforms(old(server.log), server.log,
                     ChildrenPart(ns, name, o, server.gateway, Revision(old(server.store), ns, name)),
                     out.Pass?, server.faults == old(server.faults))
  {
    hide Conforms, Then, Kept, WorkloadPart, NetworkingPart, Run, Revision, SurfaceOk;
    ghost var start, startFaults := server.log, server.faults;
    var revision := ReadRevision(server, ns, name);
    ghost var p0 := Kept(Key(PersistentVolumeClaim, ns, name + "-data"), o.data);
    ghost var p1 := WorkloadPart(ns, name, o.deployment(Revision(server.store, ns, name)), o.service);
    ghost var p2 := NetworkingPart(ns, name, o.surface, server.gateway);
    if revision.Err? {
      ConformsNothing(start, Then(p0, Then(p1, p2)));
      return Fail(revision.error);
    }
    out := ApplyIfWanted(server, Key(PersistentVolumeClaim, ns, name + "-data"), o.data);
    if out.Fail? {
      ConformsStop(start, server.log, p0, Then(p1, p2), server.faults == startFaults);
      return;
    }
    ghost var log, faults := server.log, server.faults;
    out := ApplyWorkload(server, ns, name, o.deployment(revision.value), o.service);
    ConformsStep(start, log, server.log, p0, p1, p2, out.Pass?, faults == startFaults, server.faults == faults);
    if out.Fail? {
      return;
    }
    log, faults := server.log, server.faults;
    out := ReconcileRoleNetworking(server, ns, name, o.surface);
    ConformsThen(start, log, server.log, Then(p0, p1), p2, out.Pass?, faults == startFaults, server.faults == faults);
  }

  method ApplySingleObjects(server: ApiServer, ns: string, name: string, o: SingleObjects) returns (out: Outcome)
    requires server.Valid() && SurfaceOk(o.surface)
    modifies server`store, server`log, server`faults
    ensures server.Valid() && server.faults >= old(server.faults)
    ensures Conforms(old(server.log), server.log,
                     SinglePass(ns, name, o, server.gateway, Revision(old(server.store), ns, name)),
                     out.Pass?, server.faults == old(server.faults))
  {
    hide Conforms, Then, EncryptionPart, ChildrenPart, One, Run, Revision, SurfaceOk;
    ghost var start, startFaults := server.log, server.faults;
    ghost var p0 := EncryptionPart(ns, name, o.encryption);
    ghost var p1 := ChildrenPart(ns, name, o, server.gateway, Revision(server.store, ns, name));
    ghost var p2 := One(Key(SingleResource, ns, name), Some(o.status));
    out := ResolveEncryptionSecret(server, ns, name, o.encryption);
    if out.Fail? {
      ConformsStop(start, server.log, p0, Then(p1, p2), server.faults == startFaults);
      return;
    }
    ghost var log, faults := server.log, server.faults;
    EncryptionKeepsRevision(server.base, start, log, ns, name, o.encryption, true, faults == startFaults);
    out := ApplyChildren(server, ns, name, o);
    ConformsStep(start, log, server.log, p0, p1, p2, out.Pass?, faults == startFaults, server.faults == faults);
    if out.Fail? {
      return;
    }
    log, faults := server.log, server.faults;
    out := Report(server, Key(SingleResource, ns, name), o.status);
    ConformsThen(start, log, server.log, Then(p0, p1), p2, out.Pass?, faults == startFaults, server.faults == faults);
  }

  /** One reconcile of a Single: nothing is written for a spec that fails validation. */
  method ReconcileSingle(server: ApiServer, s: Single, generated: string) returns (out: Outcome)
    requires server.Valid()
    modifies server`store, server`log, server`faults
    ensures server.Valid() && server.faults >= old(server.faults)
    ensures Conforms(old(server.log), server.log,
                     SinglePlan(s, generated, server.gateway, Revision(old(server.store), s.ns, s.name)),
                     out.Pass?, server.faults == old(server.faults))
    ensures SingleError(s).Some? ==> out == Fail(SingleError(s).value)
    ensures !LegalSingle(s) ==> out.Fail? && server.log == old(server.log)
  {
    hide LegalSingle, LegalDatabase, SinglePass, SingleError, RenderSingle, Revision, SurfaceOk;
    SingleErrorNames(s);
    var invalid := SingleError(s);
    if invalid.Some? {
      return Fail(invalid.value);
    }
    SingleSurface(s, generated);
    out := ApplySingleObjects(server, s.ns, s.name, RenderSingle(s, generated));
  }

  /** The generated key is another Secret than the instance-ai one. */
  lemma EncryptionKeepsRevision(base: Store, before: seq<Op>, after: seq<Op>, ns: string, name: string,
                                want: Option<Fields>, ok: bool,
                                clean: bool)
    requires Conforms(before, after, EncryptionPart(ns, name, want), ok, clean)
    ensures Revision(Run(base, after), ns, name) == Revision(Run(base, before), ns, name)
  {
    hide Revision, Run, Thinned;
    EncryptionSecretApart(name);
    ConformsWithin(before, after, EncryptionPart(ns, name, want), ok, clean);
    RevisionStable(base, before, after, ns, name);
  }
}

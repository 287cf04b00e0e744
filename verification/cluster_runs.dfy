/**
 Runs of Cluster passes: any sequence of writes that passes over any specs of one Cluster may have made,
 completely or in part. The current pass decides the managed objects; volumes, the generated key and
 readiness obey their own rules in every run.
 */
module ClusterRuns {
  import opened Wrappers
  import opened Kube
  import opened Server
  import opened Resources
  import opened Validate
  import opened Builders
  import opened ClusterObjects
  import opened Plans
  import opened ClusterOrder
  import opened Convergence

  /** Every write belongs to a pass over some spec of this Cluster, under some served groups and revision. */
  ghost predicate OwnWrites(ns: string, name: string, ops: seq<Op>) {
    forall op | op in ops :: exists c: Cluster, g: string, cloud: Cloud, revision: string ::
      c.ns == ns && c.name == name && op in ClusterPlan(c, g, cloud, revision).ops
  }

  lemma PlanShape(c: Cluster, g: string, cloud: Cloud, revision: string)
    ensures Ascending(c.ns, c.name, ClusterPlan(c, g, cloud, revision).ops, 0, 18)
  {
    hide ClusterPass, RenderCluster, ClusterError, Ascending;
    AscendingNothing(c.ns, c.name, 0, 18);
    ClusterAscends(c.ns, c.name, RenderCluster(c, g), cloud, revision);
  }

  lemma OwnWritesShape(ns: string, name: string, ops: seq<Op>)
    requires OwnWrites(ns, name, ops)
    ensures forall op | op in ops :: Mild(op) && Own(ns, name, op.key)
  {
    hide ClusterPlan, Own, Rank;
    forall op | op in ops ensures Mild(op) && Own(ns, name, op.key) {
      var c: Cluster, g: string, cloud: Cloud, revision: string :| c.ns == ns && c.name == name
          && op in ClusterPlan(c, g, cloud, revision).ops;
      PlanShape(c, g, cloud, revision);
    }
  }

  // ----- Independence of the past -----

  /** Whether the object is there, and what this manager declares in it. */
  function View(s: Store, k: Key): Option<Fields> {
    if k in s.objects then Some(s.objects[k].Owned()) else None
  }

  /** Two stores that agree on the instance-ai revision agree on every managed object after one pass. */
  lemma HistoryIndependent(s: Store, t: Store, c: Cluster, g: string, h: string, cloud: Cloud)
    requires Acceptable(c, cloud.gateway) && Revision(s, c.ns, c.name) == Revision(t, c.ns, c.name)
    ensures forall e | e in ExpectedOf(c, cloud, Revision(s, c.ns, c.name)) ::
              View(Run(s, CleanPass(s, c, g, cloud).ops), e.key) == View(Run(t, CleanPass(t, c, h, cloud).ops), e.key)
              == e.want
  {
    hide ExpectedOf, CleanPass, Run, Acceptable, Revision;
    ClusterConverges(s, c, g, cloud);
    ClusterConverges(t, c, h, cloud);
  }

  /** The kinds a pass both applies and removes, as far as their API group is served. */
  predicate Managed(kind: Kind, cloud: Cloud) {
    kind.Deployment? || kind.Service? || kind.Ingress? || kind.HorizontalPodAutoscaler?
    || (kind.HTTPRoute? && cloud.gateway) || (kind.DestinationRule? && cloud.istio)
  }

  lemma ExpectedComplete(ns: string, name: string, o: Objects, cloud: Cloud, revision: string, k: Key)
    requires Own(ns, name, k) && Managed(k.kind, cloud)
    ensures exists e :: e in Expected(ns, name, o, cloud, revision) && e.key == k
  {
    hide MainExpected, WorkerExpected, WebhookExpected, Rank, Own;
    var place := Rank(name, k);
    OwnPlace(ns, name, k);
    if place < 10 {
      MainComplete(ns, name, o, cloud, revision, k);
    } else if place < 12 {
      WorkerComplete(ns, name, o, cloud, k);
    } else {
      WebhookComplete(ns, name, o.webhook, cloud, k);
    }
  }

  lemma OwnPlace(ns: string, name: string, k: Key)
    requires Own(ns, name, k)
    ensures Rank(name, k) < 18 && k == KeyAt(ns, name, Rank(name, k))
  {}

  lemma MainComplete(ns: string, name: string, o: Objects, cloud: Cloud, revision: string, k: Key)
    requires Rank(name, k) < 10 && k == KeyAt(ns, name, Rank(name, k)) && Managed(k.kind, cloud)
    ensures exists e :: e in MainExpected(ns, name + "-main", o, cloud, revision) && e.key == k
  {
    var es, place := MainExpected(ns, name + "-main", o, cloud, revision), Rank(name, k);
    assert place >= 4;
    var i := match place case 4 => 0 case 5 => 1 case 7 => 2 case 8 => 3 case 9 => 4 case _ => |es| - 1;
    assert es[i] in es && es[i].key == k;
  }

  lemma WorkerComplete(ns: string, name: string, o: Objects, cloud: Cloud, k: Key)
    requires 10 <= Rank(name, k) < 12 && k == KeyAt(ns, name, Rank(name, k))
    ensures exists e :: e in WorkerExpected(ns, name + "-worker", o) && e.key == k
  {
    var es := WorkerExpected(ns, name + "-worker", o);
    assert es[0] in es && es[1] in es;
  }

  lemma WebhookComplete(ns: string, name: string, webhook: Option<Webhook>, cloud: Cloud, k: Key)
    requires 12 <= Rank(name, k) < 18 && k == KeyAt(ns, name, Rank(name, k)) && Managed(k.kind, cloud)
    ensures exists e :: e in WebhookExpected(ns, name + "-webhook", webhook, cloud.gateway) && e.key == k
  {
    var es, place := WebhookExpected(ns, name + "-webhook", webhook, cloud.gateway), Rank(name, k);
    assert place < 17;
    assert es[place - 12] in es && es[place - 12].key == k;
  }

  /**
   Nothing of an earlier spec is left: whatever the Cluster's passes wrote before, in full or in part, after one
   failure-free pass a managed object is there only if it was there before the Cluster or the spec asks for it.
   */
  lemma NothingLeftBehind(base: Store, past: seq<Op>, c: Cluster, g: string, cloud: Cloud, k: Key)
    requires OwnWrites(c.ns, c.name, past) && Acceptable(c, cloud.gateway)
    requires Managed(k.kind, cloud) && k !in base.objects
    ensures var s := Run(base, past);
            k in Run(s, CleanPass(s, c, g, cloud).ops).objects
            <==> exists e :: e in ExpectedOf(c, cloud, Revision(s, c.ns, c.name)) && e.key == k && e.want.Some?
  {
    hide Run, Acceptable, Revision, RenderCluster, Expected, ClusterPlan, Own, Rank;
    var s := Run(base, past);
    var revision := Revision(s, c.ns, c.name);
    var after := Run(s, CleanPass(s, c, g, cloud).ops);
    ClusterConverges(s, c, g, cloud);
    if k in after.objects {
      if Own(c.ns, c.name, k) {
        ExpectedComplete(c.ns, c.name, RenderCluster(c, ""), cloud, revision, k);
        var e :| e in ExpectedOf(c, cloud, revision) && e.key == k;
        assert Meets(after, e);
      } else {
        OwnWritesShape(c.ns, c.name, past);
        RunFrame(base, past, k);
        PlanShape(c, g, cloud, revision);
        RunFrame(s, CleanPass(s, c, g, cloud).ops, k);
      }
    } else {
      forall e | e in ExpectedOf(c, cloud, revision) && e.key == k ensures e.want.None? {
        assert Meets(after, e);
      }
    }
  }

  // ----- Repetition -----

  /** Plans for two generated keys differ at most in what they would create the encryption Secret with. */
  lemma SamePassButKey(ns: string, name: string, o: Objects, encryption: Option<Fields>, cloud: Cloud, revision: string,
                       op: Op)
    requires o.encryption.Some? <==> encryption.Some?
    ensures op in ClusterPass(ns, name, o.(encryption := encryption), cloud, revision).ops ==>
            (op in ClusterPass(ns, name, o, cloud, revision).ops
         || (op.Create? && exists first ::
               first in ClusterPass(ns, name, o, cloud, revision).ops && first.Create? && first.key == op.key))
  {
    var p := o.(encryption := encryption);
    assert RolesPart(ns, name, p, cloud, revision) == RolesPart(ns, name, o, cloud, revision);
    hide RolesPart, Kept;
    if op in EncryptionPart(ns, name, encryption).ops {
      var first := Create(Key(Secret, ns, EncryptionSecret(name)), o.encryption.value);
      assert first in EncryptionPart(ns, name, o.encryption).ops;
      assert first in ClusterPass(ns, name, o, cloud, revision).ops;
    }
  }

  lemma PlanUpToKey(c: Cluster, g: string, h: string, cloud: Cloud, revision: string, op: Op)
    ensures op in ClusterPlan(c, h, cloud, revision).ops ==>
            (op in ClusterPlan(c, g, cloud, revision).ops
         || (op.Create? && exists first ::
               first in ClusterPlan(c, g, cloud, revision).ops && first.Create? && first.key == op.key))
  {
    hide RenderCluster, ClusterPass, ClusterError;
    OnlyKeyDiffers(c, h, g);
    SamePassButKey(c.ns, c.name, RenderCluster(c, g), RenderCluster(c, h).encryption, cloud, revision, op);
  }

  /** Once every write of a pass is settled, so is every write of the same pass with another key drawn. */
  lemma SettledForAnyKey(t: Store, c: Cluster, g: string, h: string, cloud: Cloud, revision: string)
    requires forall op | op in ClusterPlan(c, g, cloud, revision).ops :: Settled(t, op)
    ensures forall op | op in ClusterPlan(c, h, cloud, revision).ops :: Settled(t, op)
  {
    hide ClusterPlan;
    forall op | op in ClusterPlan(c, h, cloud, revision).ops ensures Settled(t, op) {
      PlanUpToKey(c, g, h, cloud, revision, op);
    }
  }

  /** A second pass, with a newly drawn key, leaves the store as it is, resource versions included. */
  lemma ClusterPassIdempotent(s: Store, c: Cluster, g: string, h: string, cloud: Cloud)
    ensures var t := Run(s, CleanPass(s, c, g, cloud).ops);
            Run(t, CleanPass(t, c, h, cloud).ops) == t
  {
    hide Run, Revision, ClusterPlan;
    var revision := Revision(s, c.ns, c.name);
    var ops := ClusterPlan(c, g, cloud, revision).ops;
    var t := Run(s, ops);
    PassKeepsRevision(s, c, g, cloud);
    PlanDistinct(c, g, cloud, revision);
    forall op | op in ops ensures Settled(t, op) {
      var i :| 0 <= i < |ops| && ops[i] == op;
      RunSettles(s, ops, i);
    }
    SettledForAnyKey(t, c, g, h, cloud, revision);
    RunOfSettled(t, ClusterPlan(c, h, cloud, revision).ops);
  }

  lemma PassKeepsRevision(s: Store, c: Cluster, g: string, cloud: Cloud)
    ensures Revision(Run(s, CleanPass(s, c, g, cloud).ops), c.ns, c.name) == Revision(s, c.ns, c.name)
  {
    var k := Key(Secret, c.ns, InstanceAiSecret(c.name));
    assert !Own(c.ns, c.name, k) by {
      assert |k.name| == |c.name| + 12;
    }
    hide Run, RenderCluster, ClusterPass, ClusterError, Own, Rank;
    var ops := CleanPass(s, c, g, cloud).ops;
    PlanShape(c, g, cloud, Revision(s, c.ns, c.name));
    RunFrame(s, ops, k);
    assert Run(s, ops).Find(k) == s.Find(k);
  }

  // ----- What passes never undo -----

  /** A volume that exists survives every run of passes, also of specs that no longer ask for it. */
  lemma VolumesStay(s: Store, ops: seq<Op>, ns: string, name: string, k: Key)
    requires OwnWrites(ns, name, ops) && k.kind.PersistentVolumeClaim? && k in s.objects
    ensures k in Run(s, ops).objects
  {
    hide Run, ClusterPlan, Own;
    OwnWritesShape(ns, name, ops);
    RunKeeps(s, ops, k);
  }

  /** The generated key: once its Secret exists, no run of passes changes it, whatever keys they draw. */
  lemma GeneratedKeyStays(s: Store, ops: seq<Op>, ns: string, name: string)
    requires OwnWrites(ns, name, ops) && Key(Secret, ns, EncryptionSecret(name)) in s.objects
    ensures Run(s, ops).Find(Key(Secret, ns, EncryptionSecret(name))) == s.Find(Key(Secret, ns, EncryptionSecret(name)))
  {
    hide ClusterPlan, Own, Run;
    OwnWritesShape(ns, name, ops);
    CreatedStays(s, ops, Key(Secret, ns, EncryptionSecret(name)));
  }

  // ----- Readiness -----

  function StatusKey(ns: string, name: string): Key {
    Key(ClusterResource, ns, name)
  }

  lemma OnlyFinishedPassesReport(ns: string, name: string, o: Objects, cloud: Cloud, revision: string)
    requires !ClusterPass(ns, name, o, cloud, revision).ok
    ensures forall op | op in ClusterPass(ns, name, o, cloud, revision).ops :: !Touches(op, StatusKey(ns, name))
  {
    var shared, roles := SharedPart(ns, name, o), RolesPart(ns, name, o, cloud, revision);
    assert shared.ok;
    SharedAscends(ns, name, o);
    ClusterAscends(ns, name, o, cloud, revision);
    assert Rank(name, StatusKey(ns, name)) == 17;
    hide SharedPart, RolesPart, Rank, Own;
    assert ClusterPass(ns, name, o, cloud, revision) == Then(shared, roles);
    assert forall op | op in Then(shared, roles).ops :: op in shared.ops || op in roles.ops;
  }

  /** The status write, with ready set, is in a pass exactly when the spec is acceptable. */
  lemma ReadyIffAcceptable(c: Cluster, g: string, cloud: Cloud, revision: string)
    ensures Acceptable(c, cloud.gateway)
       <==> exists op :: op in ClusterPlan(c, g, cloud, revision).ops && Touches(op, StatusKey(c.ns, c.name))
    ensures Acceptable(c, cloud.gateway) ==>
            Put(StatusKey(c.ns, c.name), ClusterStatus(c)) in ClusterPlan(c, g, cloud, revision).ops
  {
    StatusOf(c, g);
    hide ClusterPass, RenderCluster, ClusterError, Acceptable, ClusterStatus;
    PlanSucceeds(c, g, cloud, revision);
    var o := RenderCluster(c, g);
    if Acceptable(c, cloud.gateway) {
      assert ClusterPlan(c, g, cloud, revision) == ClusterPass(c.ns, c.name, o, cloud, revision);
      PassCovers(c.ns, c.name, o, cloud, revision);
      var op := Put(StatusKey(c.ns, c.name), o.status);
      assert op in ClusterPlan(c, g, cloud, revision).ops && Touches(op, StatusKey(c.ns, c.name));
    } else if ClusterError(c).None? {
      OnlyFinishedPassesReport(c.ns, c.name, o, cloud, revision);
    }
  }

  lemma StatusOf(c: Cluster, g: string)
    ensures RenderCluster(c, g).status == ClusterStatus(c)
  {
    hide IngressFields, RouteFields, EncryptionSecretFields, Pvc, MainDeployment, WorkerDeployment, WebhookDeployment,
         ServiceFields, DestinationRuleFields, HpaFields, ClusterStatus, RoleSurface;
  }

  /** Every write belongs to a pass over a spec that was not acceptable when the pass ran. */
  ghost predicate BadWrites(ns: string, name: string, ops: seq<Op>) {
    forall op | op in ops :: exists c: Cluster, g: string, cloud: Cloud, revision: string ::
      c.ns == ns && c.name == name && !Acceptable(c, cloud.gateway) && op in ClusterPlan(c, g, cloud, revision).ops
  }

  /** While every version of the spec has been unacceptable, no run of passes reports the Cluster ready. */
  lemma NeverReady(s: Store, ops: seq<Op>, ns: string, name: string)
    requires BadWrites(ns, name, ops) && !Ready(s, StatusKey(ns, name))
    ensures !Ready(Run(s, ops), StatusKey(ns, name))
  {
    hide ClusterPlan, Acceptable, Run;
    forall op | op in ops ensures !op.Purge? && !Touches(op, StatusKey(ns, name)) {
      var c: Cluster, g: string, cloud: Cloud, revision: string :|
        c.ns == ns && c.name == name && !Acceptable(c, cloud.gateway) && op in ClusterPlan(c, g, cloud, revision).ops;
      ReadyIffAcceptable(c, g, cloud, revision);
      PlanShape(c, g, cloud, revision);
    }
    NeverReports(s, ops, StatusKey(ns, name));
  }

  /** One failure-free pass over an acceptable spec reports it ready. */
  lemma ReadyAfterPass(s: Store, c: Cluster, g: string, cloud: Cloud)
    requires Acceptable(c, cloud.gateway)
    ensures Ready(Run(s, CleanPass(s, c, g, cloud).ops), StatusKey(c.ns, c.name))
  {
    var revision := Revision(s, c.ns, c.name);
    hide Run, Revision, RenderCluster, ClusterPass, ClusterPlan, ClusterError, Acceptable, ClusterStatus, Keyed,
        Distinct;
    ReadyIffAcceptable(c, g, cloud, revision);
    var e := Expectation(StatusKey(c.ns, c.name), Some(ClusterStatus(c)));
    StatusIsReady(c);
    PlanDistinct(c, g, cloud, revision);
    WriteMeets(s, CleanPass(s, c, g, cloud).ops, e);
    var live := Run(s, CleanPass(s, c, g, cloud).ops).objects[e.key];
    assert Status("ready") in live.Owned();
  }

  lemma StatusIsReady(c: Cluster)
    ensures Status("ready") in ClusterStatus(c) && ClusterStatus(c)[Status("ready")] == Truth(true)
  {
    assert "ready"[0] == 'r' && "mainReplicas"[0] == 'm' && "workerReplicas"[0] == 'w';
    assert "encryptionKeySecret"[0] == 'e' && "webhookReplicas"[0] == 'w';
    hide KeySecret;
  }

  lemma PlanDistinct(c: Cluster, g: string, cloud: Cloud, revision: string)
    ensures Keyed(ClusterPlan(c, g, cloud, revision).ops) && Distinct(ClusterPlan(c, g, cloud, revision).ops)
  {
    hide ClusterPass, RenderCluster, ClusterError;
    ClusterDistinct(c.ns, c.name, RenderCluster(c, g), cloud, revision);
  }

  // ----- From the reconciler's log to the results above -----

  /** Whatever an attempt with failing calls has written belongs to a pass of this Cluster. */
  lemma AttemptWrites(before: seq<Op>, after: seq<Op>, c: Cluster, g: string, cloud: Cloud, revision: string, ok: bool,
                      clean: bool)
    requires Conforms(before, after, ClusterPlan(c, g, cloud, revision), ok, clean)
    ensures OwnWrites(c.ns, c.name, after[|before|..])
    ensures ok ==> Acceptable(c, cloud.gateway)
    ensures !Acceptable(c, cloud.gateway) ==> BadWrites(c.ns, c.name, after[|before|..])
  {
    hide ClusterPlan, Acceptable, Thinned;
    ConformsWithin(before, after, ClusterPlan(c, g, cloud, revision), ok, clean);
    PlanSucceeds(c, g, cloud, revision);
  }

  /** An attempt without a failing call succeeds exactly on an acceptable spec, and then everything is as asked. */
  lemma CleanAttempt(base: Store, before: seq<Op>, after: seq<Op>, c: Cluster, g: string, cloud: Cloud, ok: bool)
    requires Conforms(before, after, CleanPass(Run(base, before), c, g, cloud), ok, true)
    ensures ok <==> Acceptable(c, cloud.gateway)
    ensures ok ==> forall e | e in ExpectedOf(c, cloud, Revision(Run(base, before), c.ns, c.name)) ::
                     Meets(Run(base, after), e)
  {
    hide ClusterPlan, Acceptable, ExpectedOf, Revision, Run, Thinned;
    var s := Run(base, before);
    var plan := CleanPass(s, c, g, cloud);
    PlanSucceeds(c, g, cloud, Revision(s, c.ns, c.name));
    RunConcat(base, before, plan.ops);
    if ok {
      ClusterConverges(s, c, g, cloud);
    }
  }

  lemma PartsOfPass(ns: string, name: string, o: Objects, cloud: Cloud, revision: string, op: Op)
    ensures op in ClusterPass(ns, name, o, cloud, revision).ops ==>
              (op in SharedPart(ns, name, o).ops || op in MainPart(ns, name, o, cloud, revision).ops
               || op in WorkerPart(ns, name, o).ops || op in WebhookPart(ns, name, o.webhook, cloud.gateway).ops
               || op == Put(Key(ClusterResource, ns, name), o.status))
  {
    hide SharedPart, MainPart, WorkerPart, WebhookPart;
  }

  /** Tolerated removals are those of routes, of the DestinationRule, and of a whole webhook role. */
  lemma DiscardsOf(ns: string, name: string, o: Objects, cloud: Cloud, revision: string, op: Op)
    requires op in ClusterPass(ns, name, o, cloud, revision).ops && op.Discard?
    ensures op.key.kind.HTTPRoute? || op.key.kind.DestinationRule?
            || (o.webhook.None? && !op.key.kind.HorizontalPodAutoscaler? && op.key.name == WebhookName(name))
  {
    hide ClusterPass, SharedPart, MainPart, WorkerPart, WebhookPart;
    PartsOfPass(ns, name, o, cloud, revision, op);
    DiscardsOfShared(ns, name, o, op);
    DiscardsOfMain(ns, name, o, cloud, revision, op);
    DiscardsOfWorker(ns, name, o, op);
    DiscardsOfWebhook(ns, name, o.webhook, cloud.gateway, op);
  }

  lemma DiscardsOfShared(ns: string, name: string, o: Objects, op: Op)
    ensures op in SharedPart(ns, name, o).ops ==> !op.Discard?
  {}

  lemma DiscardsOfMain(ns: string, name: string, o: Objects, cloud: Cloud, revision: string, op: Op)
    ensures op in MainPart(ns, name, o, cloud, revision).ops && op.Discard? ==>
              op.key.kind.HTTPRoute? || op.key.kind.DestinationRule?
  {}

  lemma DiscardsOfWorker(ns: string, name: string, o: Objects, op: Op)
    ensures op in WorkerPart(ns, name, o).ops ==> !op.Discard?
  {}

  lemma DiscardsOfWebhook(ns: string, name: string, webhook: Option<Webhook>, gateway: bool, op: Op)
    ensures op in WebhookPart(ns, name, webhook, gateway).ops && op.Discard? ==>
              op.key.kind.HTTPRoute?
              || (webhook.None? && !op.key.kind.HorizontalPodAutoscaler? && op.key.name == WebhookName(name))
  {}

  /**
   What a success vouches for even when best-effort calls failed: every wanted object but the DestinationRule, the
   absence of a stale autoscaler, and that of a stale Ingress of a role that is still there.
   */
  predicate Vouched(c: Cluster, e: Expectation) {
    match e.want
    case Some(_) => !e.key.kind.DestinationRule?
    case None => e.key.kind.HorizontalPodAutoscaler?
                 || (e.key.kind.Ingress? && (c.webhooks.None? ==> e.key.name != WebhookName(c.name)))
  }

  /** A vouched expectation has a required write. */
  lemma VouchedIsRequired(c: Cluster, g: string, cloud: Cloud, revision: string, e: Expectation)
    requires Acceptable(c, cloud.gateway) && e in ExpectedOf(c, cloud, revision) && Vouched(c, e)
    ensures var op := Sync(e.key, e.want); op in ClusterPlan(c, g, cloud, revision).ops && Required(op)
  {
    hide RenderCluster, ClusterError, Acceptable, ExpectedOf, ClusterPass;
    PlanSucceeds(c, g, cloud, revision);
    PlanCovers(c, g, cloud, revision);
    var ops := ClusterPlan(c, g, cloud, revision).ops;
    assert Served(ops, e);
    if e.want.None? && Discard(e.key) in ops {
      WebhookOf(c, g);
      DiscardsOf(c.ns, c.name, RenderCluster(c, g), cloud, revision, Discard(e.key));
    }
  }

  lemma WebhookOf(c: Cluster, g: string)
    ensures RenderCluster(c, g).webhook.Some? <==> c.webhooks.Some?
  {
    hide IngressFields, RouteFields, EncryptionSecretFields, Pvc, MainDeployment, WorkerDeployment, WebhookDeployment,
         ServiceFields, DestinationRuleFields, HpaFields, ClusterStatus, RoleSurface;
  }

  /** Planned writes among which every required one is bring about what is vouched for. */
  lemma RequiredSuffice(s: Store, made: seq<Op>, c: Cluster, g: string, cloud: Cloud, revision: string, e: Expectation)
    requires Acceptable(c, cloud.gateway) && e in ExpectedOf(c, cloud, revision) && Vouched(c, e)
    requires forall op | op in made :: op in ClusterPlan(c, g, cloud, revision).ops
    requires Sync(e.key, e.want) in made
    ensures Meets(Run(s, made), e)
  {
    hide ClusterPlan, Acceptable, ExpectedOf, Run, Settled, Vouched;
    var plan, op := ClusterPlan(c, g, cloud, revision), Sync(e.key, e.want);
    PlanDistinct(c, g, cloud, revision);
    forall x | x in made && x.key == op.key ensures x == op {
      SameKeySameWrite(plan.ops, x, op);
    }
    RunSettlesOnly(s, made, op);
    SettledMeets(Run(s, made), e);
  }

  /** An attempt that reports success, even though some best-effort calls failed, keeps what it vouches for. */
  lemma SuccessfulAttempt(base: Store, before: seq<Op>, after: seq<Op>, c: Cluster, g: string, cloud: Cloud,
                          clean: bool)
    requires Conforms(before, after, CleanPass(Run(base, before), c, g, cloud), true, clean)
    ensures Acceptable(c, cloud.gateway)
    ensures forall e | e in ExpectedOf(c, cloud, Revision(Run(base, before), c.ns, c.name)) && Vouched(c, e) ::
              Meets(Run(base, after), e)
  {
    hide ClusterPlan, Acceptable, ExpectedOf, Revision, Run, Thinned, Vouched, Required, Meets;
    var s := Run(base, before);
    var revision, made := Revision(s, c.ns, c.name), after[|before|..];
    PlanSucceeds(c, g, cloud, revision);
    ConformsWithin(before, after, ClusterPlan(c, g, cloud, revision), true, clean);
    RunConcat(base, before, made);
    assert before + made == after;
    forall e | e in ExpectedOf(c, cloud, revision) && Vouched(c, e) ensures Meets(Run(base, after), e) {
      VouchedIsRequired(c, g, cloud, revision, e);
      RequiredSuffice(s, made, c, g, cloud, revision, e);
    }
  }

  /** The status is the last write of a plan, and no other write of it names the resource. */
  lemma StatusEndsPlan(c: Cluster, g: string, cloud: Cloud, revision: string)
    requires Acceptable(c, cloud.gateway)
    ensures var ops := ClusterPlan(c, g, cloud, revision).ops;
            var last := Put(StatusKey(c.ns, c.name), ClusterStatus(c));
            && ops != [] && ops[|ops| - 1] == last && ops == ops[..|ops| - 1] + [last] && last !in ops[..|ops| - 1]
            && forall op | op in ops :: Touches(op, StatusKey(c.ns, c.name)) ==> op == last
  {
    hide RenderCluster, ClusterError, Acceptable, SharedPart, RolesPart, ClusterStatus;
    PlanSucceeds(c, g, cloud, revision);
    PlanDistinct(c, g, cloud, revision);
    StatusOf(c, g);
    var ops, last := ClusterPlan(c, g, cloud, revision).ops, Put(StatusKey(c.ns, c.name), ClusterStatus(c));
    assert ClusterPlan(c, g, cloud, revision).ok;
    assert ops[|ops| - 1] == last;
    forall op | op in ops && Touches(op, StatusKey(c.ns, c.name)) ensures op == last {
      SameKeySameWrite(ops, op, last);
    }
  }

  /**
   The status comes last also when calls fail: an attempt that got as far as writing it wrote it after everything
   else, and what the attempt vouches for was in place by then.
   */
  lemma StatusComesLast(base: Store, before: seq<Op>, after: seq<Op>, c: Cluster, g: string, cloud: Cloud, ok: bool,
                        clean: bool)
    requires Conforms(before, after, CleanPass(Run(base, before), c, g, cloud), ok, clean)
    requires exists op :: op in after[|before|..] && Touches(op, StatusKey(c.ns, c.name))
    ensures Acceptable(c, cloud.gateway)
    ensures after[|after| - 1] == Put(StatusKey(c.ns, c.name), ClusterStatus(c))
    ensures forall e | e in ExpectedOf(c, cloud, Revision(Run(base, before), c.ns, c.name)) && Vouched(c, e) ::
              Meets(Run(base, after[..|after| - 1]), e)
  {
    hide ClusterPlan, Acceptable, ExpectedOf, Revision, Run, Thinned, Vouched, Required, Meets, ClusterStatus;
    var s := Run(base, before);
    var revision, made := Revision(s, c.ns, c.name), after[|before|..];
    var plan, last := ClusterPlan(c, g, cloud, revision), Put(StatusKey(c.ns, c.name), ClusterStatus(c));
    ConformsWithin(before, after, plan, ok, clean);
    ReadyIffAcceptable(c, g, cloud, revision);
    StatusEndsPlan(c, g, cloud, revision);
    var front := plan.ops[..|plan.ops| - 1];
    ThinnedLast(made, front, last, ok);
    RunConcat(base, before, made[..|made| - 1]);
    assert before + made[..|made| - 1] == after[..|after| - 1];
    forall e | e in ExpectedOf(c, cloud, revision) && Vouched(c, e) ensures Meets(Run(base, after[..|after| - 1]), e) {
      VouchedIsRequired(c, g, cloud, revision, e);
      VouchedIsObject(c, cloud, revision, e);
      RequiredSuffice(s, made[..|made| - 1], c, g, cloud, revision, e);
    }
  }

  /** The expectations are about objects, not about the resource itself. */
  lemma VouchedIsObject(c: Cluster, cloud: Cloud, revision: string, e: Expectation)
    requires e in ExpectedOf(c, cloud, revision)
    ensures !e.key.kind.ClusterResource?
  {
    hide RenderCluster;
  }

  lemma PlanCovers(c: Cluster, g: string, cloud: Cloud, revision: string)
    requires Acceptable(c, cloud.gateway)
    ensures Covered(ClusterPlan(c, g, cloud, revision), ExpectedOf(c, cloud, revision))
  {
    hide ClusterPass, RenderCluster, Expected, ClusterError;
    PlanSucceeds(c, g, cloud, revision);
    OnlyKeyDiffers(c, g, "");
    PassCovers(c.ns, c.name, RenderCluster(c, g), cloud, revision);
    assert Expected(c.ns, c.name, RenderCluster(c, g), cloud, revision) == ExpectedOf(c, cloud, revision) by {
      SameExpectations(c, g, cloud, revision);
    }
  }

  lemma SameExpectations(c: Cluster, g: string, cloud: Cloud, revision: string)
    ensures Expected(c.ns, c.name, RenderCluster(c, g), cloud, revision) == ExpectedOf(c, cloud, revision)
  {
    hide RenderCluster;
    OnlyKeyDiffers(c, g, "");
  }
}

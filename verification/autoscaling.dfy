/** Handing the worker replica count over to the autoscaler, and taking it back. */
module AutoscalingRuns {
  import opened Wrappers
  import opened Kube
  import opened Server
  import opened Resources
  import opened Env
  import opened OperatorEnv
  import opened Validate
  import opened Builders
  import opened ClusterObjects
  import opened Plans
  import opened ClusterOrder
  import opened Convergence
  import opened ClusterRuns

  function WorkerKey(ns: string, name: string): Key {
    Key(Deployment, ns, WorkerName(name))
  }

  function LiveReplicas(s: Store, k: Key): Option<Value> {
    if k in s.objects && Replicas in s.objects[k].fields then Some(s.objects[k].fields[Replicas]) else None
  }

  /** The operator no longer owns the replica count. */
  predicate HandedOver(s: Store, k: Key) {
    k in s.objects && Replicas !in s.objects[k].owned
  }

  /** Something that happens to the worker Deployment: writes of passes, or one decision of the autoscaler. */
  datatype Turn = Writes(ops: seq<Op>) | Scale(count: int)

  function TakeTurn(s: Store, k: Key, t: Turn): Store {
    match t
    case Writes(ops) => Run(s, ops)
    case Scale(count) => ForeignUpdate(s, k, Replicas, Number(count))
  }

  function TakeTurns(s: Store, k: Key, turns: seq<Turn>): Store
    decreases |turns|
  {
    if turns == [] then s else TakeTurn(TakeTurns(s, k, turns[..|turns| - 1]), k, turns[|turns| - 1])
  }

  /** The count the autoscaler set last, or the initial one. */
  function LastScale(turns: seq<Turn>, initial: Option<Value>): Option<Value>
    decreases |turns|
  {
    if turns == [] then initial
    else if turns[|turns| - 1].Scale? then Some(Number(turns[|turns| - 1].count))
    else LastScale(turns[..|turns| - 1], initial)
  }

  /** Writes of passes over specs with autoscaling on. */
  ghost predicate AutoscaledWrites(ns: string, name: string, ops: seq<Op>) {
    forall op | op in ops :: exists c: Cluster, g: string, cloud: Cloud, revision: string ::
      c.ns == ns && c.name == name && c.workers.autoscaling.Some? && op in ClusterPlan(c, g, cloud, revision).ops
  }

  /** The only write of a pass to the worker Deployment is the rendered Deployment. */
  lemma WorkerWrite(c: Cluster, g: string, cloud: Cloud, revision: string, op: Op)
    ensures op in ClusterPlan(c, g, cloud, revision).ops && Touches(op, WorkerKey(c.ns, c.name)) ==>
              op == Put(WorkerKey(c.ns, c.name), WorkerDeployment(c))
  {
    hide RenderCluster, ClusterError, WorkerDeployment;
    WorkerOf(c, g);
    WorkerWriteOf(c.ns, c.name, RenderCluster(c, g), cloud, revision, op);
  }

  lemma WorkerOf(c: Cluster, g: string)
    ensures RenderCluster(c, g).worker == WorkerDeployment(c)
  {
    hide IngressFields, RouteFields, EncryptionSecretFields, Pvc, MainDeployment, WorkerDeployment, WebhookDeployment,
         ServiceFields, DestinationRuleFields, HpaFields, ClusterStatus, RoleSurface;
  }

  lemma WorkerWriteOf(ns: string, name: string, o: Objects, cloud: Cloud, revision: string, op: Op)
    ensures op in ClusterPass(ns, name, o, cloud, revision).ops && Touches(op, WorkerKey(ns, name)) ==>
              op == Put(WorkerKey(ns, name), o.worker)
  {
    hide ClusterPass, SharedPart, MainPart, WorkerPart, WebhookPart, Rank, Own, WorkerKey;
    WorkerPlace(ns, name);
    SharedAscends(ns, name, o);
    MainAscends(ns, name, o, cloud, revision);
    WebhookAscends(ns, name, o.webhook, cloud.gateway);
    PartsOfPass(ns, name, o, cloud, revision, op);
    OnlyWorkerWrite(ns, name, o, op);
  }

  lemma WorkerPlace(ns: string, name: string)
    ensures Rank(name, WorkerKey(ns, name)) == 10 && !WorkerKey(ns, name).kind.ClusterResource?
  {}

  lemma OnlyWorkerWrite(ns: string, name: string, o: Objects, op: Op)
    ensures op in WorkerPart(ns, name, o).ops && Touches(op, WorkerKey(ns, name)) ==>
            op == Put(WorkerKey(ns, name), o.worker)
  {}

  /** The replica count is declared exactly when autoscaling is off. */
  lemma WorkerReplicas(c: Cluster)
    ensures Replicas in WorkerDeployment(c) <==> c.workers.autoscaling.None?
    ensures c.workers.autoscaling.None? ==> WorkerDeployment(c)[Replicas] == Number(c.workers.replicas)
  {
    hide WorkerEnv, BundleVolumes, KeySecret, DeploymentFields, WorkerName, ClusterOwner;
    DeploymentReplicas(WorkerName(c.name), c.workers.image.GetOr(c.image), "worker",
                       if c.workers.autoscaling.Some? then None else Some(c.workers.replicas),
                       WorkerEnv(c, KeySecret(c.encryptionKey, c.name)), BundleVolumes(c), ["n8n", "worker"],
                       c.workers.pod, c.workers.strategy, None, ClusterOwner(c.name));
  }

  lemma StepLeavesReplicas(s: Store, op: Op, k: Key)
    requires HandedOver(s, k) && !op.Purge? && (op.key == k ==> op.Put? && Replicas !in op.want)
    ensures HandedOver(Step(s, op), k) && LiveReplicas(Step(s, op), k) == LiveReplicas(s, k)
  {}

  lemma {:induction false} WritesLeaveReplicas(s: Store, ops: seq<Op>, k: Key)
    requires HandedOver(s, k)
    requires forall op | op in ops :: !op.Purge? && (op.key == k ==> op.Put? && Replicas !in op.want)
    ensures HandedOver(Run(s, ops), k) && LiveReplicas(Run(s, ops), k) == LiveReplicas(s, k)
    decreases |ops|
  {
    if ops != [] {
      assert ops[0] in ops;
      StepLeavesReplicas(s, ops[0], k);
      WritesLeaveReplicas(Step(s, ops[0]), ops[1..], k);
    }
  }

  /**
   Once handed over, the count stays the autoscaler's: through any mix of its decisions and of passes with
   autoscaling on, complete or not, the live count is the one it set last.
   */
  lemma {:induction false} AutoscalerKeepsControl(s: Store, turns: seq<Turn>, ns: string, name: string)
    requires HandedOver(s, WorkerKey(ns, name))
    requires forall t | t in turns && t.Writes? :: AutoscaledWrites(ns, name, t.ops)
    ensures HandedOver(TakeTurns(s, WorkerKey(ns, name), turns), WorkerKey(ns, name))
    ensures LiveReplicas(TakeTurns(s, WorkerKey(ns, name), turns), WorkerKey(ns, name))
         == LastScale(turns, LiveReplicas(s, WorkerKey(ns, name)))
    decreases |turns|
  {
    hide Run, ClusterPlan;
    var k := WorkerKey(ns, name);
    if turns != [] {
      var before, last := turns[..|turns| - 1], turns[|turns| - 1];
      assert last in turns;
      AutoscalerKeepsControl(s, before, ns, name);
      if last.Writes? {
        forall op | op in last.ops ensures !op.Purge? && (op.key == k ==> op.Put? && Replicas !in op.want) {
          AutoscaledWrite(ns, name, last.ops, op);
        }
        WritesLeaveReplicas(TakeTurns(s, k, before), last.ops, k);
      }
    }
  }

  lemma AutoscaledWrite(ns: string, name: string, ops: seq<Op>, op: Op)
    ensures AutoscaledWrites(ns, name, ops) && op in ops ==>
              !op.Purge? && (op.key == WorkerKey(ns, name) ==> op.Put? && Replicas !in op.want)
  {
    hide ClusterPlan, WorkerDeployment;
    if AutoscaledWrites(ns, name, ops) && op in ops {
      var c: Cluster, g: string, cloud: Cloud, revision: string :|
        c.ns == ns && c.name == name && c.workers.autoscaling.Some? && op in ClusterPlan(c, g, cloud, revision).ops;
      PlanShape(c, g, cloud, revision);
      WorkerReplicas(c);
      WorkerWrite(c, g, cloud, revision, op);
    }
  }

  // ----- Handing over and taking back -----

  /** Any pass with autoscaling on that gets as far as the worker write hands the count over. */
  lemma HandsOver(s: Store, c: Cluster, g: string, cloud: Cloud)
    requires Acceptable(c, cloud.gateway) && c.workers.autoscaling.Some?
    ensures HandedOver(Run(s, CleanPass(s, c, g, cloud).ops), WorkerKey(c.ns, c.name))
  {
    hide Run, Revision, Acceptable, ClusterPlan, WorkerDeployment;
    var revision := Revision(s, c.ns, c.name);
    var ops := CleanPass(s, c, g, cloud).ops;
    WorkerIsWritten(c, g, cloud, revision);
    PlanDistinct(c, g, cloud, revision);
    WorkerReplicas(c);
    var i :| 0 <= i < |ops| && ops[i] == Put(WorkerKey(c.ns, c.name), WorkerDeployment(c));
    RunSettles(s, ops, i);
  }

  lemma WorkerIsWritten(c: Cluster, g: string, cloud: Cloud, revision: string)
    requires Acceptable(c, cloud.gateway)
    ensures Put(WorkerKey(c.ns, c.name), WorkerDeployment(c)) in ClusterPlan(c, g, cloud, revision).ops
  {
    hide RenderCluster, ClusterError, WorkerDeployment, Acceptable, ClusterPass, MainExpected, WebhookExpected;
    PlanSucceeds(c, g, cloud, revision);
    WorkerOf(c, g);
    var o := RenderCluster(c, g);
    assert ClusterPlan(c, g, cloud, revision).ok ==> ClusterError(c).None?;
    PassCovers(c.ns, c.name, o, cloud, revision);
    var e := Expectation(WorkerKey(c.ns, c.name), Some(o.worker));
    assert e == WorkerExpected(c.ns, c.name + "-worker", o)[0];
    assert e in Expected(c.ns, c.name, o, cloud, revision);
  }

  /** Over a whole pass the worker Deployment changes as by its write alone. */
  lemma PassOnWorker(s: Store, c: Cluster, g: string, cloud: Cloud)
    requires Acceptable(c, cloud.gateway)
    ensures var k, after := WorkerKey(c.ns, c.name), Run(s, CleanPass(s, c, g, cloud).ops);
            var alone := Step(s, Put(k, WorkerDeployment(c)));
            && k in after.objects && k in alone.objects
            && after.objects[k].(version := 0) == alone.objects[k].(version := 0)
  {
    hide Run, Revision, Acceptable, ClusterPlan, WorkerDeployment, Step;
    var revision := Revision(s, c.ns, c.name);
    WorkerIsWritten(c, g, cloud, revision);
    PlanDistinct(c, g, cloud, revision);
    RunActs(s, CleanPass(s, c, g, cloud).ops, Put(WorkerKey(c.ns, c.name), WorkerDeployment(c)));
  }

  /**
   What a pass with autoscaling on does to a static count: it stays exactly when some other manager owns it too,
   or the operator never did. A count only the operator declared is dropped (to the API's default).
   */
  lemma FirstHandOver(s: Store, c: Cluster, g: string, cloud: Cloud)
    requires Acceptable(c, cloud.gateway) && c.workers.autoscaling.Some?
    requires LiveReplicas(s, WorkerKey(c.ns, c.name)).Some?
    ensures var k, o := WorkerKey(c.ns, c.name), s.objects[WorkerKey(c.ns, c.name)];
            var after := Run(s, CleanPass(s, c, g, cloud).ops);
            && (LiveReplicas(after, k).Some? <==> Replicas !in o.owned || Replicas in o.others)
            && (LiveReplicas(after, k).Some? ==> LiveReplicas(after, k) == LiveReplicas(s, k))
  {
    hide WorkerDeployment, Acceptable, CleanPass, Run, WorkerKey;
    WorkerReplicas(c);
    PassOnWorker(s, c, g, cloud);
    ApplyPrunes(s, WorkerKey(c.ns, c.name), WorkerDeployment(c), Replicas);
  }

  /** A static pass owns the count, and makes no other manager an owner of it. */
  lemma StaticPass(s: Store, c: Cluster, g: string, cloud: Cloud)
    requires Acceptable(c, cloud.gateway) && c.workers.autoscaling.None?
    ensures var k, after := WorkerKey(c.ns, c.name), Run(s, CleanPass(s, c, g, cloud).ops);
            && LiveReplicas(after, k) == Some(Number(c.workers.replicas)) && Replicas in after.objects[k].owned
            && (Replicas in after.objects[k].others ==> k in s.objects && Replicas in s.objects[k].others)
  {
    hide WorkerDeployment, Acceptable, CleanPass, Run, WorkerKey;
    WorkerReplicas(c);
    PassOnWorker(s, c, g, cloud);
  }

  /**
   A Cluster that switches from a static count to autoscaling loses the count in its first whole pass, from
   whatever store, unless the autoscaler or somebody else had declared it before.
   */
  lemma StaticCountIsDropped(s: Store, c: Cluster, g: string, d: Cluster, h: string, cloud: Cloud)
    requires c.ns == d.ns && c.name == d.name && c.workers.autoscaling.None? && d.workers.autoscaling.Some?
    requires Acceptable(c, cloud.gateway) && Acceptable(d, cloud.gateway)
    requires WorkerKey(c.ns, c.name) in s.objects ==> Replicas !in s.objects[WorkerKey(c.ns, c.name)].others
    ensures var k, first := WorkerKey(c.ns, c.name), Run(s, CleanPass(s, c, g, cloud).ops);
            && LiveReplicas(first, k) == Some(Number(c.workers.replicas))
            && LiveReplicas(Run(first, CleanPass(first, d, h, cloud).ops), k) == None
  {
    hide Acceptable, CleanPass, Run, WorkerKey;
    StaticPass(s, c, g, cloud);
    FirstHandOver(Run(s, CleanPass(s, c, g, cloud).ops), d, h, cloud);
  }

  /** Dropping autoscaling restores the static count and removes the autoscaler, whatever it had set. */
  lemma TakesBack(s: Store, c: Cluster, g: string, cloud: Cloud)
    requires Acceptable(c, cloud.gateway) && c.workers.autoscaling.None?
    ensures var after := Run(s, CleanPass(s, c, g, cloud).ops);
            && LiveReplicas(after, WorkerKey(c.ns, c.name)) == Some(Number(c.workers.replicas))
            && Key(HorizontalPodAutoscaler, c.ns, WorkerName(c.name)) !in after.objects
  {
    hide Run, Revision, Acceptable, ClusterPlan, WorkerDeployment, MainExpected, WebhookExpected, RenderCluster;
    var revision := Revision(s, c.ns, c.name);
    var ops, o := CleanPass(s, c, g, cloud).ops, RenderCluster(c, "");
    WorkerIsWritten(c, g, cloud, revision);
    PlanDistinct(c, g, cloud, revision);
    WorkerReplicas(c);
    var i :| 0 <= i < |ops| && ops[i] == Put(WorkerKey(c.ns, c.name), WorkerDeployment(c));
    RunSettles(s, ops, i);
    NoAutoscaler(c);
    ClusterConverges(s, c, g, cloud);
    var e := Absent(Key(HorizontalPodAutoscaler, c.ns, WorkerName(c.name)));
    assert e == WorkerExpected(c.ns, c.name + "-worker", o)[1];
    assert e in ExpectedOf(c, cloud, revision);
    assert Meets(Run(s, ops), e);
  }

  lemma NoAutoscaler(c: Cluster)
    requires c.workers.autoscaling.None?
    ensures RenderCluster(c, "").hpa.None?
  {
    hide IngressFields, RouteFields, EncryptionSecretFields, Pvc, MainDeployment, WorkerDeployment, WebhookDeployment,
         ServiceFields, DestinationRuleFields, HpaFields, ClusterStatus, RoleSurface;
  }
}

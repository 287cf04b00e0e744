/** The annotation that rolls the pods when the target's Secret changes, after one apply of each controller. */
module Stamps {
  import opened Wrappers
  import opened Kube
  import opened Server
  import opened Resources
  import opened Validate
  import opened Builders
  import opened OperatorEnv
  import opened ClusterObjects
  import opened SandboxNames
  import opened AssistantObjects
  import opened Rounds
  import AP = AssistantPlans
  import InstanceAi
  import P = Plans
  import ClusterOrder
  import Convergence
  import ClusterRuns
  import SingleRuns

  /** The annotation the main pods carry in a store. */
  function Stamp(t: Store, k: Key): Option<Value> {
    if k in t.objects && PodAnnotation(INSTANCE_AI_REVISION) in t.objects[k].fields
    then Some(t.objects[k].fields[PodAnnotation(INSTANCE_AI_REVISION)]) else None
  }

  /**
   In the end the pods carry the live Secret's resource version, exactly unless the user's annotation says
   otherwise.
   */
  lemma ClusterStamp(s: Store, a: Assistant, apiKey: string, c: Cluster, g: string, cloud: P.Cloud)
    requires a.ns == c.ns && a.targetName == c.name && Convergence.Acceptable(c, cloud.gateway)
    ensures var s1 := Run(s, AP.StackPart(s, a, apiKey).ops);
            var t := Run(s1, Convergence.CleanPass(s1, c, g, cloud).ops);
            var user := PodAnnotationsOf(c.main.pod);
            && (AP.StackPart(s, a, apiKey).ok ==> TargetKey(a) in t.objects)
            && (TargetKey(a) in t.objects ==>
                  var live := NatText(t.objects[TargetKey(a)].version);
                  Stamp(t, Key(Deployment, c.ns, MainName(c.name))) == Some(Text(live))
                  <==> (INSTANCE_AI_REVISION in user ==> user[INSTANCE_AI_REVISION] == live))
  {
    hide Run, AP.StackPart, P.ClusterPlan, NatText, MainDeployment, INSTANCE_AI_REVISION, PodAnnotationsOf,
        Convergence.Acceptable;
    var work := AP.StackPart(s, a, apiKey).ops;
    var s1 := Run(s, work);
    var revision := P.Revision(s1, c.ns, c.name);
    var pass := P.ClusterPlan(c, g, cloud, revision).ops;
    var t := Run(s1, pass);
    TargetWritten(s, a, apiKey);
    ClusterRuns.PassKeepsRevision(s1, c, g, cloud);
    RunKeepsTarget(s1, a, c, g, cloud, revision);
    MainIsWritten(c, g, cloud, revision);
    ClusterRuns.PlanDistinct(c, g, cloud, revision);
    var op := Put(Key(Deployment, c.ns, MainName(c.name)), MainDeployment(c, revision));
    var i :| 0 <= i < |pass| && pass[i] == op;
    RunSettles(s1, pass, i);
    MainStamp(c, revision);
  }

  lemma TargetWritten(s: Store, a: Assistant, apiKey: string)
    ensures AP.StackPart(s, a, apiKey).ok ==> TargetKey(a) in Run(s, AP.StackPart(s, a, apiKey).ops).objects
  {
    hide Run, AP.Workloads, AP.ReadKey, AP.TargetData, InstanceAi.TargetFields, AP.Revision, At, Keyed, Distinct,
         OfStack;
    StackDistinct(s, a, apiKey);
    if AP.StackPart(s, a, apiKey).ok {
      var ops := AP.StackPart(s, a, apiKey).ops;
      var last := ops[|ops| - 1];
      assert last.Put? && last.key == TargetKey(a);
      RunSettles(s, ops, |ops| - 1);
    }
  }

  lemma RunKeepsTarget(s: Store, a: Assistant, c: Cluster, g: string, cloud: P.Cloud, revision: string)
    requires a.ns == c.ns && a.targetName == c.name
    ensures Run(s, P.ClusterPlan(c, g, cloud, revision).ops).Find(TargetKey(a)) == s.Find(TargetKey(a))
  {
    StackKeyNotOwn(a, c, TargetKey(a));
    hide Run, P.ClusterPlan, ClusterOrder.Own, ClusterOrder.Rank, TargetKey;
    ClusterRuns.PlanShape(c, g, cloud, revision);
    RunFrame(s, P.ClusterPlan(c, g, cloud, revision).ops, TargetKey(a));
  }

  lemma MainStamp(c: Cluster, revision: string)
    ensures var f, user := MainDeployment(c, revision), PodAnnotationsOf(c.main.pod);
            && PodAnnotation(INSTANCE_AI_REVISION) in f
            && f[PodAnnotation(INSTANCE_AI_REVISION)]
                == Text(if INSTANCE_AI_REVISION in user then user[INSTANCE_AI_REVISION] else revision)
  {
    hide DeploymentFields, MainEnv, MainVolumes, KeySecret, INSTANCE_AI_REVISION, PodAnnotationsOf;
    DeploymentRevision(MainName(c.name), c.main.image.GetOr(c.image), "main", Some(c.main.replicas),
                       MainEnv(c, KeySecret(c.encryptionKey, c.name)), MainVolumes(c), [], c.main.pod, c.main.strategy,
                       c.name, revision, ClusterOwner(c.name));
  }

  lemma MainIsWritten(c: Cluster, g: string, cloud: P.Cloud, revision: string)
    requires Convergence.Acceptable(c, cloud.gateway)
    ensures Put(Key(Deployment, c.ns, MainName(c.name)), MainDeployment(c, revision))
            in P.ClusterPlan(c, g, cloud, revision).ops
  {
    hide RenderCluster, ClusterError, MainDeployment, Convergence.Acceptable, P.ClusterPass,
        Convergence.WebhookExpected;
    Convergence.PlanSucceeds(c, g, cloud, revision);
    MainOf(c, g, revision);
    var o := RenderCluster(c, g);
    assert P.ClusterPlan(c, g, cloud, revision).ok ==> ClusterError(c).None?;
    Convergence.PassCovers(c.ns, c.name, o, cloud, revision);
    var e := Convergence.Expectation(Key(Deployment, c.ns, MainName(c.name)), Some(o.mainDeployment(revision)));
    assert e == Convergence.MainExpected(c.ns, c.name + "-main", o, cloud, revision)[0];
    assert e in Convergence.Expected(c.ns, c.name, o, cloud, revision);
  }

  lemma MainOf(c: Cluster, g: string, revision: string)
    ensures RenderCluster(c, g).mainDeployment(revision) == MainDeployment(c, revision)
  {
    hide IngressFields, RouteFields, EncryptionSecretFields, Pvc, MainDeployment, WorkerDeployment, WebhookDeployment,
         ServiceFields, DestinationRuleFields, HpaFields, ClusterStatus, RoleSurface;
  }

  /** The same for the pods of a Single. */
  lemma SingleStamp(u: Store, a: Assistant, apiKey: string, s: Single, g: string, gateway: bool)
    requires a.ns == s.ns && a.targetName == s.name && NamesApart(a, ToSingle(s, gateway))
             && SingleRuns.Acceptable(s, gateway)
    ensures var u1 := Run(u, AP.StackPart(u, a, apiKey).ops);
            var t := Run(u1, SingleRuns.CleanPass(u1, s, g, gateway).ops);
            var user := PodAnnotationsOf(s.pod);
            && (AP.StackPart(u, a, apiKey).ok ==> TargetKey(a) in t.objects)
            && (TargetKey(a) in t.objects ==>
                  var live := NatText(t.objects[TargetKey(a)].version);
                  Stamp(t, Key(Deployment, s.ns, s.name)) == Some(Text(live))
                  <==> (INSTANCE_AI_REVISION in user ==> user[INSTANCE_AI_REVISION] == live))
  {
    hide Run, AP.StackPart, P.SinglePlan, NatText, SingleDeployment, INSTANCE_AI_REVISION, PodAnnotationsOf,
        SingleRuns.Acceptable, NamesApart;
    var work := AP.StackPart(u, a, apiKey).ops;
    var u1 := Run(u, work);
    var revision := P.Revision(u1, s.ns, s.name);
    var pass := P.SinglePlan(s, g, gateway, revision).ops;
    var t := Run(u1, pass);
    TargetWritten(u, a, apiKey);
    SingleRuns.PassKeepsRevision(u1, s, g, gateway);
    SingleRuns.PlanOwn(s, g, gateway, revision);
    StackKeyNotOfSingle(a, s, gateway, TargetKey(a));
    RunFrame(u1, pass, TargetKey(a));
    SingleIsWritten(s, g, gateway, revision);
    SingleRuns.PlanDistinct(s, g, gateway, revision);
    var op := Put(Key(Deployment, s.ns, s.name), SingleDeployment(s, revision));
    var i :| 0 <= i < |pass| && pass[i] == op;
    RunSettles(u1, pass, i);
    SinglePodStamp(s, revision);
    assert t.Find(TargetKey(a)) == u1.Find(TargetKey(a));
  }

  lemma SinglePodStamp(s: Single, revision: string)
    ensures var f, user := SingleDeployment(s, revision), PodAnnotationsOf(s.pod);
            && PodAnnotation(INSTANCE_AI_REVISION) in f
            && f[PodAnnotation(INSTANCE_AI_REVISION)]
                == Text(if INSTANCE_AI_REVISION in user then user[INSTANCE_AI_REVISION] else revision)
  {
    hide DeploymentFields, SingleEnv, KeySecret, DbVolumes, INSTANCE_AI_REVISION, PodAnnotationsOf;
    var key := KeySecret(s.encryptionKey, s.name);
    DeploymentRevision(s.name, s.image, "workflow-engine", Some(s.replicas), SingleEnv(s, key),
                       (if s.database.Some? then DbVolumes(s.database.value) else [])
                       + (if s.persistence.Some? then ["n8n-data:" + s.name + "-data"] else []),
                       [], s.pod, s.strategy, s.name, revision, "Single/" + s.name);
  }

  lemma SingleIsWritten(s: Single, g: string, gateway: bool, revision: string)
    requires SingleRuns.Acceptable(s, gateway)
    ensures Put(Key(Deployment, s.ns, s.name), SingleDeployment(s, revision))
            in P.SinglePlan(s, g, gateway, revision).ops
  {
    hide RenderSingle, SingleError, SingleDeployment, SingleRuns.Acceptable, P.SinglePass;
    SingleRuns.PlanSucceeds(s, g, gateway, revision);
    SingleOf(s, g, revision);
    var o := RenderSingle(s, g);
    assert P.SinglePlan(s, g, gateway, revision).ok ==> SingleError(s).None?;
    SingleRuns.PassCovers(s.ns, s.name, o, gateway, revision);
    var e := Convergence.Expectation(Key(Deployment, s.ns, s.name), Some(o.deployment(revision)));
    assert e == SingleRuns.Expected(s.ns, s.name, o, gateway, revision)[0];
    assert e in SingleRuns.Expected(s.ns, s.name, o, gateway, revision);
  }

  lemma SingleOf(s: Single, g: string, revision: string)
    ensures RenderSingle(s, g).deployment(revision) == SingleDeployment(s, revision)
  {
    hide IngressFields, RouteFields, EncryptionSecretFields, Pvc, SingleDeployment, ServiceFields, RoleSurface;
  }
}

/**
 The Assistant controller writes a Secret that the Cluster or Single controller stamps on its pods, and reads the
 user's keys back from Secrets that may be among those written. One round is an apply of the Assistant past the
 certificates followed by a pass of its target; this module says what a round makes of everything the next one reads.
 */
module Rounds {
  import opened Wrappers
  import opened Kube
  import opened Server
  import opened Resources
  import opened Validate
  import opened Builders
  import opened OperatorEnv
  import opened ClusterObjects
  import opened SandboxNames
  import opened AssistantObjects
  import opened AssistantValidate
  import AP = AssistantPlans
  import InstanceAi
  import P = Plans
  import ClusterOrder
  import Convergence
  import ClusterRuns
  import SingleRuns

  // ----- Two passes over different objects -----

  predicate Disjoint(a: seq<Op>, b: seq<Op>)
    requires Keyed(a) && Keyed(b)
  {
    forall x, y | x in a && y in b :: x.key != y.key
  }

  lemma DistinctConcat(a: seq<Op>, b: seq<Op>)
    requires Keyed(a) && Keyed(b) && Distinct(a) && Distinct(b) && Disjoint(a, b)
    ensures Keyed(a + b) && Distinct(a + b)
  {
    var ops := a + b;
    assert forall op | op in ops :: op in a || op in b;
    forall i, j | 0 <= i < j < |ops| ensures ops[i].key != ops[j].key {
      if i < |a| <= j {
        assert ops[i] in a && ops[j] in b;
      } else if |a| <= i {
        assert ops[i] == b[i - |a|] && ops[j] == b[j - |a|];
      }
    }
  }

  /** After one pass over each of two disjoint sets of objects, every write of either has nothing left to do. */
  lemma BothSettled(s: Store, a: seq<Op>, b: seq<Op>, op: Op)
    requires Keyed(a) && Keyed(b) && Distinct(a) && Distinct(b) && Disjoint(a, b)
    requires op in a || op in b
    ensures Settled(Run(Run(s, a), b), op)
  {
    hide Run, Settled;
    DistinctConcat(a, b);
    RunConcat(s, a, b);
    assert op in a + b;
    var i :| 0 <= i < |a + b| && (a + b)[i] == op;
    RunSettles(s, a + b, i);
  }

  // ----- The Assistant's writes past the certificates -----

  /** A workload, Service or volume claim of the sandbox stack. */
  predicate OfStack(a: Assistant, k: Key) {
    || k == At(a, PersistentVolumeClaim, DockerPvc)
    || k == At(a, Deployment, Api) || k == At(a, Service, Api)
    || k == At(a, Deployment, Runner) || k == At(a, Service, Runner)
  }

  lemma WorkloadsDistinct(a: Assistant, tlsApi: string, tlsRunner: string)
    ensures Keyed(AP.Workloads(a, tlsApi, tlsRunner)) && Distinct(AP.Workloads(a, tlsApi, tlsRunner))
    ensures forall op | op in AP.Workloads(a, tlsApi, tlsRunner) ::
              OfStack(a, op.key)
  {
    hide SandboxMeta, ApiBody, RunnerBody, ServiceBody, DockerBody, NameOf, Prefix, Suffix;
    var prefix := Prefix(a.ns, a.name);
    if NameOf(prefix, Api) == NameOf(prefix, Runner) {
      NamesInjective(prefix, Api, prefix, Runner);
    }
  }

  /** The stack and the target Secret, from what the store holds; its status write is not part of it. */
  lemma StackDistinct(s: Store, a: Assistant, apiKey: string)
    ensures Keyed(AP.StackPart(s, a, apiKey).ops) && Distinct(AP.StackPart(s, a, apiKey).ops)
    ensures forall op | op in AP.StackPart(s, a, apiKey).ops :: op.key == TargetKey(a) || OfStack(a, op.key)
  {
    hide AP.Workloads, Run, AP.ReadKey, AP.TargetData, InstanceAi.TargetFields, AP.Revision, NameOf, Prefix, TargetKey;
    var tlsApi, tlsRunner := AP.Revision(s, At(a, Secret, TlsApi)), AP.Revision(s, At(a, Secret, TlsRunner));
    var work := AP.Workloads(a, tlsApi, tlsRunner);
    WorkloadsDistinct(a, tlsApi, tlsRunner);
    var target := AP.TargetPart(Run(s, work), a, apiKey).ops;
    TargetIsSecret(a);
    DistinctConcat(work, target);
  }

  lemma TargetIsSecret(a: Assistant)
    ensures TargetKey(a).kind.Secret?
  {}

  /** Pointing the Assistant at another target leaves the old target's Secret as it is: nothing ever removes it. */
  lemma OldTargetStays(s: Store, a: Assistant, b: Assistant, apiKey: string)
    requires a.ns == b.ns && a.name == b.name && a.targetName != b.targetName
    ensures Run(s, AP.StackPart(s, b, apiKey).ops).Find(TargetKey(a)) == s.Find(TargetKey(a))
  {
    hide Run, AP.StackPart, NameOf, Prefix, TargetKey;
    StackDistinct(s, b, apiKey);
    TargetsDiffer(a, b);
    TargetIsSecret(a);
    RunFrame(s, AP.StackPart(s, b, apiKey).ops, TargetKey(a));
  }

  lemma TargetsDiffer(a: Assistant, b: Assistant)
    requires a.targetName != b.targetName
    ensures TargetKey(a) != TargetKey(b)
  {
    var n, m := InstanceAiSecret(a.targetName), InstanceAiSecret(b.targetName);
    assert a.targetName == n[..|n| - 12] && b.targetName == m[..|m| - 12];
  }

  // ----- The target -----

  /** What the Assistant is wired into, with the API groups that are served. */
  datatype Target = ToCluster(c: Cluster, cloud: P.Cloud) | ToSingle(s: Single, gateway: bool)

  /** The whole failure-free pass of the target's controller. */
  function TargetPass(t: Store, target: Target, g: string): Plan {
    match target
    case ToCluster(c, cloud) => Convergence.CleanPass(t, c, g, cloud)
    case ToSingle(s, gateway) => SingleRuns.CleanPass(t, s, g, gateway)
  }

  predicate Wired(a: Assistant, target: Target) {
    match target
    case ToCluster(c, _) => a.ns == c.ns && a.targetName == c.name
    case ToSingle(s, _) => a.ns == s.ns && a.targetName == s.name
  }

  /** A Single's Deployment and Service, which carry its bare name, are not the sandbox stack's. */
  predicate NamesApart(a: Assistant, target: Target) {
    target.ToSingle? && a.SandboxNamespace() == target.s.ns ==>
      target.s.name != NameOf(Prefix(a.ns, a.name), Api) && target.s.name != NameOf(Prefix(a.ns, a.name), Runner)
  }

  function GeneratedKey(a: Assistant): Key {
    Key(Secret, a.ns, EncryptionSecret(a.targetName))
  }

  /** The generated Secret has one entry. */
  predicate OnlyKey(f: Fields) {
    forall p | p in f && p.Data? :: p == Data("encryption_key")
  }

  /** A pass that keeps off the Assistant's objects; the only Secret it writes is the generated key, created once. */
  predicate Passive(a: Assistant, pass: seq<Op>) {
    && Keyed(pass) && Distinct(pass)
    && forall op | op in pass ::
         && op.key != TargetKey(a) && !OfStack(a, op.key)
         && (op.key.kind.Secret? ==> op.key == GeneratedKey(a) && op.Create? && OnlyKey(op.want))
  }

  // ----- Passes of the two kinds of targets are passive -----

  /** No object of the stack is one a Cluster pass of that name writes. */
  lemma StackKeyNotOwn(a: Assistant, c: Cluster, k: Key)
    requires a.ns == c.ns && a.targetName == c.name
    requires k == TargetKey(a) || OfStack(a, k)
    ensures !ClusterOrder.Own(c.ns, c.name, k)
  {
    if k == TargetKey(a) {
      assert |k.name| == |c.name| + 12;
    } else {
      StackLetter(a, k);
      OwnLetter(c.ns, c.name, k);
    }
  }

  function FourthLast(s: string): char {
    if |s| < 4 then ' ' else s[|s| - 4]
  }

  lemma StackLetter(a: Assistant, k: Key)
    requires OfStack(a, k)
    ensures FourthLast(k.name) in ['-', 'e', 'c']
  {
    hide Prefix;
    var prefix := Prefix(a.ns, a.name);
    assert FourthLast(NameOf(prefix, Api)) == '-' && FourthLast(NameOf(prefix, Runner)) == 'e';
    assert FourthLast(NameOf(prefix, DockerPvc)) == 'c';
  }

  lemma OwnLetter(ns: string, name: string, k: Key)
    ensures ClusterOrder.Own(ns, name, k) && (k.kind.PersistentVolumeClaim? || k.kind.Deployment? || k.kind.Service?)
        ==>
              FourthLast(k.name) in ['o', 'd', 'm', 'r', 'h']
  {
    assert FourthLast(NodesPvc(name)) == 'o' && FourthLast(BinaryPvc(name)) == 'd' && FourthLast(MainPvc(name)) == 'd';
    assert FourthLast(MainName(name)) == 'm' && FourthLast(WorkerName(name)) == 'r' && FourthLast(WebhookName(name))
        == 'h';
  }

  lemma StackKeyNotOfSingle(a: Assistant, s: Single, gateway: bool, k: Key)
    requires a.ns == s.ns && a.targetName == s.name && NamesApart(a, ToSingle(s, gateway))
    requires k == TargetKey(a) || OfStack(a, k)
    ensures !SingleRuns.Own(s.ns, s.name, k)
  {
    hide Prefix;
    assert |EncryptionSecret(s.name)| == |s.name| + 15 && |InstanceAiSecret(s.name)| == |s.name| + 12;
    var docker, data := NameOf(Prefix(a.ns, a.name), DockerPvc), s.name + "-data";
    assert docker[|docker| - 1] == 'r' && data[|data| - 1] == 'a';
  }

  lemma GeneratedHasOnlyKey(name: string, image: string, g: string, owner: string)
    ensures OnlyKey(EncryptionSecretFields(name, image, g, owner))
  {
    hide CommonLabels, Meta;
    MetaPaths(CommonLabels(name, image, "encryption-key"), owner);
  }

  lemma ClusterKeyOf(c: Cluster, g: string)
    ensures var e := RenderCluster(c, g).encryption; e.Some? ==> OnlyKey(e.value)
  {
    hide IngressFields, RouteFields, EncryptionSecretFields, Pvc, MainDeployment, WorkerDeployment, WebhookDeployment,
         ServiceFields, DestinationRuleFields, HpaFields, ClusterStatus, RoleSurface, OnlyKey;
    GeneratedHasOnlyKey(c.name, c.image, g, ClusterOwner(c.name));
  }

  lemma ClusterSecretWrite(c: Cluster, g: string, cloud: P.Cloud, revision: string, op: Op)
    requires op in P.ClusterPlan(c, g, cloud, revision).ops && !op.Purge? && op.key.kind.Secret?
    ensures op.key == Key(Secret, c.ns, EncryptionSecret(c.name)) && op.Create? && OnlyKey(op.want)
  {
    hide RenderCluster, ClusterError, P.ClusterPass, P.RolesPart, ClusterOrder.Own, OnlyKey;
    var o := RenderCluster(c, g);
    ClusterKeyOf(c, g);
    ClusterOrder.ClusterAscends(c.ns, c.name, o, cloud, revision);
    SecretInShared(c.ns, c.name, o, cloud, revision, op);
  }

  lemma SecretInShared(ns: string, name: string, o: Objects, cloud: P.Cloud, revision: string, op: Op)
    requires op in P.ClusterPass(ns, name, o, cloud, revision).ops && !op.Purge? && op.key.kind.Secret?
    ensures o.encryption.Some? && op == Create(Key(Secret, ns, EncryptionSecret(name)), o.encryption.value)
  {
    hide P.RolesPart, ClusterOrder.Own;
    ClusterOrder.ClusterAscends(ns, name, o, cloud, revision);
    assert op !in P.RolesPart(ns, name, o, cloud, revision).ops;
  }

  lemma SingleSecretWrite(s: Single, g: string, gateway: bool, revision: string, op: Op)
    requires op in P.SinglePlan(s, g, gateway, revision).ops && !op.Purge? && op.key.kind.Secret?
    ensures op.key == Key(Secret, s.ns, EncryptionSecret(s.name)) && op.Create? && OnlyKey(op.want)
  {
    hide RenderSingle, SingleError, P.ChildrenPart, OnlyKey;
    var o := RenderSingle(s, g);
    SingleRuns.ChildrenApart(s.ns, s.name, o, gateway, revision);
    SingleKeyOf(s, g);
  }

  lemma SingleKeyOf(s: Single, g: string)
    ensures var e := RenderSingle(s, g).encryption; e.Some? ==> OnlyKey(e.value)
  {
    hide IngressFields, RouteFields, EncryptionSecretFields, Pvc, SingleDeployment, ServiceFields, RoleSurface, OnlyKey,
         KeySecret;
    GeneratedHasOnlyKey(s.name, s.image, g, "Single/" + s.name);
  }

  lemma PassIsPassive(t: Store, a: Assistant, target: Target, g: string)
    requires Wired(a, target) && NamesApart(a, target)
    ensures Passive(a, TargetPass(t, target, g).ops)
  {
    hide P.ClusterPlan, P.SinglePlan, P.Revision, OnlyKey, OfStack, TargetKey, ClusterOrder.Own, SingleRuns.Own,
         NamesApart;
    var pass := TargetPass(t, target, g).ops;
    match target
    case ToCluster(c, cloud) =>
      var revision := P.Revision(t, c.ns, c.name);
      ClusterRuns.PlanDistinct(c, g, cloud, revision);
      ClusterRuns.PlanShape(c, g, cloud, revision);
      forall op | op in pass ensures op.key != TargetKey(a) && !OfStack(a, op.key)
        && (op.key.kind.Secret? ==> op.key == GeneratedKey(a) && op.Create? && OnlyKey(op.want))
      {
        if op.key == TargetKey(a) || OfStack(a, op.key) {
          StackKeyNotOwn(a, c, op.key);
        }
        if op.key.kind.Secret? {
          ClusterSecretWrite(c, g, cloud, revision, op);
        }
      }
    case ToSingle(s, gateway) =>
      var revision := P.Revision(t, s.ns, s.name);
      SingleRuns.PlanDistinct(s, g, gateway, revision);
      SingleRuns.PlanOwn(s, g, gateway, revision);
      forall op | op in pass ensures op.key != TargetKey(a) && !OfStack(a, op.key)
        && (op.key.kind.Secret? ==> op.key == GeneratedKey(a) && op.Create? && OnlyKey(op.want))
      {
        if op.key == TargetKey(a) || OfStack(a, op.key) {
          StackKeyNotOfSingle(a, s, gateway, op.key);
        }
        if op.key.kind.Secret? {
          SingleSecretWrite(s, g, gateway, revision, op);
        }
      }
  }

  // ----- What an apply of the Assistant writes -----

  function ModelOf(s: Store, a: Assistant): Result<Option<string>> {
    AP.ReadKey(s, a.ns, a.modelKey)
  }

  function BraveOf(s: Store, a: Assistant): Result<Option<string>> {
    AP.ReadKey(s, a.ns, a.brave)
  }

  /** Both of the user's keys can be read. */
  predicate Readable(s: Store, a: Assistant) {
    ModelOf(s, a).Ok? && BraveOf(s, a).Ok?
  }

  function Work(s: Store, a: Assistant): seq<Op> {
    AP.Workloads(a, AP.Revision(s, At(a, Secret, TlsApi)), AP.Revision(s, At(a, Secret, TlsRunner)))
  }

  function TargetWrite(a: Assistant, apiKey: string, model: Option<string>, brave: Option<string>): Op {
    Put(TargetKey(a), InstanceAi.TargetFields(a, AP.TargetData(a, apiKey, model, brave)))
  }

  lemma StackIs(s: Store, a: Assistant, apiKey: string)
    ensures AP.StackPart(s, a, apiKey).ok <==> Readable(s, a)
    ensures AP.StackPart(s, a, apiKey).ops
         == Work(s, a)
             + if Readable(s, a) then [TargetWrite(a, apiKey, ModelOf(s, a).value, BraveOf(s, a).value)] else []
  {
    hide AP.Workloads, AP.TargetData, InstanceAi.TargetFields, TargetKey, AP.ReadKey, Run, AP.Revision, At;
    WorkloadsDistinct(a, AP.Revision(s, At(a, Secret, TlsApi)), AP.Revision(s, At(a, Secret, TlsRunner)));
    ReadPastWork(s, Work(s, a), a, a.modelKey);
    ReadPastWork(s, Work(s, a), a, a.brave);
  }

  lemma ReadPastWork(s: Store, work: seq<Op>, a: Assistant, r: Option<SecretKeyRef>)
    requires Keyed(work) && forall op | op in work :: OfStack(a, op.key)
    ensures AP.ReadKey(Run(s, work), a.ns, r) == AP.ReadKey(s, a.ns, r)
  {
    hide Run, DataText, NameOf, Prefix;
    if r.Some? {
      RunFrame(s, work, Key(Secret, a.ns, r.value.name));
    }
  }

  // ----- What a round changes -----

  /** The store after an apply of the Assistant and then a pass of its target. */
  function After(s: Store, a: Assistant, apiKey: string, pass: seq<Op>): Store {
    Run(Run(s, AP.StackPart(s, a, apiKey).ops), pass)
  }

  lemma RoundSettled(s: Store, a: Assistant, apiKey: string, pass: seq<Op>, op: Op)
    requires Passive(a, pass) && (op in AP.StackPart(s, a, apiKey).ops || op in pass)
    ensures Settled(After(s, a, apiKey, pass), op)
  {
    hide Run, AP.StackPart, Settled, OnlyKey, OfStack, TargetKey;
    StackDistinct(s, a, apiKey);
    BothSettled(s, AP.StackPart(s, a, apiKey).ops, pass, op);
  }

  /** Secrets other than the target's and the generated key are left alone. */
  lemma RoundKeeps(s: Store, a: Assistant, apiKey: string, pass: seq<Op>, k: Key)
    requires Passive(a, pass) && k.kind.Secret? && k != TargetKey(a) && k != GeneratedKey(a)
    ensures After(s, a, apiKey, pass).Find(k) == s.Find(k)
  {
    hide Run, AP.StackPart, OnlyKey, TargetKey, NameOf, Prefix;
    StackDistinct(s, a, apiKey);
    RunFrame(s, AP.StackPart(s, a, apiKey).ops, k);
    RunFrame(Run(s, AP.StackPart(s, a, apiKey).ops), pass, k);
  }

  lemma {:induction false} CreatedKey(s: Store, ops: seq<Op>, k: Key)
    requires Keyed(ops) && forall op | op in ops && op.key == k :: op.Create? && OnlyKey(op.want)
    ensures k in s.objects ==> Run(s, ops).Find(k) == s.Find(k)
    ensures k !in s.objects && k in Run(s, ops).objects ==> OnlyKey(Run(s, ops).objects[k].fields)
    decreases |ops|
  {
    hide OnlyKey;
    if ops != [] {
      assert ops[0] in ops && forall op | op in ops[1..] :: op in ops;
      var t := Step(s, ops[0]);
      CreatedKey(t, ops[1..], k);
      if ops[0].key == k && k !in s.objects {
        assert t.objects[k].fields == ops[0].want;
        assert Run(t, ops[1..]).Find(k) == t.Find(k);
      } else {
        assert t.Find(k) == s.Find(k);
      }
    }
  }

  /** The generated key is left as it is, or new and without any other entry. */
  lemma RoundKeepsKey(s: Store, a: Assistant, apiKey: string, pass: seq<Op>)
    requires Passive(a, pass)
    ensures var t, k := After(s, a, apiKey, pass), GeneratedKey(a);
            && (k in s.objects ==> t.Find(k) == s.Find(k))
            && (k !in s.objects && k in t.objects ==> OnlyKey(t.objects[k].fields))
  {
    KeysApart(a);
    hide Run, AP.StackPart, OnlyKey, TargetKey, GeneratedKey, NameOf, Prefix;
    StackDistinct(s, a, apiKey);
    var s1 := Run(s, AP.StackPart(s, a, apiKey).ops);
    RunFrame(s, AP.StackPart(s, a, apiKey).ops, GeneratedKey(a));
    assert s1.Find(GeneratedKey(a)) == s.Find(GeneratedKey(a));
    CreatedKey(s1, pass, GeneratedKey(a));
  }

  lemma KeysApart(a: Assistant)
    ensures TargetKey(a) != GeneratedKey(a) && TargetKey(a).kind.Secret? && GeneratedKey(a).kind.Secret?
  {
    var n, m := InstanceAiSecret(a.targetName), EncryptionSecret(a.targetName);
    assert |n| == |a.targetName| + 12 && |m| == |a.targetName| + 15;
  }

  /** The object at `k` is the same, resource version aside. */
  predicate AlikeAt(s: Store, t: Store, k: Key) {
    k in s.objects && k in t.objects && s.objects[k].(version := 0) == t.objects[k].(version := 0)
  }

  /** The target's Secret is what one apply of the new contents makes of it, or untouched when a key was unreadable. */
  lemma RoundOnTarget(s: Store, a: Assistant, apiKey: string, pass: seq<Op>)
    requires Passive(a, pass)
    ensures if Readable(s, a) then
              AlikeAt(After(s, a, apiKey, pass),
                      Step(s, TargetWrite(a, apiKey, ModelOf(s, a).value, BraveOf(s, a).value)), TargetKey(a))
            else After(s, a, apiKey, pass).Find(TargetKey(a)) == s.Find(TargetKey(a))
  {
    hide Run, AP.StackPart, OnlyKey, OfStack, TargetKey, Step, Work, InstanceAi.TargetFields, AP.TargetData;
    var ops, k := AP.StackPart(s, a, apiKey).ops, TargetKey(a);
    StackDistinct(s, a, apiKey);
    StackIs(s, a, apiKey);
    RunFrame(Run(s, ops), pass, k);
    assert After(s, a, apiKey, pass).Find(k) == Run(s, ops).Find(k);
    if Readable(s, a) {
      RunActs(s, ops, TargetWrite(a, apiKey, ModelOf(s, a).value, BraveOf(s, a).value));
    } else {
      WorkIsNoTarget(s, a);
      RunFrame(s, ops, k);
    }
  }

  lemma WorkIsNoTarget(s: Store, a: Assistant)
    ensures Keyed(Work(s, a)) && forall op | op in Work(s, a) :: op.key != TargetKey(a)
  {
    hide AP.Workloads, AP.Revision, NameOf, Prefix, InstanceAiSecret;
    WorkloadsDistinct(a, AP.Revision(s, At(a, Secret, TlsApi)), AP.Revision(s, At(a, Secret, TlsRunner)));
  }

  lemma TlsNamesApart(a: Assistant)
    ensures At(a, Secret, TlsApi) != TargetKey(a) && At(a, Secret, TlsRunner) != TargetKey(a)
    ensures At(a, Secret, TlsApi) != GeneratedKey(a)
    ensures At(a, Secret, TlsRunner) != GeneratedKey(a)
  {
    hide Prefix;
    var prefix := Prefix(a.ns, a.name);
    var api, runner := NameOf(prefix, TlsApi), NameOf(prefix, TlsRunner);
    var target, key := InstanceAiSecret(a.targetName), EncryptionSecret(a.targetName);
    assert api[|api| - 2] == 'p' && runner[|runner| - 1] == 'r';
    assert target[|target| - 2] == 'a' && target[|target| - 1] == 'i' && key[|key| - 1] == 'y' && api[|api| - 1] == 'i';
  }

  /** A round leaves the certificates alone, so the next one stamps the same revisions on the sandbox workloads. */
  lemma SameWork(s: Store, a: Assistant, apiKey: string, pass: seq<Op>)
    requires Passive(a, pass)
    ensures Work(After(s, a, apiKey, pass), a) == Work(s, a)
  {
    TlsNamesApart(a);
    hide After, AP.Workloads, TargetKey, GeneratedKey, Passive, NameOf, Prefix;
    RoundKeeps(s, a, apiKey, pass, At(a, Secret, TlsApi));
    RoundKeeps(s, a, apiKey, pass, At(a, Secret, TlsRunner));
  }

  // ----- What the next round reads -----

  /** The entry a reference asks for is one the operator itself writes into the target's Secret. */
  predicate Echoes(a: Assistant, r: SecretKeyRef) {
    r.name == InstanceAiSecret(a.targetName) && r.key in DataKeys(a)
  }

  function AnyText(r: Option<SecretKeyRef>): Option<string> {
    if r.Some? then Some("") else None
  }

  /** The entries of the target's Secret; which ones there are does not depend on the keys' contents. */
  function DataKeys(a: Assistant): set<string> {
    AP.TargetData(a, "", AnyText(a.modelKey), AnyText(a.brave)).Keys
  }

  /** Contents as they can be read: present exactly when referred to. */
  predicate Contents(a: Assistant, model: Option<string>, brave: Option<string>) {
    (model.Some? <==> a.modelKey.Some?) && (brave.Some? <==> a.brave.Some?)
  }

  /** The names in a sum of optional entries depend on which of them there are, not on their values. */
  lemma KeysAlike(a: map<string, string>, b: map<string, string>, n1: string, v1: Option<string>, n2: string,
                  v2: Option<string>, w2: Option<string>, n3: string, v3: Option<string>, w3: Option<string>,
                  n4: string, v4: Option<string>)
    requires a.Keys == b.Keys && (v2.Some? <==> w2.Some?) && (v3.Some? <==> w3.Some?)
    ensures (a + InstanceAi.Entry(n1, v1) + InstanceAi.Entry(n2, v2) + InstanceAi.Entry(n3, v3)
             + InstanceAi.Entry(n4, v4)).Keys
         == (b + InstanceAi.Entry(n1, v1) + InstanceAi.Entry(n2, w2) + InstanceAi.Entry(n3, w3)
             + InstanceAi.Entry(n4, v4)).Keys
  {
    hide InstanceAi.Entry;
    EntryKeys(n2, v2, w2);
    EntryKeys(n3, v3, w3);
  }

  lemma EntryKeys(n: string, v: Option<string>, w: Option<string>)
    requires v.Some? <==> w.Some?
    ensures InstanceAi.Entry(n, v).Keys == InstanceAi.Entry(n, w).Keys
  {}

  lemma FixedKeys(a: Assistant, url: string, k1: string, k2: string)
    ensures InstanceAi.FixedData(a, url, k1).Keys == InstanceAi.FixedData(a, url, k2).Keys
  {}

  lemma DataOf(a: Assistant, apiKey: string, model: Option<string>, brave: Option<string>)
    requires Contents(a, model, brave)
    ensures var d := AP.TargetData(a, apiKey, model, brave);
            && d.Keys == DataKeys(a)
            && (model.Some? ==> InstanceAi.MODEL_KEY in d && d[InstanceAi.MODEL_KEY] == model.value)
            && (brave.Some? ==> InstanceAi.BRAVE_KEY in d && d[InstanceAi.BRAVE_KEY] == brave.value)
            && (brave.None? ==> InstanceAi.BRAVE_KEY !in d) && (model.None? ==> InstanceAi.MODEL_KEY !in d)
  {
    var url := ApiUrl(Prefix(a.ns, a.name), a.SandboxNamespace());
    hide InstanceAi.MODEL_URL, InstanceAi.MODEL_KEY, InstanceAi.BRAVE_KEY, InstanceAi.SEARXNG_URL, ApiUrl,
         InstanceAi.FixedData, InstanceAi.Entry;
    InstanceAi.OptionalEntries(a, url, apiKey, model, brave);
    FixedKeys(a, url, apiKey, "");
    KeysAlike(InstanceAi.FixedData(a, url, apiKey), InstanceAi.FixedData(a, url, ""), InstanceAi.MODEL_URL, a.modelUrl,
              InstanceAi.MODEL_KEY, model, AnyText(a.modelKey), InstanceAi.BRAVE_KEY, brave, AnyText(a.brave),
              InstanceAi.SEARXNG_URL, a.searxng);
  }

  lemma EntryElsewhere(n: string, v: Option<string>, name: string)
    ensures name != n ==> name !in InstanceAi.Entry(n, v)
  {}

  lemma SumElsewhere(base: map<string, string>, x: map<string, string>, y: map<string, string>,
                     last: map<string, string>, name: string)
    requires name !in x && name !in y
    ensures var d := base + x + y + last;
            && (name in d <==> name in base || name in last)
            && (name in d ==> d[name] == if name in last then last[name] else base[name])
  {}

  /** An entry other than the two keys is the same in every round. */
  lemma FixedEntry(a: Assistant, apiKey: string, m: Option<string>, b: Option<string>, n: Option<string>,
                   c: Option<string>, name: string)
    requires Contents(a, m, b) && Contents(a, n, c) && name in DataKeys(a)
    requires name != InstanceAi.MODEL_KEY && name != InstanceAi.BRAVE_KEY
    ensures name in AP.TargetData(a, apiKey, m, b) && name in AP.TargetData(a, apiKey, n, c)
    ensures AP.TargetData(a, apiKey, m, b)[name] == AP.TargetData(a, apiKey, n, c)[name]
  {
    hide InstanceAi.MODEL_URL, InstanceAi.MODEL_KEY, InstanceAi.BRAVE_KEY, InstanceAi.SEARXNG_URL, ApiUrl,
         InstanceAi.FixedData, InstanceAi.Entry, DataKeys, Contents;
    DataOf(a, apiKey, m, b);
    DataOf(a, apiKey, n, c);
    var url := ApiUrl(Prefix(a.ns, a.name), a.SandboxNamespace());
    var base := InstanceAi.FixedData(a, url, apiKey) + InstanceAi.Entry(InstanceAi.MODEL_URL, a.modelUrl);
    var last := InstanceAi.Entry(InstanceAi.SEARXNG_URL, a.searxng);
    EntryElsewhere(InstanceAi.MODEL_KEY, m, name);
    EntryElsewhere(InstanceAi.BRAVE_KEY, b, name);
    EntryElsewhere(InstanceAi.MODEL_KEY, n, name);
    EntryElsewhere(InstanceAi.BRAVE_KEY, c, name);
    SumElsewhere(base, InstanceAi.Entry(InstanceAi.MODEL_KEY, m), InstanceAi.Entry(InstanceAi.BRAVE_KEY, b), last,
                 name);
    SumElsewhere(base, InstanceAi.Entry(InstanceAi.MODEL_KEY, n), InstanceAi.Entry(InstanceAi.BRAVE_KEY, c), last,
                 name);
  }

  /** What a reference reads after a round in which the two keys had these contents, if it can be read at all. */
  function NextValue(a: Assistant, apiKey: string, r: Option<SecretKeyRef>, now: Option<string>, model: Option<string>,
                     brave: Option<string>): Option<string>
  {
    if r.None? || r.value.name != InstanceAiSecret(a.targetName) then now
    else
      var d := AP.TargetData(a, apiKey, model, brave);
      if r.value.key in d then Some(d[r.value.key]) else now
  }

  /** The field a reference reads is not the operator's to drop. */
  predicate Stays(s: Store, a: Assistant, r: Option<SecretKeyRef>) {
    r.Some? && TargetKey(a) in s.objects ==> Data(r.value.key) !in s.objects[TargetKey(a)].owned
  }

  /**
   How a reference reads before and after a round in which the two keys read as `model` and `brave`: an unreadable
   key stays unreadable, and a readable one reads as `NextValue` says, or not at all if its entry has been dropped.
   */
  predicate ReadsOn(a: Assistant, apiKey: string, r: Option<SecretKeyRef>, was: Result<Option<string>>,
                    now: Result<Option<string>>, model: Result<Option<string>>, brave: Result<Option<string>>,
                    stays: bool)
  {
    if model.Ok? && brave.Ok? then
      was.Ok? ==>
        && (now.Ok? ==> now.value == NextValue(a, apiKey, r, was.value, model.value, brave.value))
        && (stays ==> now.Ok?)
    else (was.Err? ==> now.Err?) && (was.Ok? && now.Ok? ==> now == was)
  }

  lemma NextRead(s: Store, a: Assistant, apiKey: string, pass: seq<Op>, r: Option<SecretKeyRef>)
    requires Passive(a, pass) && (r.Some? ==> r.value.key != "encryption_key")
    ensures ReadsOn(a, apiKey, r, AP.ReadKey(s, a.ns, r), AP.ReadKey(After(s, a, apiKey, pass), a.ns, r),
                    ModelOf(s, a), BraveOf(s, a), Stays(s, a, r))
  {
    hide After, OnlyKey, InstanceAi.TargetFields, AP.TargetData, ModelOf, BraveOf, InstanceAiSecret,
         EncryptionSecret, Passive;
    if r.Some? {
      var k := Key(Secret, a.ns, r.value.name);
      if k == TargetKey(a) {
        NextTargetRead(s, a, apiKey, pass, r.value);
      } else if k == GeneratedKey(a) {
        RoundKeepsKey(s, a, apiKey, pass);
        NoSuchKey(s, After(s, a, apiKey, pass), k, r.value.key);
      } else {
        RoundKeeps(s, a, apiKey, pass, k);
      }
    }
  }

  lemma NoSuchKey(s: Store, t: Store, k: Key, key: string)
    requires key != "encryption_key"
    requires k in s.objects ==> t.Find(k) == s.Find(k)
    requires k !in s.objects && k in t.objects ==> OnlyKey(t.objects[k].fields)
    ensures k in s.objects || k !in t.objects || DataText(t.objects[k], key).None?
  {}

  lemma NextTargetRead(s: Store, a: Assistant, apiKey: string, pass: seq<Op>, r: SecretKeyRef)
    requires Passive(a, pass) && r.name == InstanceAiSecret(a.targetName)
    ensures ReadsOn(a, apiKey, Some(r), AP.ReadKey(s, a.ns, Some(r)),
                    AP.ReadKey(After(s, a, apiKey, pass), a.ns, Some(r)), ModelOf(s, a), BraveOf(s, a),
                    Stays(s, a, Some(r)))
  {
    hide After, Passive, InstanceAi.TargetFields, AP.TargetData, ModelOf, BraveOf, InstanceAiSecret;
    RoundOnTarget(s, a, apiKey, pass);
    if Readable(s, a) {
      InstanceAi.TargetDataExact(a, AP.TargetData(a, apiKey, ModelOf(s, a).value, BraveOf(s, a).value), r.key);
    }
  }
}

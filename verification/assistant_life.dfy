/**
 The life of one Assistant: spec edits, reconciles that may end after any call, bootstrap pods, other clients, and
 at last the cleanup. Each write is one step. The namespace pin, and what the cleanup reaches, over all runs.
 */
module AssistantLife {
  import opened Wrappers
  import opened Kube
  import opened Server
  import opened Resources
  import opened Builders
  import opened SandboxNames
  import opened AssistantValidate
  import opened AssistantObjects
  import opened AssistantPlans
  import opened AssistantApply
  import CreateOnce
  import InstanceAi
  import Tlspub
  import Selectors

  // ----- What a reconcile writes -----

  /** A name generated for the Assistant with this prefix. */
  predicate Named(prefix: string, name: string) {
    exists part: Part :: name == NameOf(prefix, part)
  }

  /** A place in the sandbox namespace: of a kind the cleanup purges, and under a name generated for the Assistant. */
  predicate SandboxKey(a: Assistant, k: Key) {
    k.ns == a.SandboxNamespace() && k.kind in PURGED_KINDS && Named(Prefix(a.ns, a.name), k.name)
  }

  /** A write to such a place, under the identity labels. */
  predicate SandboxOp(a: Assistant, op: Op) {
    && !op.Purge? && !op.Discard? && SandboxKey(a, op.key)
    && (op.Put? || op.Create? ==> MarkedFields(op.want, a.ns, a.name))
  }

  predicate TargetOp(a: Assistant, op: Op) {
    op.Put? && op.key == TargetKey(a) && MarkedFields(op.want, a.ns, a.name)
  }

  /** Every status a reconcile writes carries the pin. */
  predicate StatusOp(a: Assistant, op: Op) {
    op.Put? && op.key == StatusKey(a) && PIN in op.want && op.want[PIN] == Text(a.SandboxNamespace())
  }

  predicate ReconcileOp(a: Assistant, op: Op) {
    SandboxOp(a, op) || TargetOp(a, op) || StatusOp(a, op)
  }

  lemma PutIsSandboxOp(a: Assistant, kind: Kind, part: Part, component: string, body: Fields)
    requires kind in PURGED_KINDS && Unlabelled(body)
    ensures SandboxOp(a, Put(At(a, kind, part), SandboxMeta(a, component) + body))
    ensures SandboxOp(a, Create(At(a, kind, part), SandboxMeta(a, component) + body))
  {
    hide SandboxMeta, MarkedFields, NameOf, Prefix;
    MetaMarked(a, component, body);
    AtIsSandboxKey(a, kind, part);
  }

  lemma AtIsSandboxKey(a: Assistant, kind: Kind, part: Part)
    requires kind in PURGED_KINDS
    ensures SandboxKey(a, At(a, kind, part))
  {
    hide NameOf, Prefix, PURGED_KINDS;
    assert At(a, kind, part).name == NameOf(Prefix(a.ns, a.name), part);
  }

  lemma AccessOps(a: Assistant)
    ensures forall op | op in Access(a) :: SandboxOp(a, op)
  {
    hide SandboxOp, SandboxMeta, At;
    PutIsSandboxOp(a, ServiceAccount, Certs, "sandbox-certs", map[]);
    assert SandboxMeta(a, "sandbox-certs") + map[] == SandboxMeta(a, "sandbox-certs");
    PutIsSandboxOp(a, Role, Certs, "sandbox-certs", RoleBody());
    PutIsSandboxOp(a, RoleBinding, Certs, "sandbox-certs", BindingBody(a));
  }

  lemma JobOps(s: Store, a: Assistant)
    ensures forall op | op in JobPart(s, a) :: SandboxOp(a, op)
  {
    hide SandboxMeta, JobFinished, MarkedFields, NameOf, Prefix, Tlspub.JobArgs, SandboxKey;
    AtIsSandboxKey(a, Job, Certs);
    PutIsSandboxOp(a, Job, Certs, "sandbox-certs", JobBody(a));
  }

  lemma WorkloadUnlabelled(a: Assistant, component: string, tls: string, image: string, env: seq<EnvEntry>,
                           volumes: seq<string>, pod: Option<PodConfig>)
    ensures Unlabelled(WorkloadBody(a, component, tls, image, env, volumes, pod))
  {
    hide WorkloadFields, Selectors.PodSelector, SandboxLabels, CommonAnnotations;
    WorkloadPaths(Selectors.PodSelector(a.ns, a.name, component), SandboxLabels(a.ns, a.name, component),
                  CommonAnnotations()["n8n.slys.dev/tls-revision" := tls], pod);
  }

  lemma ServiceUnlabelled(a: Assistant, component: string, ports: seq<string>)
    ensures Unlabelled(ServiceBody(a, component, ports))
  {
    hide Selectors.PodSelector;
  }

  lemma DockerUnlabelled(p: Storage)
    ensures Unlabelled(DockerBody(p))
  {}

  lemma ApiUnlabelled(a: Assistant, tls: string)
    ensures Unlabelled(ApiBody(a, tls)) && Unlabelled(RunnerBody(a, tls))
  {
    hide WorkloadBody, Unlabelled, NameOf, Prefix, ApiEnv, RunnerEnv, RunnerVolumes;
    WorkloadUnlabelled(a, "sandbox-api", tls, "ghcr.io/n8n-io/n8n-sandbox-service-api", ApiEnv(a),
                       ["tls:" + NameOf(Prefix(a.ns, a.name), TlsApi)], a.apiPod);
    WorkloadUnlabelled(a, "sandbox-runner", tls, "ghcr.io/n8n-io/n8n-sandbox-service-runner-dind", RunnerEnv(a),
                       RunnerVolumes(a), a.runnerPod);
  }

  lemma WorkloadOps(a: Assistant, tlsApi: string, tlsRunner: string)
    ensures forall op | op in Workloads(a, tlsApi, tlsRunner) :: SandboxOp(a, op)
  {
    hide SandboxOp, SandboxMeta, ApiBody, RunnerBody, ServiceBody, DockerBody, At, Unlabelled;
    if a.dockerPersistence.Some? {
      DockerUnlabelled(a.dockerPersistence.value);
      PutIsSandboxOp(a, PersistentVolumeClaim, DockerPvc, "sandbox-runner", DockerBody(a.dockerPersistence.value));
    }
    ApiUnlabelled(a, tlsApi);
    ApiUnlabelled(a, tlsRunner);
    ServiceUnlabelled(a, "sandbox-api", ["http:8080", "grpc:9090"]);
    ServiceUnlabelled(a, "sandbox-runner", ["control:9091", "http:8080"]);
    PutIsSandboxOp(a, Deployment, Api, "sandbox-api", ApiBody(a, tlsApi));
    PutIsSandboxOp(a, Service, Api, "sandbox-api", ServiceBody(a, "sandbox-api", ["http:8080", "grpc:9090"]));
    PutIsSandboxOp(a, Deployment, Runner, "sandbox-runner", RunnerBody(a, tlsRunner));
    PutIsSandboxOp(a, Service, Runner, "sandbox-runner",
                   ServiceBody(a, "sandbox-runner", ["control:9091", "http:8080"]));
  }

  lemma SecretOps(s: Store, a: Assistant, drawn: map<string, string>)
    ensures forall op | op in SecretsPart(s, a, drawn).ops :: SandboxOp(a, op)
  {
    hide SandboxOp, SandboxMeta, At, DataText;
    PutIsSandboxOp(a, Secret, Secrets, "sandbox", SharedSecretBody(drawn));
  }

  lemma StatusOps(a: Assistant, st: AssistantStatus)
    requires st.sandboxNamespace == Some(a.SandboxNamespace())
    ensures StatusOp(a, Put(StatusKey(a), StatusFields(st)))
  {
    hide StatusFields;
    StatusPins(st);
  }

  /**
   Whatever the store and the snapshot, a reconcile writes sandbox objects, the target Secret, and pinned statuses.
   */
  lemma PlanOps(s: Store, a: Assistant, seen: Snapshot, drawn: map<string, string>, final: AssistantStatus)
    requires Reported(final, a)
    ensures forall op | op in AssistantPlan(s, a, seen, drawn, final).ops :: ReconcileOp(a, op)
  {
    hide SandboxOp, StatusOp, SecretsPart, AfterSecrets, Admitted, ApiKeyOf, Run;
    SecretOps(s, a, drawn);
    AfterSecretsOps(Run(s, SecretsPart(s, a, drawn).ops), a, ApiKeyOf(s, a, drawn),
                    WaitingStatus(a.SandboxNamespace(), seen.target), final);
  }

  lemma AfterSecretsOps(s: Store, a: Assistant, apiKey: string, waiting: AssistantStatus, final: AssistantStatus)
    requires waiting.sandboxNamespace == Some(a.SandboxNamespace()) == final.sandboxNamespace
    ensures forall op | op in AfterSecrets(s, a, apiKey, waiting, final).ops :: ReconcileOp(a, op)
  {
    hide SandboxOp, StatusOp, Access, JobPart, Workloads, StatusFields, Run, CertsReady, Revision, StatusKey,
        TargetPart, TargetOp;
    AccessOps(a);
    JobOps(s, a);
    var work := Workloads(a, Revision(s, At(a, Secret, TlsApi)), Revision(s, At(a, Secret, TlsRunner)));
    WorkloadOps(a, Revision(s, At(a, Secret, TlsApi)), Revision(s, At(a, Secret, TlsRunner)));
    TargetOps(Run(s, work), a, apiKey);
    StatusOps(a, waiting);
    StatusOps(a, final);
  }

  lemma TargetOps(s: Store, a: Assistant, apiKey: string)
    ensures forall op | op in TargetPart(s, a, apiKey).ops :: TargetOp(a, op)
  {
    hide ReadKey, TargetData, InstanceAi.TargetFields, TargetKey, MarkedFields;
    forall data: map<string, string> ensures MarkedFields(InstanceAi.TargetFields(a, data), a.ns, a.name) {
      TargetMarked(a, data);
    }
  }

  /** The target Secret carries the identity labels, too. */
  lemma TargetMarked(a: Assistant, data: map<string, string>)
    ensures MarkedFields(InstanceAi.TargetFields(a, data), a.ns, a.name)
  {
    hide CommonAnnotations, SandboxLabels, DataFields, LabelFields, MarkedFields, AnnotationFields;
    var l := SandboxLabels(a.ns, a.name, "instance-ai");
    SandboxLabelsMarked(a.ns, a.name, "instance-ai");
    LabelsMark(l, a.ns, a.name);
    RestUnlabelled("Assistant/" + a.name, data);
    StaysMarked(LabelFields(l), AnnotationFields(CommonAnnotations()), a.ns, a.name);
    StaysMarked(LabelFields(l) + AnnotationFields(CommonAnnotations()),
                map[Spec("owner") := Text("Assistant/" + a.name)], a.ns, a.name);
    var m := Meta(l, "Assistant/" + a.name);
    StaysMarked(m, map[Spec("type") := Text("Opaque")], a.ns, a.name);
    StaysMarked(m + map[Spec("type") := Text("Opaque")], DataFields(data), a.ns, a.name);
  }

  lemma LabelsMark(l: map<string, string>, crNs: string, crName: string)
    requires Marked(l, crNs, crName)
    ensures MarkedFields(LabelFields(l), crNs, crName)
  {
    hide ASSISTANT_LABEL, ASSISTANT_NS_LABEL;
    assert Label(ASSISTANT_LABEL) in LabelFields(l) && Label(ASSISTANT_NS_LABEL) in LabelFields(l);
  }

  lemma RestUnlabelled(owner: string, data: map<string, string>)
    ensures Unlabelled(AnnotationFields(CommonAnnotations())) && Unlabelled(DataFields(data))
    ensures Unlabelled(map[Spec("owner") := Text(owner)]) && Unlabelled(map[Spec("type") := Text("Opaque")])
  {
    hide CommonAnnotations;
  }

  lemma StaysMarked(f: Fields, rest: Fields, crNs: string, crName: string)
    requires MarkedFields(f, crNs, crName) && Unlabelled(rest)
    ensures MarkedFields(f + rest, crNs, crName)
  {
    hide ASSISTANT_LABEL, ASSISTANT_NS_LABEL;
  }

  // ----- From the two programs to the steps of a life -----

  /** Whatever a call of `Apply` has written, complete or not, are writes of a reconcile over that spec. */
  lemma ApplyWrites(before: seq<Op>, after: seq<Op>, s: Store, a: Assistant, seen: Snapshot, drawn: map<string, string>,
                    final: AssistantStatus, ok: bool, clean: bool)
    requires Follows(before, after, AssistantPlan(s, a, seen, drawn, final), ok, clean) && Reported(final, a)
    ensures forall op | op in after[|before|..] :: ReconcileOp(a, op)
  {
    hide ReconcileOp, AssistantPlan;
    PlanOps(s, a, seen, drawn, final);
  }

  /**
   What the bootstrap Job of a validated Assistant publishes: Secrets in the sandbox namespace, under the identity
   labels.
   */
  lemma PublishedUnderIdentity(a: Assistant, disk: map<string, string>)
    requires AssistantAllowed(a)
    ensures forall op | op in Tlspub.PublishPlan(Tlspub.JobArgs(a.ns, a.name, a.SandboxNamespace()), disk).ops ::
              SandboxOp(a, op) && op.Put? && op.key.kind.Secret?
  {
    hide AssistantAllowed, Tlspub.Parse, Tlspub.JobArgs, Tlspub.Collected, Tlspub.JobLabels, NameOf, Prefix,
        ASSISTANT_LABEL, ASSISTANT_NS_LABEL;
    Tlspub.JobParsesBack(a);
    SelectorIsIdentity(Tlspub.JobLabels(a.ns, a.name), a.ns, a.name);
    forall data: map<string, string> ensures MarkedFields(Tlspub.TlsSecret(Tlspub.JobLabels(a.ns, a.name), data),
                                                          a.ns, a.name) {
      JobSecretMarked(a, data);
    }
  }

  lemma JobSecretMarked(a: Assistant, data: map<string, string>)
    ensures MarkedFields(Tlspub.TlsSecret(Tlspub.JobLabels(a.ns, a.name), data), a.ns, a.name)
  {
    hide Tlspub.JobLabels, ASSISTANT_LABEL, ASSISTANT_NS_LABEL;
    Tlspub.JobLabelsMarked(a.ns, a.name);
    var l := Tlspub.JobLabels(a.ns, a.name);
    assert Label(ASSISTANT_LABEL) in LabelFields(l) && Label(ASSISTANT_NS_LABEL) in LabelFields(l);
  }
}

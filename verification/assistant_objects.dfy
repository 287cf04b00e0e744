/** The objects of an Assistant's sandbox stack and its status, as the operator applies them. */
module AssistantObjects {
  import opened Wrappers
  import opened Kube
  import opened Resources
  import opened Builders
  import opened SandboxNames
  import Selectors
  import CreateOnce
  import Tlspub

  /** An object of the sandbox stack. */
  function At(a: Assistant, kind: Kind, part: Part): Key {
    Key(kind, a.SandboxNamespace(), NameOf(Prefix(a.ns, a.name), part))
  }

  function TargetKey(a: Assistant): Key {
    Key(Secret, a.ns, InstanceAiSecret(a.targetName))
  }

  function StatusKey(a: Assistant): Key {
    Key(AssistantResource, a.ns, a.name)
  }

  /** Identity labels and annotations of everything in the sandbox namespace; no owner. */
  function SandboxMeta(a: Assistant, component: string): Fields {
    LabelFields(SandboxLabels(a.ns, a.name, component)) + AnnotationFields(CommonAnnotations())
  }

  /** The object carries the identity labels of the Assistant. */
  predicate MarkedFields(f: Fields, crNs: string, crName: string) {
    && Label(ASSISTANT_LABEL) in f && f[Label(ASSISTANT_LABEL)] == Text(crName)
    && Label(ASSISTANT_NS_LABEL) in f && f[Label(ASSISTANT_NS_LABEL)] == Text(crNs)
  }

  /** Fields without labels, so that they cannot hide the identity. */
  predicate Unlabelled(f: Fields) {
    forall p | p in f :: !p.Label?
  }

  lemma MetaMarked(a: Assistant, component: string, rest: Fields)
    requires Unlabelled(rest)
    ensures MarkedFields(SandboxMeta(a, component) + rest, a.ns, a.name)
  {
    hide CommonAnnotations, ASSISTANT_LABEL, ASSISTANT_NS_LABEL, SandboxLabels;
    SandboxLabelsMarked(a.ns, a.name, component);
    var l := SandboxLabels(a.ns, a.name, component);
    assert Label(ASSISTANT_LABEL) in LabelFields(l) && Label(ASSISTANT_NS_LABEL) in LabelFields(l);
  }

  // ----- Secrets, access, Job -----

  function SharedSecretBody(data: map<string, string>): Fields {
    map[Spec("type") := Text("Opaque")] + DataFields(data)
  }

  function SharedSecret(a: Assistant, data: map<string, string>): Fields {
    SandboxMeta(a, "sandbox") + SharedSecretBody(data)
  }

  function RoleBody(): Fields {
    map[Spec("resources") := Texts(["secrets"]), Spec("verbs") := Texts(["create", "patch"])]
  }

  function BindingBody(a: Assistant): Fields {
    var certs := NameOf(Prefix(a.ns, a.name), Certs);
    map[Spec("roleRef") := Text(certs), Spec("subject") := Text(certs)]
  }

  /** The names the certificates are issued for: the api's, and the common part of the runners'. */
  function BootstrapArgs(a: Assistant): seq<string> {
    var prefix := Prefix(a.ns, a.name);
    ["--out-dir", "/tls", "--api-san", NameOf(prefix, Api), "--control-san-prefix", prefix + "-sandbox-runner",
     "--world-readable"]
  }

  function JobBody(a: Assistant): Fields {
    map[Spec("backoffLimit") := Number(4), Spec("ttlSecondsAfterFinished") := Number(3600),
        Spec("bootstrap") := Texts(BootstrapArgs(a)),
        Spec("args") := Texts(Tlspub.JobArgs(a.ns, a.name, a.SandboxNamespace()))]
  }

  // ----- Workloads -----

  function WorkloadBody(a: Assistant, component: string, tlsRevision: string, image: string, env: seq<EnvEntry>,
                        volumes: seq<string>, pod: Option<PodConfig>): Fields
  {
    WorkloadFields(Selectors.PodSelector(a.ns, a.name, component), SandboxLabels(a.ns, a.name, component),
                   CommonAnnotations()["n8n.slys.dev/tls-revision" := tlsRevision], pod)
    + map[Replicas := Number(1), Spec("image") := Text(image + ":" + a.version), EnvList := Environment(env),
          Spec("envFrom") := Text(NameOf(Prefix(a.ns, a.name), Secrets)), Spec("volumes") := Texts(volumes)]
  }

  function Plain(name: string, value: string): EnvEntry {
    EnvEntry(name, Inline(value))
  }

  /** The server name is the short one, for which the certificate is issued. */
  function ApiEnv(a: Assistant): seq<EnvEntry> {
    [ Plain("SANDBOX_API_GRPC_TLS_CERT_FILE", "/tls/grpc-server.crt"),
      Plain("SANDBOX_API_GRPC_TLS_KEY_FILE", "/tls/grpc-server.key"),
      Plain("SANDBOX_API_GRPC_TLS_CLIENT_CA_FILE", "/tls/ca.crt"),
      Plain("SANDBOX_API_RUNNER_CONTROL_GRPC_TLS_CA_FILE", "/tls/ca.crt"),
      Plain("SANDBOX_API_RUNNER_CONTROL_GRPC_TLS_CERT_FILE", "/tls/control-grpc-api-client.crt"),
      Plain("SANDBOX_API_RUNNER_CONTROL_GRPC_TLS_KEY_FILE", "/tls/control-grpc-api-client.key"),
      Plain("SANDBOX_API_RUNNER_CONTROL_GRPC_TLS_SERVER_NAME", NameOf(Prefix(a.ns, a.name), Runner)) ]
  }

  function RunnerEnv(a: Assistant): seq<EnvEntry> {
    var api, runner := NameOf(Prefix(a.ns, a.name), Api), NameOf(Prefix(a.ns, a.name), Runner);
    var domain := "." + a.SandboxNamespace() + ".svc:";
    [ Plain("SANDBOX_RUNNER_API_GRPC_ADDR", api + domain + "9090"),
      Plain("SANDBOX_RUNNER_REGISTRATION_GRPC_SERVER_NAME", api),
      Plain("SANDBOX_RUNNER_CONTROL_GRPC_LISTEN_ADDR", ":9091"),
      Plain("SANDBOX_RUNNER_CONTROL_GRPC_ADVERTISE_ADDR", runner + domain + "9091"),
      Plain("SANDBOX_RUNNER_HTTP_BASE_URL", "http://" + runner + domain + "8080"),
      Plain("SANDBOX_RUNNER_ID", "runner-1"),
      Plain("SANDBOX_RUNNER_DOCKER_SANDBOX_IMAGE", a.sandboxImage),
      Plain("SANDBOX_RUNNER_REGISTRATION_GRPC_CA_FILE", "/tls/ca.crt"),
      Plain("SANDBOX_RUNNER_REGISTRATION_GRPC_CERT_FILE", "/tls/grpc-client.crt"),
      Plain("SANDBOX_RUNNER_REGISTRATION_GRPC_KEY_FILE", "/tls/grpc-client.key"),
      Plain("SANDBOX_RUNNER_CONTROL_GRPC_TLS_CERT_FILE", "/tls/control-grpc-server.crt"),
      Plain("SANDBOX_RUNNER_CONTROL_GRPC_TLS_KEY_FILE", "/tls/control-grpc-server.key"),
      Plain("SANDBOX_RUNNER_CONTROL_GRPC_TLS_CLIENT_CA_FILE", "/tls/ca.crt") ]
  }

  function RunnerVolumes(a: Assistant): seq<string> {
    var prefix := Prefix(a.ns, a.name);
    [ "tls:" + NameOf(prefix, TlsRunner),
      "docker:" + if a.dockerPersistence.Some? then NameOf(prefix, DockerPvc) else a.dockerSize ]
  }

  function ApiBody(a: Assistant, tlsRevision: string): Fields {
    WorkloadBody(a, "sandbox-api", tlsRevision, "ghcr.io/n8n-io/n8n-sandbox-service-api", ApiEnv(a),
                 ["tls:" + NameOf(Prefix(a.ns, a.name), TlsApi)], a.apiPod)
  }

  function RunnerBody(a: Assistant, tlsRevision: string): Fields {
    WorkloadBody(a, "sandbox-runner", tlsRevision, "ghcr.io/n8n-io/n8n-sandbox-service-runner-dind", RunnerEnv(a),
                 RunnerVolumes(a), a.runnerPod)
  }

  function ServiceBody(a: Assistant, component: string, ports: seq<string>): Fields {
    SelectorFields(Selectors.PodSelector(a.ns, a.name, component))
    + map[Spec("type") := Text("ClusterIP"), Spec("ports") := Texts(ports)]
  }

  function DockerBody(p: Storage): Fields {
    map[Spec("accessModes") := Text(p.accessMode), Spec("storage") := Text(p.size)]
    + TextField("storageClassName", p.storageClass)
  }

  // ----- Status -----

  datatype AssistantStatus = AssistantStatus(ready: bool, certsReady: bool, apiReady: bool, runnerReady: bool,
                                             targetSecret: Option<string>, sandboxNamespace: Option<string>,
                                                 message: Option<string>)

  function StatusText(name: string, v: Option<string>): Fields {
    match v case Some(t) => map[Status(name) := Text(t)] case None => map[]
  }

  const PIN := Status("sandboxNamespace")

  /** Unset parts of the status are left out, so an apply without them drops them. */
  function StatusFields(st: AssistantStatus): Fields {
    map[Status("ready") := Truth(st.ready), Status("certsReady") := Truth(st.certsReady),
        Status("apiReady") := Truth(st.apiReady), Status("runnerReady") := Truth(st.runnerReady)]
    + StatusText("targetSecret", st.targetSecret) + StatusText("sandboxNamespace", st.sandboxNamespace)
    + StatusText("message", st.message)
  }

  /** The status while the certificates are awaited: it carries the pin and the known target Secret forward. */
  function WaitingStatus(sandboxNs: string, targetSecret: Option<string>): AssistantStatus {
    AssistantStatus(false, false, false, false, targetSecret, Some(sandboxNs),
                    Some("waiting for the mTLS bootstrap Job"))
  }

  /** Whether a status is written with or without the namespace pin is decided by its field alone. */
  lemma StatusPins(st: AssistantStatus)
    ensures PIN in StatusFields(st) <==> st.sandboxNamespace.Some?
    ensures st.sandboxNamespace.Some? ==> StatusFields(st)[PIN] == Text(st.sandboxNamespace.value)
  {
    assert "sandboxNamespace"[0] == 's' && "ready"[0] == 'r' && "certsReady"[0] == 'c' && "apiReady"[0] == 'a';
    assert "runnerReady"[0] == 'r' && "targetSecret"[0] == 't' && "message"[0] == 'm';
  }

  // ----- What is read back -----

  /** `job_finished`: a terminal condition is set. */
  predicate JobFinished(o: Object) {
    || (Status("Complete") in o.fields && o.fields[Status("Complete")] == Truth(true))
    || (Status("Failed") in o.fields && o.fields[Status("Failed")] == Truth(true))
  }

  predicate Available(o: Option<Object>) {
    && o.Some? && Status("availableReplicas") in o.value.fields
    && o.value.fields[Status("availableReplicas")].Number? && o.value.fields[Status("availableReplicas")].number > 0
  }

  function FailureMessage(o: Option<Object>): Option<string> {
    if o.Some? && Status("ReplicaFailure") in o.value.fields && o.value.fields[Status("ReplicaFailure")].Text?
    then Some(o.value.fields[Status("ReplicaFailure")].text) else None
  }

  function DataText(o: Object, key: string): Option<string> {
    if Data(key) in o.fields && o.fields[Data(key)].Text? then Some(o.fields[Data(key)].text) else None
  }
}

/** What one Assistant reconcile should write, from what the API server holds when each part begins. */
module AssistantPlans {
  import opened Wrappers
  import opened Kube
  import opened Server
  import opened Resources
  import opened Builders
  import opened SandboxNames
  import opened AssistantValidate
  import opened AssistantObjects
  import CreateOnce
  import InstanceAi

  /** The status is the record of where the stack lives. */
  function PinOf(s: Store, a: Assistant): Option<string> {
    match s.Find(StatusKey(a))
    case Some(o) => if PIN in o.fields && o.fields[PIN].Text? then Some(o.fields[PIN].text) else None
    case None => None
  }

  /** `check_namespace_pinned`. */
  predicate PinAllows(recorded: Option<string>, computed: string) {
    recorded.Some? ==> recorded.value == computed
  }

  function NamespaceKey(ns: string): Key {
    Key(Namespace, "", ns)
  }

  /** The status in the snapshot a reconcile works on. */
  datatype Snapshot = Snapshot(pin: Option<string>, target: Option<string>)

  predicate Admitted(s: Store, a: Assistant, pin: Option<string>) {
    && AssistantAllowed(a) && PinAllows(pin, a.SandboxNamespace())
    && NamespaceKey(a.SandboxNamespace()) in s.objects
  }

  function SecretsPart(s: Store, a: Assistant, drawn: map<string, string>): Plan {
    var k := At(a, Secret, Secrets);
    match s.Find(k)
    case Some(o) => Plan([], DataText(o, CreateOnce.API_KEYS).Some?)
    case None => Plan([Create(k, SharedSecret(a, drawn))], true)
  }

  function ApiKeyOf(s: Store, a: Assistant, drawn: map<string, string>): string {
    match s.Find(At(a, Secret, Secrets))
    case Some(o) => DataText(o, CreateOnce.API_KEYS).GetOr("")
    case None => if CreateOnce.API_KEYS in drawn then drawn[CreateOnce.API_KEYS] else ""
  }

  predicate CertsReady(s: Store, a: Assistant) {
    At(a, Secret, TlsApi) in s.objects && At(a, Secret, TlsRunner) in s.objects
  }

  function Access(a: Assistant): seq<Op> {
    [ Put(At(a, ServiceAccount, Certs), SandboxMeta(a, "sandbox-certs")),
      Put(At(a, Role, Certs), SandboxMeta(a, "sandbox-certs") + RoleBody()),
      Put(At(a, RoleBinding, Certs), SandboxMeta(a, "sandbox-certs") + BindingBody(a)) ]
  }

  /** A finished Job makes room for a fresh one; a Job at work is left alone. */
  function JobPart(s: Store, a: Assistant): seq<Op> {
    var k := At(a, Job, Certs);
    var anew := Create(k, SandboxMeta(a, "sandbox-certs") + JobBody(a));
    match s.Find(k)
    case None => [anew]
    case Some(o) => if JobFinished(o) then [Remove(k), anew] else []
  }

  function Workloads(a: Assistant, tlsApi: string, tlsRunner: string): seq<Op> {
    (if a.dockerPersistence.Some?
     then [Put(At(a, PersistentVolumeClaim, DockerPvc),
               SandboxMeta(a, "sandbox-runner") + DockerBody(a.dockerPersistence.value))]
     else [])
    + [ Put(At(a, Deployment, Api), SandboxMeta(a, "sandbox-api") + ApiBody(a, tlsApi)),
        Put(At(a, Service, Api),
            SandboxMeta(a, "sandbox-api") + ServiceBody(a, "sandbox-api", ["http:8080", "grpc:9090"])),
        Put(At(a, Deployment, Runner), SandboxMeta(a, "sandbox-runner") + RunnerBody(a, tlsRunner)),
        Put(At(a, Service, Runner),
            SandboxMeta(a, "sandbox-runner") + ServiceBody(a, "sandbox-runner", ["control:9091", "http:8080"])) ]
  }

  /** `read_key`: no reference, no value; a missing Secret or key is an error. */
  function ReadKey(s: Store, ns: string, r: Option<SecretKeyRef>): Result<Option<string>> {
    match r
    case None => Ok(None)
    case Some(ref) =>
      match s.Find(Key(Secret, ns, ref.name))
      case None => Err(KubeError)
      case Some(o) => match DataText(o, ref.key)
        case None => Err(IllegalAssistant)
        case Some(t) => Ok(Some(t))
  }

  function TargetData(a: Assistant, apiKey: string, modelKey: Option<string>, braveKey: Option<string>): map<string,
      string> {
    InstanceAi.InstanceAiData(a, ApiUrl(Prefix(a.ns, a.name), a.SandboxNamespace()), apiKey, modelKey, braveKey)
  }

  /** The target's Secret, once both user keys could be read. */
  function TargetPart(s: Store, a: Assistant, apiKey: string): Plan {
    match (ReadKey(s, a.ns, a.modelKey), ReadKey(s, a.ns, a.brave))
    case (Ok(model), Ok(brave)) => Plan([Put(TargetKey(a),
                                             InstanceAi.TargetFields(a, TargetData(a, apiKey, model, brave)))], true)
    case _ => Plan([], false)
  }

  function Revision(s: Store, k: Key): string {
    match s.Find(k) case Some(o) => NatText(o.version) case None => ""
  }

  /** The stack and the target Secret, once the certificates are there. */
  function StackPart(s: Store, a: Assistant, apiKey: string): Plan {
    var work := Workloads(a, Revision(s, At(a, Secret, TlsApi)), Revision(s, At(a, Secret, TlsRunner)));
    Then(Plan(work, true), TargetPart(Run(s, work), a, apiKey))
  }

  function StatusPart(a: Assistant, st: AssistantStatus): Plan {
    Plan([Put(StatusKey(a), StatusFields(st))], true)
  }

  /** What follows the shared Secret: the stack and the final status, or the bootstrap and the waiting status. */
  function AfterSecrets(s: Store, a: Assistant, apiKey: string, waiting: AssistantStatus,
                        final: AssistantStatus): Plan {
    if CertsReady(s, a) then Then(StackPart(s, a, apiKey), StatusPart(a, final))
    else Then(Plan(Access(a) + JobPart(s, a), true), StatusPart(a, waiting))
  }

  /** The whole pass. `final` is the status a completed pass reports. */
  function AssistantPlan(s: Store, a: Assistant, seen: Snapshot, drawn: map<string, string>,
                         final: AssistantStatus): Plan {
    if !Admitted(s, a, seen.pin) then Plan([], false)
    else
      var secrets := SecretsPart(s, a, drawn);
      Then(secrets, AfterSecrets(Run(s, secrets.ops), a, ApiKeyOf(s, a, drawn),
                                 WaitingStatus(a.SandboxNamespace(), seen.target), final))
  }
}

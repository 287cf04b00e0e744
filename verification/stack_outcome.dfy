/**
 What an Assistant pass leaves once both certificate Secrets are there: the stack, the target's Secret, the status.
 */
module StackOutcome {
  import opened Wrappers
  import opened Kube
  import opened Server
  import opened Resources
  import opened Rules
  import opened Builders
  import opened SandboxNames
  import opened AssistantObjects
  import opened AssistantPlans
  import opened AssistantOutcome
  import CreateOnce
  import InstanceAi
  import Rounds
  import Selectors

  /** The container's list has this variable. */
  predicate Tells(s: Store, k: Key, name: string, value: string) {
    && k in s.objects && EnvList in s.objects[k].fields && s.objects[k].fields[EnvList].Environment?
    && EnvEntry(name, Inline(value)) in s.objects[k].fields[EnvList].entries
  }

  /** One sandbox workload: a single pod of this image over this Secret and these volumes. */
  predicate Workload(s: Store, a: Assistant, k: Key, image: string, volumes: seq<string>) {
    && Shows(s, k, Replicas, Number(1)) && Shows(s, k, Spec("image"), Text(image + ":" + a.version))
    && Shows(s, k, Spec("envFrom"), Text(a.ns + "-" + a.name + "-sandbox-secrets"))
    && Shows(s, k, Spec("volumes"), Texts(volumes))
  }

  /** The pods carry the version of the certificate Secret, unless the user's annotation takes its place. */
  predicate StampedWith(s: Store, t: Store, k: Key, tls: Key, pod: Option<PodConfig>) {
    var note, user := "n8n.slys.dev/tls-revision", PodAnnotationsOf(pod);
    tls in s.objects ==>
      Shows(t, k, PodAnnotation(note), Text(if note in user then user[note] else NatText(s.objects[tls].version)))
  }

  /** The object selects the pods of this Assistant and this component. */
  predicate Selects(t: Store, a: Assistant, k: Key, component: string) {
    && Shows(t, k, SelectorLabel("app.kubernetes.io/name"), Text("n8n-sandbox"))
    && Shows(t, k, SelectorLabel("app.kubernetes.io/instance"), Text(a.name))
    && Shows(t, k, SelectorLabel("app.kubernetes.io/component"), Text(component))
    && Shows(t, k, SelectorLabel("n8n.slys.dev/assistant-namespace"), Text(a.ns))
  }

  /** A Service with these ports, and both it and its Deployment select the same pods. */
  predicate Behind(t: Store, a: Assistant, k: Key, component: string, ports: seq<string>) {
    && Selects(t, a, k, component) && Selects(t, a, k.(kind := Service), component)
    && Shows(t, k.(kind := Service), Spec("ports"), Texts(ports))
  }

  /** The api reaches the runner under the name of the runner's certificate. */
  predicate ApiTalks(t: Store, api: Key, runner: Key) {
    Tells(t, api, "SANDBOX_API_RUNNER_CONTROL_GRPC_TLS_SERVER_NAME", runner.name)
  }

  /** The runner registers with the api's Service, and gives its own for control and for sandboxes. */
  predicate RunnerTalks(t: Store, a: Assistant, api: Key, runner: Key) {
    && Tells(t, runner, "SANDBOX_RUNNER_REGISTRATION_GRPC_SERVER_NAME", api.name)
    && Tells(t, runner, "SANDBOX_RUNNER_API_GRPC_ADDR", api.name + "." + api.ns + ".svc:9090")
    && Tells(t, runner, "SANDBOX_RUNNER_CONTROL_GRPC_ADVERTISE_ADDR", runner.name + "." + api.ns + ".svc:9091")
    && Tells(t, runner, "SANDBOX_RUNNER_HTTP_BASE_URL", "http://" + runner.name + "." + api.ns + ".svc:8080")
    && Tells(t, runner, "SANDBOX_RUNNER_DOCKER_SANDBOX_IMAGE", a.sandboxImage)
  }

  /** The Docker storage is claimed as asked. */
  predicate Claimed(t: Store, k: Key, p: Storage) {
    && Shows(t, k, Spec("storage"), Text(p.size)) && Shows(t, k, Spec("accessModes"), Text(p.accessMode))
    && (p.storageClass.Some? ==> Shows(t, k, Spec("storageClassName"), Text(p.storageClass.value)))
  }

  /** The whole sandbox stack. */
  predicate StackUp(s: Store, t: Store, a: Assistant) {
    var api, runner := Place(a, Deployment, "-sandbox-api"), Place(a, Deployment, "-sandbox-runner-1");
    var docker := Place(a, PersistentVolumeClaim, "-sandbox-runner-1-docker");
    && Workload(t, a, api, "ghcr.io/n8n-io/n8n-sandbox-service-api",
                ["tls:" + Place(a, Secret, "-sandbox-tls-api").name])
    && Workload(t, a, runner, "ghcr.io/n8n-io/n8n-sandbox-service-runner-dind",
                ["tls:" + Place(a, Secret, "-sandbox-tls-runner").name,
                 "docker:" + if a.dockerPersistence.Some? then docker.name else a.dockerSize])
    && StampedWith(s, t, api, Place(a, Secret, "-sandbox-tls-api"), a.apiPod)
    && StampedWith(s, t, runner, Place(a, Secret, "-sandbox-tls-runner"), a.runnerPod)
    && Behind(t, a, api, "sandbox-api", ["http:8080", "grpc:9090"])
    && Behind(t, a, runner, "sandbox-runner", ["control:9091", "http:8080"])
    && ApiTalks(t, api, runner) && RunnerTalks(t, a, api, runner)
    && (a.dockerPersistence.Some? ==> Claimed(t, docker, a.dockerPersistence.value))
  }

  lemma SpecNames()
    ensures "image"[0] == 'i' && "envFrom"[0] == 'e' && "volumes"[0] == 'v' && "type"[0] == 't' && "ports"[0] == 'p'
    ensures "accessModes"[0] == 'a' && "storage"[7..] == "" && "storageClassName"[7] == 'C'
  {}

  lemma BodyFields(a: Assistant, component: string, tls: string, image: string, env: seq<EnvEntry>,
                   volumes: seq<string>, pod: Option<PodConfig>)
    ensures var f := WorkloadBody(a, component, tls, image, env, volumes, pod);
            && Replicas in f && f[Replicas] == Number(1)
            && Spec("image") in f && f[Spec("image")] == Text(image + ":" + a.version)
            && Spec("envFrom") in f && f[Spec("envFrom")] == Text(a.ns + "-" + a.name + "-sandbox-secrets")
            && Spec("volumes") in f && f[Spec("volumes")] == Texts(volumes)
            && EnvList in f && f[EnvList] == Environment(env)
  {
    hide WorkloadFields, Selectors.PodSelector, SandboxLabels, CommonAnnotations;
    SpecNames();
  }

  lemma BodySelects(a: Assistant, component: string, tls: string, image: string, env: seq<EnvEntry>,
                    volumes: seq<string>, pod: Option<PodConfig>)
    ensures var f, sel := WorkloadBody(a, component, tls, image, env, volumes, pod),
                          Selectors.PodSelector(a.ns, a.name, component);
            forall l | l in sel :: SelectorLabel(l) in f && f[SelectorLabel(l)] == Text(sel[l])
    ensures var f, note := WorkloadBody(a, component, tls, image, env, volumes, pod), "n8n.slys.dev/tls-revision";
            && PodAnnotation(note) in f
            && f[PodAnnotation(note)]
                == Text(if note in PodAnnotationsOf(pod) then PodAnnotationsOf(pod)[note] else tls)
  {
    hide Selectors.PodSelector, SandboxLabels, CommonAnnotations, PodLabelsOf, PodAnnotationsOf, WorkloadFields;
    var sel, labels := Selectors.PodSelector(a.ns, a.name, component), SandboxLabels(a.ns, a.name, component);
    var notes := CommonAnnotations()["n8n.slys.dev/tls-revision" := tls];
    WorkloadAnnotation(sel, labels, notes, pod, "n8n.slys.dev/tls-revision");
    SelectorsShow(sel, labels, notes, pod);
  }

  lemma SelectorsShow(sel: map<string, string>, labels: map<string, string>, notes: map<string, string>,
                      pod: Option<PodConfig>)
    ensures var f := WorkloadFields(sel, labels, notes, pod);
            forall l | l in sel :: SelectorLabel(l) in f && f[SelectorLabel(l)] == Text(sel[l])
  {
    hide PodLabelsOf, PodAnnotationsOf;
    forall l | l in sel ensures SelectorLabel(l) in SelectorFields(sel) {
    }
  }

  lemma SelectorKeys(a: Assistant, component: string)
    ensures var sel := Selectors.PodSelector(a.ns, a.name, component);
            && "app.kubernetes.io/name" in sel && sel["app.kubernetes.io/name"] == "n8n-sandbox"
            && "app.kubernetes.io/instance" in sel && sel["app.kubernetes.io/instance"] == a.name
            && "app.kubernetes.io/component" in sel && sel["app.kubernetes.io/component"] == component
            && "n8n.slys.dev/assistant-namespace" in sel && sel["n8n.slys.dev/assistant-namespace"] == a.ns
  {
    assert |"app.kubernetes.io/name"| == 22 && |"app.kubernetes.io/instance"| == 26;
    assert |"app.kubernetes.io/component"| == 27 && |ASSISTANT_NS_LABEL| == 32;
  }

  lemma SelectorsSettled(t: Store, a: Assistant, op: Op, component: string)
    requires op.Put? && Settled(t, op)
    requires var sel := Selectors.PodSelector(a.ns, a.name, component);
             forall l | l in sel :: SelectorLabel(l) in op.want && op.want[SelectorLabel(l)] == Text(sel[l])
    ensures Selects(t, a, op.key, component)
  {
    hide Selectors.PodSelector;
    SelectorKeys(a, component);
  }

  /** A settled workload. */
  lemma WorkloadSettled(t: Store, a: Assistant, k: Key, component: string, tls: string, image: string,
                        env: seq<EnvEntry>, volumes: seq<string>, pod: Option<PodConfig>)
    requires Settled(t, Put(k, SandboxMeta(a, component) + WorkloadBody(a, component, tls, image, env, volumes, pod)))
    ensures Workload(t, a, k, image, volumes) && Selects(t, a, k, component) && Shows(t, k, EnvList, Environment(env))
    ensures var note := "n8n.slys.dev/tls-revision";
            Shows(t, k, PodAnnotation(note),
                  Text(if note in PodAnnotationsOf(pod) then PodAnnotationsOf(pod)[note] else tls))
  {
    BodyFields(a, component, tls, image, env, volumes, pod);
    BodySelects(a, component, tls, image, env, volumes, pod);
    hide SandboxMeta, WorkloadBody, Selectors.PodSelector, PodAnnotationsOf;
    var body := WorkloadBody(a, component, tls, image, env, volumes, pod);
    var op := Put(k, SandboxMeta(a, component) + body);
    forall p: Path | !p.Label? && !p.Annotation? && p in body ensures p in op.want && op.want[p] == body[p] {
      MetaOnly(a, component, body, p);
    }
    SelectorsSettled(t, a, op, component);
  }

  lemma ServiceSettled(t: Store, a: Assistant, k: Key, component: string, ports: seq<string>)
    requires Settled(t, Put(k, SandboxMeta(a, component) + ServiceBody(a, component, ports)))
    ensures Selects(t, a, k, component) && Shows(t, k, Spec("ports"), Texts(ports))
  {
    ServiceFieldsShow(a, component, ports);
    hide SandboxMeta, ServiceBody, Selectors.PodSelector;
    var body := ServiceBody(a, component, ports);
    var op := Put(k, SandboxMeta(a, component) + body);
    forall p: Path | !p.Label? && !p.Annotation? && p in body ensures p in op.want && op.want[p] == body[p] {
      MetaOnly(a, component, body, p);
    }
    SelectorsSettled(t, a, op, component);
  }

  lemma ServiceFieldsShow(a: Assistant, component: string, ports: seq<string>)
    ensures var f, sel := ServiceBody(a, component, ports), Selectors.PodSelector(a.ns, a.name, component);
            && Spec("ports") in f && f[Spec("ports")] == Texts(ports)
            && forall l | l in sel :: SelectorLabel(l) in f && f[SelectorLabel(l)] == Text(sel[l])
  {
    hide Selectors.PodSelector;
    SpecNames();
    var sel := Selectors.PodSelector(a.ns, a.name, component);
    forall l | l in sel ensures SelectorLabel(l) in SelectorFields(sel) {
    }
  }

  lemma DockerSettled(t: Store, a: Assistant, k: Key, p: Storage)
    requires Settled(t, Put(k, SandboxMeta(a, "sandbox-runner") + DockerBody(p)))
    ensures Claimed(t, k, p)
  {
    DockerFields(p);
    hide SandboxMeta, DockerBody;
    forall q: Path | !q.Label? && !q.Annotation? && q in DockerBody(p)
      ensures q in SandboxMeta(a, "sandbox-runner") + DockerBody(p)
      ensures (SandboxMeta(a, "sandbox-runner") + DockerBody(p))[q] == DockerBody(p)[q]
    {
      MetaOnly(a, "sandbox-runner", DockerBody(p), q);
    }
  }

  lemma DockerFields(p: Storage)
    ensures var f := DockerBody(p);
            && Spec("storage") in f && f[Spec("storage")] == Text(p.size)
            && Spec("accessModes") in f && f[Spec("accessModes")] == Text(p.accessMode)
            && (p.storageClass.Some? ==>
                  Spec("storageClassName") in f && f[Spec("storageClassName")] == Text(p.storageClass.value))
  {
    SpecNames();
    assert |"storage"| == 7 && |"storageClassName"| == 16 && |"accessModes"| == 11;
  }

  lemma ApiTalking(a: Assistant)
    ensures EnvEntry("SANDBOX_API_RUNNER_CONTROL_GRPC_TLS_SERVER_NAME",
                     Inline(Place(a, Deployment, "-sandbox-runner-1").name)) in ApiEnv(a)
  {
    Places(a, Deployment);
    hide NameOf, Prefix, Place;
    assert ApiEnv(a)[6] in ApiEnv(a);
  }

  lemma RunnerTalking(a: Assistant)
    ensures var api, runner := Place(a, Deployment, "-sandbox-api"), Place(a, Deployment, "-sandbox-runner-1");
            && EnvEntry("SANDBOX_RUNNER_REGISTRATION_GRPC_SERVER_NAME", Inline(api.name)) in RunnerEnv(a)
            && EnvEntry("SANDBOX_RUNNER_API_GRPC_ADDR", Inline(api.name + "." + api.ns + ".svc:9090")) in RunnerEnv(a)
            && EnvEntry("SANDBOX_RUNNER_CONTROL_GRPC_ADVERTISE_ADDR",
                        Inline(runner.name + "." + api.ns + ".svc:9091")) in RunnerEnv(a)
            && EnvEntry("SANDBOX_RUNNER_HTTP_BASE_URL",
                        Inline("http://" + runner.name + "." + api.ns + ".svc:8080")) in RunnerEnv(a)
            && EnvEntry("SANDBOX_RUNNER_DOCKER_SANDBOX_IMAGE", Inline(a.sandboxImage)) in RunnerEnv(a)
  {
    Places(a, Deployment);
    var api, runner := NameOf(Prefix(a.ns, a.name), Api), NameOf(Prefix(a.ns, a.name), Runner);
    hide NameOf, Prefix, Place;
    var home, es := a.SandboxNamespace(), RunnerEnv(a);
    Address(api, home, "9090");
    Address(runner, home, "9091");
    Address(runner, home, "8080");
    Address("http://" + runner, home, "8080");
    assert es[0] in es && es[1] in es && es[3] in es && es[4] in es && es[6] in es;
  }

  lemma Address(host: string, home: string, port: string)
    ensures host + ("." + home + ".svc:") + port == host + "." + home + (".svc:" + port)
    ensures port == "9090" ==> ".svc:" + port == ".svc:9090"
    ensures port == "9091" ==> ".svc:" + port == ".svc:9091"
    ensures port == "8080" ==> ".svc:" + port == ".svc:8080"
  {}

  lemma ToldByList(t: Store, k: Key, env: seq<EnvEntry>, name: string, value: string)
    requires Shows(t, k, EnvList, Environment(env)) && EnvEntry(name, Inline(value)) in env
    ensures Tells(t, k, name, value)
  {}

  /** Every write of the stack being settled, the stack is up. */
  lemma StackSettled(s: Store, t: Store, a: Assistant)
    requires CertificatesThere(s, a) && forall op | op in Rounds.Work(s, a) :: Settled(t, op)
    ensures StackUp(s, t, a)
  {
    hide Settled, SandboxMeta, Workload, Selects, ServiceBody, DockerBody, Claimed, Tells;
    ApiSettled(s, t, a);
    RunnerSettled(s, t, a);
    if a.dockerPersistence.Some? {
      DockerClaimed(s, t, a);
    }
  }

  lemma ApiSettled(s: Store, t: Store, a: Assistant)
    requires CertificatesThere(s, a) && forall op | op in Rounds.Work(s, a) :: Settled(t, op)
    ensures var api, runner := Place(a, Deployment, "-sandbox-api"), Place(a, Deployment, "-sandbox-runner-1");
            && Workload(t, a, api, "ghcr.io/n8n-io/n8n-sandbox-service-api",
                        ["tls:" + Place(a, Secret, "-sandbox-tls-api").name])
            && StampedWith(s, t, api, Place(a, Secret, "-sandbox-tls-api"), a.apiPod)
            && Behind(t, a, api, "sandbox-api", ["http:8080", "grpc:9090"]) && ApiTalks(t, api, runner)
  {
    Places(a, Deployment);
    Places(a, Service);
    Places(a, Secret);
    ApiTalking(a);
    hide Settled, SandboxMeta, Workload, Selects, ServiceBody, DockerBody, WorkloadBody, ApiEnv, RunnerBody, At, Tells;
    var tls := Revision(s, At(a, Secret, TlsApi));
    var work := Rounds.Work(s, a);
    var n := |work|;
    assert work[n - 4] == Put(At(a, Deployment, Api), SandboxMeta(a, "sandbox-api") + ApiBody(a, tls));
    assert work[n - 3] == Put(At(a, Service, Api), SandboxMeta(a, "sandbox-api")
                                                   + ServiceBody(a, "sandbox-api", ["http:8080", "grpc:9090"]));
    assert work[n - 4] in work && work[n - 3] in work;
    WorkloadSettled(t, a, At(a, Deployment, Api), "sandbox-api", tls, "ghcr.io/n8n-io/n8n-sandbox-service-api",
                    ApiEnv(a), ["tls:" + NameOf(Prefix(a.ns, a.name), TlsApi)], a.apiPod);
    ServiceSettled(t, a, At(a, Service, Api), "sandbox-api", ["http:8080", "grpc:9090"]);
    ToldByList(t, At(a, Deployment, Api), ApiEnv(a), "SANDBOX_API_RUNNER_CONTROL_GRPC_TLS_SERVER_NAME",
               Place(a, Deployment, "-sandbox-runner-1").name);
  }

  lemma RunnerSettled(s: Store, t: Store, a: Assistant)
    requires CertificatesThere(s, a) && forall op | op in Rounds.Work(s, a) :: Settled(t, op)
    ensures var api, runner := Place(a, Deployment, "-sandbox-api"), Place(a, Deployment, "-sandbox-runner-1");
            var docker := Place(a, PersistentVolumeClaim, "-sandbox-runner-1-docker");
            && Workload(t, a, runner, "ghcr.io/n8n-io/n8n-sandbox-service-runner-dind",
                        ["tls:" + Place(a, Secret, "-sandbox-tls-runner").name,
                         "docker:" + if a.dockerPersistence.Some? then docker.name else a.dockerSize])
            && StampedWith(s, t, runner, Place(a, Secret, "-sandbox-tls-runner"), a.runnerPod)
            && Behind(t, a, runner, "sandbox-runner", ["control:9091", "http:8080"]) && RunnerTalks(t, a, api, runner)
  {
    Places(a, Deployment);
    Places(a, Service);
    Places(a, Secret);
    Places(a, PersistentVolumeClaim);
    hide Settled, SandboxMeta, Workload, Selects, ServiceBody, DockerBody, WorkloadBody, RunnerEnv, ApiBody, At, Tells,
         RunnerTalks;
    var tls := Revision(s, At(a, Secret, TlsRunner));
    var work := Rounds.Work(s, a);
    var n := |work|;
    assert work[n - 2] == Put(At(a, Deployment, Runner), SandboxMeta(a, "sandbox-runner") + RunnerBody(a, tls));
    var service := ServiceBody(a, "sandbox-runner", ["control:9091", "http:8080"]);
    assert work[n - 1] == Put(At(a, Service, Runner), SandboxMeta(a, "sandbox-runner") + service);
    assert work[n - 2] in work && work[n - 1] in work;
    var k := At(a, Deployment, Runner);
    WorkloadSettled(t, a, k, "sandbox-runner", tls, "ghcr.io/n8n-io/n8n-sandbox-service-runner-dind", RunnerEnv(a),
                    RunnerVolumes(a), a.runnerPod);
    ServiceSettled(t, a, At(a, Service, Runner), "sandbox-runner", ["control:9091", "http:8080"]);
    RunnerListTold(t, a, k);
  }

  lemma DockerClaimed(s: Store, t: Store, a: Assistant)
    requires a.dockerPersistence.Some? && forall op | op in Rounds.Work(s, a) :: Settled(t, op)
    ensures Claimed(t, Place(a, PersistentVolumeClaim, "-sandbox-runner-1-docker"), a.dockerPersistence.value)
  {
    Places(a, PersistentVolumeClaim);
    hide Settled, SandboxMeta, ServiceBody, DockerBody, RunnerBody, ApiBody, At, Claimed;
    var work := Rounds.Work(s, a);
    assert work[0] in work;
    DockerSettled(t, a, At(a, PersistentVolumeClaim, DockerPvc), a.dockerPersistence.value);
  }

  lemma RunnerListTold(t: Store, a: Assistant, k: Key)
    requires Shows(t, k, EnvList, Environment(RunnerEnv(a))) && k == Place(a, Deployment, "-sandbox-runner-1")
    ensures RunnerTalks(t, a, Place(a, Deployment, "-sandbox-api"), k)
  {
    RunnerTalking(a);
    hide RunnerEnv, Place;
    var api := Place(a, Deployment, "-sandbox-api");
    ToldByList(t, k, RunnerEnv(a), "SANDBOX_RUNNER_REGISTRATION_GRPC_SERVER_NAME", api.name);
    ToldByList(t, k, RunnerEnv(a), "SANDBOX_RUNNER_API_GRPC_ADDR", api.name + "." + api.ns + ".svc:9090");
    ToldByList(t, k, RunnerEnv(a), "SANDBOX_RUNNER_CONTROL_GRPC_ADVERTISE_ADDR",
               k.name + "." + api.ns + ".svc:9091");
    ToldByList(t, k, RunnerEnv(a), "SANDBOX_RUNNER_HTTP_BASE_URL", "http://" + k.name + "." + api.ns + ".svc:8080");
    ToldByList(t, k, RunnerEnv(a), "SANDBOX_RUNNER_DOCKER_SANDBOX_IMAGE", a.sandboxImage);
  }

  // ----- The target's Secret -----

  function Target(a: Assistant): Key {
    Key(Secret, a.ns, a.targetName + "-instance-ai")
  }

  /** An optional entry: there with its text, or not declared. */
  predicate DataIs(t: Store, k: Key, name: string, v: Option<string>) {
    && (v.Some? ==> Shows(t, k, Data(name), Text(v.value)))
    && (v.None? ==> k in t.objects && Data(name) !in t.objects[k].owned)
  }

  /** The target is told the model, the sandbox and where it is, and each optional setting that there is. */
  predicate TargetFilled(t: Store, a: Assistant, apiKey: string, model: Option<string>, brave: Option<string>) {
    var k, api := Target(a), Place(a, Service, "-sandbox-api");
    var url := "http://" + api.name + "." + api.ns + ".svc:8080";
    && Shows(t, k, Data("N8N_ENABLED_MODULES"), Text("instance-ai"))
    && Shows(t, k, Data("N8N_INSTANCE_AI_MODEL"), Text(a.modelName))
    && Shows(t, k, Data("N8N_INSTANCE_AI_SANDBOX_ENABLED"), Text("true"))
    && Shows(t, k, Data("N8N_INSTANCE_AI_SANDBOX_PROVIDER"), Text("n8n-sandbox"))
    && Shows(t, k, Data("N8N_INSTANCE_AI_SANDBOX_IMAGE"), Text(a.sandboxImage))
    && Shows(t, k, Data("N8N_INSTANCE_AI_SANDBOX_API_URL"), Text(url))
    && Shows(t, k, Data("N8N_SANDBOX_SERVICE_URL"), Text(url))
    && Shows(t, k, Data("N8N_SANDBOX_SERVICE_API_KEY"), Text(apiKey))
    && DataIs(t, k, "N8N_INSTANCE_AI_MODEL_URL", a.modelUrl) && DataIs(t, k, "N8N_INSTANCE_AI_MODEL_API_KEY", model)
    && DataIs(t, k, "INSTANCE_AI_BRAVE_SEARCH_API_KEY", brave) && DataIs(t, k, "N8N_INSTANCE_AI_SEARXNG_URL", a.searxng)
  }

  lemma DataSettled(t: Store, a: Assistant, data: map<string, string>, name: string)
    requires Settled(t, Put(TargetKey(a), InstanceAi.TargetFields(a, data)))
    ensures name in data ==> Shows(t, Target(a), Data(name), Text(data[name]))
    ensures name !in data ==> Target(a) in t.objects && Data(name) !in t.objects[Target(a)].owned
  {
    hide InstanceAi.TargetFields;
    InstanceAi.TargetDataExact(a, data, name);
  }

  lemma TargetSettled(t: Store, a: Assistant, apiKey: string, model: Option<string>, brave: Option<string>)
    requires Settled(t, Rounds.TargetWrite(a, apiKey, model, brave))
    ensures TargetFilled(t, a, apiKey, model, brave)
  {
    Places(a, Service);
    hide Settled, InstanceAi.FixedData, InstanceAi.TargetFields, TargetKey, NameOf, Target, Place;
    var url := ApiUrl(Prefix(a.ns, a.name), a.SandboxNamespace());
    var d := InstanceAi.InstanceAiData(a, url, apiKey, model, brave);
    InstanceAi.FixedNames(a, url, apiKey);
    InstanceAi.OptionalEntries(a, url, apiKey, model, brave);
    hide InstanceAi.InstanceAiData;
    forall name: string
      ensures name in InstanceAi.FixedData(a, url, apiKey) ==>
              name in d && d[name] == InstanceAi.FixedData(a, url, apiKey)[name]
      ensures name in d ==> Shows(t, Target(a), Data(name), Text(d[name]))
      ensures name !in d ==> Target(a) in t.objects && Data(name) !in t.objects[Target(a)].owned
    {
      if name in InstanceAi.FixedData(a, url, apiKey) {
        InstanceAi.FixedEntries(a, url, apiKey, model, brave, name);
      }
      DataSettled(t, a, d, name);
    }
  }

  // ----- The whole pass -----

  /**
   What a key reference reads in this pass: from the target's own Secret what was there before, from any other
   Secret what is there in the end.
   */
  function KeyRead(s: Store, t: Store, a: Assistant, r: SecretKeyRef): Option<string> {
    var k := Key(Secret, a.ns, r.name);
    TextAt(if k == Target(a) then s else t, k, Data(r.key))
  }

  /** Each reference that is given can be read. */
  predicate KeysRead(s: Store, t: Store, a: Assistant) {
    && (a.modelKey.Some? ==> KeyRead(s, t, a, a.modelKey.value).Some?)
    && (a.brave.Some? ==> KeyRead(s, t, a, a.brave.value).Some?)
  }

  function GivenKey(s: Store, t: Store, a: Assistant, r: Option<SecretKeyRef>): Option<string> {
    if r.Some? then KeyRead(s, t, a, r.value) else None
  }

  lemma KeyReads(s: Store, s1: Store, t: Store, a: Assistant, r: Option<SecretKeyRef>)
    requires s1.Find(Target(a)) == s.Find(Target(a))
    requires forall k: Key | k.kind.Secret? && k != Target(a) :: t.Find(k) == s1.Find(k)
    ensures var v := ReadKey(s1, a.ns, r);
            && (v.Ok? <==> (r.Some? ==> KeyRead(s, t, a, r.value).Some?))
            && (v.Ok? ==> v.value == GivenKey(s, t, a, r))
  {
    hide Target;
    if r.Some? {
      var k := Key(Secret, a.ns, r.value.name);
      assert k != Target(a) ==> t.Find(k) == s1.Find(k);
    }
  }

  lemma TargetIsApart(a: Assistant)
    ensures Target(a) == TargetKey(a) && Target(a) != Place(a, Secret, "-sandbox-secrets")
    ensures Target(a).kind.Secret? && Place(a, Secret, "-sandbox-secrets").kind.Secret?
  {
    var n, m := a.targetName + "-instance-ai", a.ns + "-" + a.name + "-sandbox-secrets";
    assert n[|n| - 1] == 'i' && m[|m| - 1] == 's';
  }

  /** The writes of the pass, in their order. */
  lemma StackPlan(s: Store, a: Assistant, seen: Snapshot, drawn: map<string, string>, final: AssistantStatus)
    requires GoesAhead(s, a, seen.pin) && CertificatesThere(s, a)
    ensures var sec := SecretsPart(s, a, drawn).ops;
            var s1 := Run(s, sec);
            && CertificatesThere(s1, a) && SecretsPart(s, a, drawn).ok
            && AssistantPlan(s, a, seen, drawn, final).ops
               == sec + (StackPart(s1, a, ApiKeyOf(s, a, drawn)).ops
                         + if Rounds.Readable(s1, a) then [Put(StatusKey(a), StatusFields(final))] else [])
            && (AssistantPlan(s, a, seen, drawn, final).ok <==> Rounds.Readable(s1, a))
  {
    AdmissionIs(s, a, seen, drawn);
    SecretsKeep(s, a, drawn);
    Places(a, Secret);
    var s1 := Run(s, SecretsPart(s, a, drawn).ops);
    Rounds.StackIs(s1, a, ApiKeyOf(s, a, drawn));
    hide GoesAhead, Admitted, Rounds.Readable, StatusFields, SecretsPart, Run, At, ApiKeyOf, StackPart, Access, JobPart,
         Rounds.Work;
    assert s1.Find(At(a, Secret, TlsApi)) == s.Find(At(a, Secret, TlsApi));
    assert s1.Find(At(a, Secret, TlsRunner)) == s.Find(At(a, Secret, TlsRunner));
    assert CertsReady(s1, a);
    var rest := StackPart(s1, a, ApiKeyOf(s, a, drawn)).ops;
    assert rest + [] == rest;
  }

  /** The api key of the pass is the one the shared Secret has in the end. */
  lemma KeyIsShared(s: Store, t: Store, a: Assistant, drawn: map<string, string>, recorded: Option<string>)
    requires GoesAhead(s, a, recorded) && SharedThere(s, t, a, drawn) && "SANDBOX_API_KEYS" in drawn
    ensures TextAt(t, Place(a, Secret, "-sandbox-secrets"), Data("SANDBOX_API_KEYS")) == Some(ApiKeyOf(s, a, drawn))
  {
    Places(a, Secret);
    hide LegalAssistant, At, Place;
    assert Shows(t, Place(a, Secret, "-sandbox-secrets"), Data("SANDBOX_API_KEYS"), Text(drawn["SANDBOX_API_KEYS"]))
      || t.Find(Place(a, Secret, "-sandbox-secrets")) == s.Find(Place(a, Secret, "-sandbox-secrets"));
  }

  /** What a stack pass may touch. */
  predicate OfPass(a: Assistant, k: Key) {
    || k == Place(a, Deployment, "-sandbox-api") || k == Place(a, Service, "-sandbox-api")
    || k == Place(a, Deployment, "-sandbox-runner-1") || k == Place(a, Service, "-sandbox-runner-1")
    || k == Place(a, PersistentVolumeClaim, "-sandbox-runner-1-docker")
    || k == Place(a, Secret, "-sandbox-secrets") || k == Target(a) || k == Key(AssistantResource, a.ns, a.name)
  }

  lemma StackKeys(a: Assistant, k: Key)
    ensures k == TargetKey(a) || Rounds.OfStack(a, k) ==> OfPass(a, k) && !k.kind.AssistantResource?
    ensures k.kind.Secret? ==> !Rounds.OfStack(a, k)
  {
    Places(a, Deployment);
    Places(a, Service);
    Places(a, PersistentVolumeClaim);
    TargetIsApart(a);
    hide Place, NameOf, Prefix, Target;
  }

  /** From `s` to `t`, the stack, the target's Secret and the status of a pass; nothing else has changed. */
  predicate Passed(s: Store, t: Store, a: Assistant, drawn: map<string, string>, final: AssistantStatus) {
    var apiKey := TextAt(t, Place(a, Secret, "-sandbox-secrets"), Data("SANDBOX_API_KEYS"));
    var status := Key(AssistantResource, a.ns, a.name);
    && StackUp(s, t, a) && SharedThere(s, t, a, drawn) && apiKey.Some?
    && (if KeysRead(s, t, a) then
          && TargetFilled(t, a, apiKey.value, GivenKey(s, t, a, a.modelKey), GivenKey(s, t, a, a.brave))
          && Says(t, a, final)
        else t.Find(Target(a)) == s.Find(Target(a)) && t.Find(status) == s.Find(status))
    && forall k: Key | k in s.objects.Keys + t.objects.Keys && !OfPass(a, k) :: t.Find(k) == s.Find(k)
  }

  /**
   Once both certificate Secrets are there, a pass that goes ahead brings the stack up, stamped with the versions of
   those Secrets. If the user's keys can be read, the target's Secret is filled, with the shared Secret's api key,
   and the final status is reported; if not, the pass ends in an error and both stay as they were. Nothing else changes;
   in particular there is no new Job.
   */
  lemma StackOutcome(s: Store, a: Assistant, seen: Snapshot, drawn: map<string, string>, final: AssistantStatus)
    requires GoesAhead(s, a, seen.pin) && CertificatesThere(s, a) && "SANDBOX_API_KEYS" in drawn
    ensures var plan := AssistantPlan(s, a, seen, drawn, final);
            && Passed(s, Run(s, plan.ops), a, drawn, final)
            && (plan.ok <==> KeysRead(s, Run(s, plan.ops), a))
  {
    StackPlan(s, a, seen, drawn, final);
    SecretsKeep(s, a, drawn);
    SharedStep(s, a, drawn);
    hide GoesAhead, Run, SecretsPart, StackPart, StatusFields, AssistantPlan, SharedThere, Place, ApiKeyOf,
         CertificatesThere, KeysRead, Rounds.Readable, Passed;
    var sec := SecretsPart(s, a, drawn).ops;
    var s1 := Run(s, sec);
    var stack := StackPart(s1, a, ApiKeyOf(s, a, drawn)).ops;
    var status := if Rounds.Readable(s1, a) then [Put(StatusKey(a), StatusFields(final))] else [];
    RunConcat(s, sec, stack + status);
    RunConcat(s1, stack, status);
    StackParts(s, s1, a, drawn, seen.pin, final);
  }

  lemma StackParts(s: Store, s1: Store, a: Assistant, drawn: map<string, string>, recorded: Option<string>,
                   final: AssistantStatus)
    requires GoesAhead(s, a, recorded) && CertificatesThere(s, a) && CertificatesThere(s1, a)
             && "SANDBOX_API_KEYS" in drawn
    requires forall k :: k != Place(a, Secret, "-sandbox-secrets") ==> s1.Find(k) == s.Find(k)
    requires SharedThere(s, s1, a, drawn)
    ensures var key := ApiKeyOf(s, a, drawn);
            var status := if Rounds.Readable(s1, a) then [Put(StatusKey(a), StatusFields(final))] else [];
            var t := Run(Run(s1, StackPart(s1, a, key).ops), status);
            Passed(s, t, a, drawn, final) && (Rounds.Readable(s1, a) <==> KeysRead(s, t, a))
  {
    hide GoesAhead, Run, StackPart, StatusFields, Says, Place, StackUp, TargetFilled, ApiKeyOf, CertificatesThere,
         OfPass,
         Target, Settled, Rounds.Work, Rounds.OfStack, Rounds.TargetWrite, ReadKey, KeyRead, TargetKey;
    var key := ApiKeyOf(s, a, drawn);
    var ops := StackPart(s1, a, key).ops;
    var s2 := Run(s1, ops);
    var status := if Rounds.Readable(s1, a) then [Put(StatusKey(a), StatusFields(final))] else [];
    var t := Run(s2, status);
    var shared := Place(a, Secret, "-sandbox-secrets");
    TargetIsApart(a);
    Rounds.StackIs(s1, a, key);
    Rounds.StackDistinct(s1, a, key);
    if Rounds.Readable(s1, a) {
      StatusStep(s2, a, final);
    } else {
      NoWrite(s2);
    }
    forall k: Key | k != StatusKey(a) && k != Target(a) && !Rounds.OfStack(a, k) ensures t.Find(k) == s1.Find(k) {
      RunFrame(s1, ops, k);
    }
    forall k: Key ensures (k == Target(a) || Rounds.OfStack(a, k) ==> OfPass(a, k) && k != StatusKey(a))
      && (k.kind.Secret? ==> !Rounds.OfStack(a, k))
    {
      StackKeys(a, k);
    }
    OthersOfPass(a);
    assert t.Find(shared) == s1.Find(shared);
    KeyIsShared(s, t, a, drawn, recorded);
    KeyReads(s, s1, t, a, a.modelKey);
    KeyReads(s, s1, t, a, a.brave);
    forall op | op in ops ensures Settled(t, op) {
      SettledInPass(s1, t, ops, op);
    }
    Rounds.WorkIsNoTarget(s1, a);
    if Rounds.Readable(s1, a) {
      TargetSettled(t, a, key, Rounds.ModelOf(s1, a).value, Rounds.BraveOf(s1, a).value);
    } else {
      RunFrame(s1, ops, Target(a));
      RunFrame(s1, ops, StatusKey(a));
    }
    assert s1.Find(Target(a)) == s.Find(Target(a)) && s1.Find(StatusKey(a)) == s.Find(StatusKey(a));
    SameStack(s, s1, t, a);
  }

  lemma NoWrite(s: Store)
    ensures Run(s, []) == s
  {}

  lemma OthersOfPass(a: Assistant)
    ensures OfPass(a, Place(a, Secret, "-sandbox-secrets")) && OfPass(a, StatusKey(a)) && OfPass(a, Target(a))
  {}

  lemma SettledInPass(s: Store, t: Store, ops: seq<Op>, op: Op)
    requires Keyed(ops) && Distinct(ops) && op in ops && t.Find(op.key) == Run(s, ops).Find(op.key)
    ensures Settled(t, op)
  {
    hide Run, Settled;
    var i :| 0 <= i < |ops| && ops[i] == op;
    RunSettles(s, ops, i);
    SettledByObject(Run(s, ops), t, op);
  }

  /** The certificates are the same before and after the shared Secret's part. */
  lemma SameStack(s: Store, s1: Store, t: Store, a: Assistant)
    requires CertificatesThere(s1, a) && forall op | op in Rounds.Work(s1, a) :: Settled(t, op)
    requires forall k :: k != Place(a, Secret, "-sandbox-secrets") ==> s1.Find(k) == s.Find(k)
    ensures StackUp(s, t, a)
  {
    hide Settled, Rounds.Work, Workload, Behind, ApiTalks, RunnerTalks, Claimed;
    StackSettled(s1, t, a);
    CertificatesApart(a);
    var x, y := Place(a, Secret, "-sandbox-tls-api"), Place(a, Secret, "-sandbox-tls-runner");
    assert s1.Find(x) == s.Find(x) && s1.Find(y) == s.Find(y);
  }

  lemma CertificatesApart(a: Assistant)
    ensures Place(a, Secret, "-sandbox-tls-api") != Place(a, Secret, "-sandbox-secrets")
    ensures Place(a, Secret, "-sandbox-tls-runner") != Place(a, Secret, "-sandbox-secrets")
  {
    var x, y := Place(a, Secret, "-sandbox-tls-api").name, Place(a, Secret, "-sandbox-tls-runner").name;
    var z := Place(a, Secret, "-sandbox-secrets").name;
    assert x[|x| - 1] == 'i' && y[|y| - 1] == 'r' && z[|z| - 1] == 's';
  }
}

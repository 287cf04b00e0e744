/**
 What one Assistant pass leaves in the API server, told in the resource's own terms: literal names, literal keys and
 fields of the spec, for every store it may start from.
 */
module AssistantOutcome {
  import opened Wrappers
  import opened Kube
  import opened Server
  import opened Resources
  import opened Rules
  import opened Builders
  import opened SandboxNames
  import opened AssistantValidate
  import opened AssistantObjects
  import opened AssistantPlans
  import AssistantApply
  import CreateOnce
  import InstanceAi
  import Tlspub

  /** An object of the stack, by its literal name. */
  function Place(a: Assistant, kind: Kind, suffix: string): Key {
    Key(kind, if a.sandboxNs.Some? then a.sandboxNs.value else a.ns, a.ns + "-" + a.name + suffix)
  }

  lemma Places(a: Assistant, kind: Kind)
    ensures At(a, kind, Secrets) == Place(a, kind, "-sandbox-secrets")
    ensures At(a, kind, Certs) == Place(a, kind, "-sandbox-certs")
    ensures At(a, kind, TlsApi) == Place(a, kind, "-sandbox-tls-api")
    ensures At(a, kind, TlsRunner) == Place(a, kind, "-sandbox-tls-runner")
    ensures At(a, kind, Api) == Place(a, kind, "-sandbox-api")
    ensures At(a, kind, Runner) == Place(a, kind, "-sandbox-runner-1")
    ensures At(a, kind, DockerPvc) == Place(a, kind, "-sandbox-runner-1-docker")
  {}

  // ----- Admission -----

  /**
   The pass goes ahead: a legal spec, no other namespace recorded, the sandbox namespace there, and a shared Secret
   that is either absent or has its API key.
   */
  predicate GoesAhead(s: Store, a: Assistant, recorded: Option<string>) {
    var home := if a.sandboxNs.Some? then a.sandboxNs.value else a.ns;
    var shared := Place(a, Secret, "-sandbox-secrets");
    && LegalAssistant(a) && (recorded == None || recorded == Some(home))
    && Key(Namespace, "", home) in s.objects
    && (shared in s.objects ==> TextAt(s, shared, Data("SANDBOX_API_KEYS")).Some?)
  }

  lemma AdmissionIs(s: Store, a: Assistant, seen: Snapshot, drawn: map<string, string>)
    ensures GoesAhead(s, a, seen.pin) <==> Admitted(s, a, seen.pin) && SecretsPart(s, a, drawn).ok
  {
    Places(a, Secret);
    hide AssistantAllowed, LegalAssistant, At, SharedSecret;
    AllowedMeansLegal(a);
  }

  /** Otherwise nothing at all is written. */
  lemma RefusedWritesNothing(s: Store, a: Assistant, seen: Snapshot, drawn: map<string, string>,
                             final: AssistantStatus)
    ensures AssistantPlan(s, a, seen, drawn, final).ops == [] <==> !GoesAhead(s, a, seen.pin)
  {
    AdmissionIs(s, a, seen, drawn);
    hide GoesAhead, Admitted, AssistantAllowed, StackPart, Access, JobPart, StatusFields, SharedSecret, Run, CertsReady,
         ApiKeyOf;
    if Admitted(s, a, seen.pin) && SecretsPart(s, a, drawn).ok {
      WorkIsThere(Run(s, SecretsPart(s, a, drawn).ops), a, ApiKeyOf(s, a, drawn));
    }
  }

  lemma WorkIsThere(s: Store, a: Assistant, apiKey: string)
    ensures StackPart(s, a, apiKey).ops != []
  {
    hide TargetPart, Run, ApiBody, RunnerBody, ServiceBody, SandboxMeta, DockerBody, At, Revision;
  }

  // ----- Without the certificates -----

  predicate CertificatesThere(s: Store, a: Assistant) {
    Place(a, Secret, "-sandbox-tls-api") in s.objects && Place(a, Secret, "-sandbox-tls-runner") in s.objects
  }

  /** A terminal condition is set. */
  predicate Ended(s: Store, job: Key) {
    Shows(s, job, Status("Complete"), Truth(true)) || Shows(s, job, Status("Failed"), Truth(true))
  }

  /** A Job that has just been created. */
  predicate FreshJob(s: Store, a: Assistant, job: Key) {
    && job in s.objects
    && Status("Complete") !in s.objects[job].fields && Status("Failed") !in s.objects[job].fields
    && Shows(s, job, Spec("args"), Texts(Tlspub.JobArgs(a.ns, a.name, job.ns)))
    && Shows(s, job, Spec("backoffLimit"), Number(4)) && Shows(s, job, Spec("ttlSecondsAfterFinished"), Number(3600))
  }

  /** Labels and annotations cover no other field. */
  lemma MetaOnly(a: Assistant, component: string, body: Fields, p: Path)
    requires !p.Label? && !p.Annotation?
    ensures p in SandboxMeta(a, component) + body <==> p in body
    ensures p in body ==> (SandboxMeta(a, component) + body)[p] == body[p]
  {
    hide SandboxLabels, CommonAnnotations;
  }

  lemma JobFields(a: Assistant)
    ensures var w := JobBody(a);
            && Status("Complete") !in w && Status("Failed") !in w
            && Spec("args") in w && w[Spec("args")] == Texts(Tlspub.JobArgs(a.ns, a.name, a.SandboxNamespace()))
            && Spec("backoffLimit") in w && w[Spec("backoffLimit")] == Number(4)
            && Spec("ttlSecondsAfterFinished") in w && w[Spec("ttlSecondsAfterFinished")] == Number(3600)
  {
    hide Tlspub.JobArgs, BootstrapArgs;
    assert "args"[0] == 'a' && "backoffLimit"[1] == 'a' && "bootstrap"[1] == 'o' && "ttlSecondsAfterFinished"[0] == 't';
  }

  lemma NewJob(a: Assistant)
    ensures var w := SandboxMeta(a, "sandbox-certs") + JobBody(a);
            && Status("Complete") !in w && Status("Failed") !in w
            && Spec("args") in w && w[Spec("args")] == Texts(Tlspub.JobArgs(a.ns, a.name, a.SandboxNamespace()))
            && Spec("backoffLimit") in w && w[Spec("backoffLimit")] == Number(4)
            && Spec("ttlSecondsAfterFinished") in w && w[Spec("ttlSecondsAfterFinished")] == Number(3600)
  {
    hide SandboxMeta, JobBody, Tlspub.JobArgs;
    JobFields(a);
    MetaOnly(a, "sandbox-certs", JobBody(a), Status("Complete"));
    MetaOnly(a, "sandbox-certs", JobBody(a), Status("Failed"));
    MetaOnly(a, "sandbox-certs", JobBody(a), Spec("args"));
    MetaOnly(a, "sandbox-certs", JobBody(a), Spec("backoffLimit"));
    MetaOnly(a, "sandbox-certs", JobBody(a), Spec("ttlSecondsAfterFinished"));
  }

  /** What the Job calls of a pass do, from the store they begin with. */
  lemma JobStep(s: Store, a: Assistant)
    ensures var job, t := Place(a, Job, "-sandbox-certs"), Run(s, JobPart(s, a));
            if job in s.objects && !Ended(s, job) then t == s else FreshJob(t, a, job)
  {
    Places(a, Job);
    NewJob(a);
    hide SandboxMeta, JobBody, At, Tlspub.JobArgs;
    var job := At(a, Job, Certs);
    var anew := Create(job, SandboxMeta(a, "sandbox-certs") + JobBody(a));
    if job !in s.objects {
      OneWrite(s, anew);
    } else if Ended(s, job) {
      assert JobPart(s, a) == [Remove(job), anew];
      assert [Remove(job), anew][1..] == [anew];
      OneWrite(Step(s, Remove(job)), anew);
    }
  }

  lemma OneWrite(s: Store, op: Op)
    ensures Run(s, [op]) == Step(s, op)
  {
    hide Step;
    assert [op][1..] == [];
  }

  /** The writes of a bootstrap pass, in their order. */
  lemma BootstrapPlan(s: Store, a: Assistant, seen: Snapshot, drawn: map<string, string>, final: AssistantStatus)
    requires GoesAhead(s, a, seen.pin) && !CertificatesThere(s, a)
    ensures var sec := SecretsPart(s, a, drawn).ops;
            var s1 := Run(s, sec);
            && AssistantPlan(s, a, seen, drawn, final).ops
               == sec + ((Access(a) + JobPart(s1, a))
                         + [Put(StatusKey(a), StatusFields(WaitingStatus(a.SandboxNamespace(), seen.target)))])
            && AssistantPlan(s, a, seen, drawn, final).ok
  {
    AdmissionIs(s, a, seen, drawn);
    SecretsKeep(s, a, drawn);
    Places(a, Secret);
    hide GoesAhead, Admitted, AssistantAllowed, Access, JobPart, StatusFields, SecretsPart, Run, At, ApiKeyOf,
         StackPart;
    var s1 := Run(s, SecretsPart(s, a, drawn).ops);
    assert s1.Find(At(a, Secret, TlsApi)) == s.Find(At(a, Secret, TlsApi));
    assert s1.Find(At(a, Secret, TlsRunner)) == s.Find(At(a, Secret, TlsRunner));
    assert !CertsReady(s1, a);
  }

  /** The shared Secret's part leaves everything else alone. */
  lemma SecretsKeep(s: Store, a: Assistant, drawn: map<string, string>)
    ensures var t := Run(s, SecretsPart(s, a, drawn).ops);
            forall k :: k != Place(a, Secret, "-sandbox-secrets") ==> t.Find(k) == s.Find(k)
    ensures SecretsPart(s, a, drawn).ok && At(a, Secret, Secrets) in s.objects ==> SecretsPart(s, a, drawn).ops == []
    ensures At(a, Secret, TlsApi) != At(a, Secret, Secrets) && At(a, Secret, TlsRunner) != At(a, Secret, Secrets)
  {
    Places(a, Secret);
    hide SharedSecret, Prefix;
    var k := At(a, Secret, Secrets);
    OneWrite(s, Create(k, SharedSecret(a, drawn)));
    if At(a, Secret, TlsApi) == k { NamesInjective(Prefix(a.ns, a.name), TlsApi, Prefix(a.ns, a.name), Secrets); }
    if At(a, Secret, TlsRunner) == k { NamesInjective(Prefix(a.ns, a.name), TlsRunner, Prefix(a.ns, a.name), Secrets); }
  }

  /** The grant of the bootstrap Job: it may create and patch Secrets, and nothing else. */
  predicate LeastGrant(t: Store, a: Assistant) {
    var certs := a.ns + "-" + a.name + "-sandbox-certs";
    && Place(a, ServiceAccount, "-sandbox-certs") in t.objects
    && Shows(t, Place(a, Role, "-sandbox-certs"), Spec("resources"), Texts(["secrets"]))
    && Shows(t, Place(a, Role, "-sandbox-certs"), Spec("verbs"), Texts(["create", "patch"]))
    && Shows(t, Place(a, RoleBinding, "-sandbox-certs"), Spec("roleRef"), Text(certs))
    && Shows(t, Place(a, RoleBinding, "-sandbox-certs"), Spec("subject"), Text(certs))
  }

  lemma GrantFields(a: Assistant)
    ensures var role, certs := SandboxMeta(a, "sandbox-certs") + RoleBody(), a.ns + "-" + a.name + "-sandbox-certs";
            && Spec("resources") in role && role[Spec("resources")] == Texts(["secrets"])
            && Spec("verbs") in role && role[Spec("verbs")] == Texts(["create", "patch"])
    ensures var binding := SandboxMeta(a, "sandbox-certs") + BindingBody(a);
            var certs := a.ns + "-" + a.name + "-sandbox-certs";
            && Spec("roleRef") in binding && binding[Spec("roleRef")] == Text(certs)
            && Spec("subject") in binding && binding[Spec("subject")] == Text(certs)
  {
    hide SandboxMeta;
    assert "resources"[0] == 'r' && "verbs"[0] == 'v' && "roleRef"[0] == 'r' && "subject"[0] == 's';
    MetaOnly(a, "sandbox-certs", RoleBody(), Spec("resources"));
    MetaOnly(a, "sandbox-certs", RoleBody(), Spec("verbs"));
    MetaOnly(a, "sandbox-certs", BindingBody(a), Spec("roleRef"));
    MetaOnly(a, "sandbox-certs", BindingBody(a), Spec("subject"));
  }

  lemma ShowsAfterPut(s: Store, t: Store, op: Op, p: Path)
    requires op.Put? && Settled(t, op) && p in op.want
    ensures Shows(t, op.key, p, op.want[p])
  {}

  /** The three access objects, and nothing else. */
  lemma AccessStep(s: Store, a: Assistant)
    ensures LeastGrant(Run(s, Access(a)), a)
    ensures forall k: Key ::
            !(k.kind in {ServiceAccount, Role, RoleBinding} && k == Place(a, k.kind, "-sandbox-certs")) ==>
              Run(s, Access(a)).Find(k) == s.Find(k)
  {
    Places(a, ServiceAccount);
    Places(a, Role);
    Places(a, RoleBinding);
    GrantFields(a);
    hide SandboxMeta, RoleBody, BindingBody, At, Settled, Run, Place;
    var ops, t := Access(a), Run(s, Access(a));
    AccessKeys(a);
    RunSettles(s, ops, 0);
    RunSettles(s, ops, 1);
    RunSettles(s, ops, 2);
    SettledMeansThere(t, ops[0]);
    ShowsAfterPut(s, t, ops[1], Spec("resources"));
    ShowsAfterPut(s, t, ops[1], Spec("verbs"));
    ShowsAfterPut(s, t, ops[2], Spec("roleRef"));
    ShowsAfterPut(s, t, ops[2], Spec("subject"));
    forall k: Key | !(k.kind in {ServiceAccount, Role, RoleBinding} && k == Place(a, k.kind, "-sandbox-certs"))
      ensures t.Find(k) == s.Find(k)
    {
      RunFrame(s, ops, k);
    }
  }

  lemma SettledMeansThere(t: Store, op: Op)
    requires op.Put? && Settled(t, op)
    ensures op.key in t.objects
  {}

  lemma AccessKeys(a: Assistant)
    ensures Keyed(Access(a)) && Distinct(Access(a))
    ensures forall op | op in Access(a) ::
              op.key.kind in {ServiceAccount, Role, RoleBinding} && op.key == Place(a, op.key.kind, "-sandbox-certs")
  {
    hide SandboxMeta, RoleBody, BindingBody;
  }

  // ----- The status -----

  /** An optional text of a status, as an apply of it shows. */
  predicate SaysText(s: Store, k: Key, name: string, v: Option<string>) {
    && (v.Some? ==> Shows(s, k, Status(name), Text(v.value)))
    && (v.None? ==> k in s.objects && Status(name) !in s.objects[k].owned)
  }

  /** What the resource's status says after an apply of it. */
  predicate Says(s: Store, a: Assistant, st: AssistantStatus) {
    var k := Key(AssistantResource, a.ns, a.name);
    && Shows(s, k, Status("ready"), Truth(st.ready)) && Shows(s, k, Status("certsReady"), Truth(st.certsReady))
    && Shows(s, k, Status("apiReady"), Truth(st.apiReady)) && Shows(s, k, Status("runnerReady"), Truth(st.runnerReady))
    && SaysText(s, k, "targetSecret", st.targetSecret) && SaysText(s, k, "sandboxNamespace", st.sandboxNamespace)
    && SaysText(s, k, "message", st.message)
  }

  predicate TextIn(f: Fields, name: string, v: Option<string>) {
    (v.Some? ==> Status(name) in f && f[Status(name)] == Text(v.value)) && (v.None? ==> Status(name) !in f)
  }

  lemma StatusNames()
    ensures "ready"[0] == 'r' && "certsReady"[0] == 'c' && "apiReady"[0] == 'a' && "runnerReady"[0] == 'r'
    ensures "ready"[1] == 'e' && "runnerReady"[1] == 'u'
    ensures "targetSecret"[0] == 't' && "sandboxNamespace"[0] == 's' && "message"[0] == 'm'
  {}

  /** Three optional texts over a base that has none of their names. */
  lemma TextsOver(base: Fields, n1: string, v1: Option<string>, n2: string, v2: Option<string>, n3: string,
                  v3: Option<string>, p: Path)
    requires n1 != n2 && n1 != n3 && n2 != n3
    requires Status(n1) !in base && Status(n2) !in base && Status(n3) !in base
    ensures var f := base + StatusText(n1, v1) + StatusText(n2, v2) + StatusText(n3, v3);
            && TextIn(f, n1, v1) && TextIn(f, n2, v2) && TextIn(f, n3, v3)
            && (p in base ==> p in f && f[p] == base[p])
  {}

  lemma StatusSays(st: AssistantStatus)
    ensures var f := StatusFields(st);
            && Status("ready") in f && f[Status("ready")] == Truth(st.ready)
            && Status("certsReady") in f && f[Status("certsReady")] == Truth(st.certsReady)
            && Status("apiReady") in f && f[Status("apiReady")] == Truth(st.apiReady)
            && Status("runnerReady") in f && f[Status("runnerReady")] == Truth(st.runnerReady)
            && TextIn(f, "targetSecret", st.targetSecret) && TextIn(f, "sandboxNamespace", st.sandboxNamespace)
            && TextIn(f, "message", st.message)
  {
    hide StatusText, TextIn;
    StatusNames();
    var base: Fields := map[Status("ready") := Truth(st.ready), Status("certsReady") := Truth(st.certsReady),
                            Status("apiReady") := Truth(st.apiReady), Status("runnerReady") := Truth(st.runnerReady)];
    forall p | p in base
      ensures p in StatusFields(st) && StatusFields(st)[p] == base[p]
      ensures TextIn(StatusFields(st), "targetSecret", st.targetSecret)
              && TextIn(StatusFields(st), "sandboxNamespace", st.sandboxNamespace)
              && TextIn(StatusFields(st), "message", st.message)
    {
      TextsOver(base, "targetSecret", st.targetSecret, "sandboxNamespace", st.sandboxNamespace, "message", st.message,
                p);
    }
    assert Status("ready") in base;
  }

  lemma StatusStep(s: Store, a: Assistant, st: AssistantStatus)
    ensures var t := Run(s, [Put(StatusKey(a), StatusFields(st))]);
            Says(t, a, st) && forall k :: k != StatusKey(a) ==> t.Find(k) == s.Find(k)
  {
    hide StatusFields, TextIn;
    StatusSays(st);
    var op := Put(StatusKey(a), StatusFields(st));
    OneWrite(s, op);
    StepSettles(s, op);
    var t := Step(s, op);
    TextSaid(t, op, "targetSecret", st.targetSecret);
    TextSaid(t, op, "sandboxNamespace", st.sandboxNamespace);
    TextSaid(t, op, "message", st.message);
    forall k | k != StatusKey(a) ensures t.Find(k) == s.Find(k) {
    }
  }

  lemma TextSaid(t: Store, op: Op, name: string, v: Option<string>)
    requires op.Put? && Settled(t, op) && TextIn(op.want, name, v)
    ensures SaysText(t, op.key, name, v)
  {}

  // ----- The whole bootstrap pass -----

  /** The shared Secret is there with its key: as it was, or with everything that has been drawn. */
  predicate SharedThere(s: Store, t: Store, a: Assistant, drawn: map<string, string>) {
    var k := Place(a, Secret, "-sandbox-secrets");
    if k in s.objects then t.Find(k) == s.Find(k)
    else forall n | n in drawn :: Shows(t, k, Data(n), Text(drawn[n]))
  }

  lemma SharedStep(s: Store, a: Assistant, drawn: map<string, string>)
    requires SecretsPart(s, a, drawn).ok
    ensures SharedThere(s, Run(s, SecretsPart(s, a, drawn).ops), a, drawn)
  {
    Places(a, Secret);
    SharedData(a, drawn);
    hide SharedSecret, At, Place;
    OneWrite(s, Create(At(a, Secret, Secrets), SharedSecret(a, drawn)));
  }

  lemma SharedData(a: Assistant, drawn: map<string, string>)
    ensures forall n | n in drawn ::
            Data(n) in SharedSecret(a, drawn) && SharedSecret(a, drawn)[Data(n)] == Text(drawn[n])
  {
    hide SandboxMeta;
    forall n | n in drawn
      ensures Data(n) in SharedSecret(a, drawn) && SharedSecret(a, drawn)[Data(n)] == Text(drawn[n])
    {
      MetaOnly(a, "sandbox", SharedSecretBody(drawn), Data(n));
    }
  }

  /** What a bootstrap pass may touch. */
  predicate OfBootstrap(a: Assistant, k: Key) {
    || (k.kind in {ServiceAccount, Role, RoleBinding, Job} && k == Place(a, k.kind, "-sandbox-certs"))
    || k == Place(a, Secret, "-sandbox-secrets") || k == Key(AssistantResource, a.ns, a.name)
  }

  /**
   While a certificate Secret is missing, a pass that goes ahead leaves: a fresh bootstrap Job if there was none or the
   old one had ended, and otherwise the one at work as it was; the least grant for it; the shared Secret; and a status
   that is not ready but carries the pin. Nothing else changes, neither a workload nor the target's Secret.
   */
  lemma BootstrapOutcome(s: Store, a: Assistant, seen: Snapshot, drawn: map<string, string>, final: AssistantStatus)
    requires GoesAhead(s, a, seen.pin) && !CertificatesThere(s, a)
    ensures var t, job := Run(s, AssistantPlan(s, a, seen, drawn, final).ops), Place(a, Job, "-sandbox-certs");
            && (if job in s.objects && !Ended(s, job) then t.Find(job) == s.Find(job) else FreshJob(t, a, job))
            && LeastGrant(t, a) && SharedThere(s, t, a, drawn)
            && Says(t, a, AssistantStatus(false, false, false, false, seen.target, Some(job.ns),
                                          Some("waiting for the mTLS bootstrap Job")))
            && forall k: Key :: !OfBootstrap(a, k) ==> t.Find(k) == s.Find(k)
  {
    AdmissionIs(s, a, seen, drawn);
    BootstrapPlan(s, a, seen, drawn, final);
    SecretsKeep(s, a, drawn);
    SharedStep(s, a, drawn);
    hide GoesAhead, CertificatesThere, Admitted, Run, SecretsPart, Access, JobPart, StatusFields, AssistantPlan,
         FreshJob,
         LeastGrant, Says, SharedThere, Place, Ended;
    var sec := SecretsPart(s, a, drawn).ops;
    var s1 := Run(s, sec);
    var waiting := WaitingStatus(a.SandboxNamespace(), seen.target);
    var status := [Put(StatusKey(a), StatusFields(waiting))];
    RunConcat(s, sec, (Access(a) + JobPart(s1, a)) + status);
    RunConcat(s1, Access(a) + JobPart(s1, a), status);
    RunConcat(s1, Access(a), JobPart(s1, a));
    BootstrapParts(s, s1, a, drawn, waiting);
  }

  lemma BootstrapParts(s: Store, s1: Store, a: Assistant, drawn: map<string, string>, waiting: AssistantStatus)
    requires forall k :: k != Place(a, Secret, "-sandbox-secrets") ==> s1.Find(k) == s.Find(k)
    requires SharedThere(s, s1, a, drawn)
    ensures var t := Run(Run(Run(s1, Access(a)), JobPart(s1, a)), [Put(StatusKey(a), StatusFields(waiting))]);
            var job := Place(a, Job, "-sandbox-certs");
            && (if job in s.objects && !Ended(s, job) then t.Find(job) == s.Find(job) else FreshJob(t, a, job))
            && LeastGrant(t, a) && SharedThere(s, t, a, drawn) && Says(t, a, waiting)
            && forall k: Key :: !OfBootstrap(a, k) ==> t.Find(k) == s.Find(k)
  {
    AssistantApply.AccessKeepsJob(s1, a);
    hide Run, Access, JobPart, StatusFields, Says;
    var s2 := Run(s1, Access(a));
    var s3 := Run(s2, JobPart(s1, a));
    var t := Run(s3, [Put(StatusKey(a), StatusFields(waiting))]);
    var job := Place(a, Job, "-sandbox-certs");
    AccessStep(s1, a);
    assert s2.Find(job) == s1.Find(job) == s.Find(job);
    JobStep(s2, a);
    JobFrame(s2, a);
    StatusStep(s3, a, waiting);
    assert t.Find(job) == s3.Find(job);
    forall k: Key | k.kind in {ServiceAccount, Role, RoleBinding, Secret} ensures t.Find(k) == s2.Find(k) {
      assert s3.Find(k) == s2.Find(k);
    }
    GrantStays(s2, t, a);
    var shared := Place(a, Secret, "-sandbox-secrets");
    assert t.Find(shared) == s2.Find(shared) == s1.Find(shared);
    forall k: Key | !OfBootstrap(a, k) ensures t.Find(k) == s.Find(k) {
      assert s3.Find(k) == s2.Find(k) && s2.Find(k) == s1.Find(k);
    }
  }

  lemma JobFrame(s: Store, a: Assistant)
    ensures forall k: Key :: k != Place(a, Job, "-sandbox-certs") ==> Run(s, JobPart(s, a)).Find(k) == s.Find(k)
  {
    Places(a, Job);
    hide SandboxMeta, JobBody, At, JobFinished, Run;
    forall k: Key | k != At(a, Job, Certs) ensures Run(s, JobPart(s, a)).Find(k) == s.Find(k) {
      RunFrame(s, JobPart(s, a), k);
    }
  }

  lemma GrantStays(s: Store, t: Store, a: Assistant)
    requires LeastGrant(s, a)
    requires forall k: Key | k.kind in {ServiceAccount, Role, RoleBinding} :: t.Find(k) == s.Find(k)
    ensures LeastGrant(t, a)
  {
    var x, y, z := Place(a, ServiceAccount, "-sandbox-certs"), Place(a, Role, "-sandbox-certs"),
                   Place(a, RoleBinding, "-sandbox-certs");
    assert t.Find(x) == s.Find(x) && t.Find(y) == s.Find(y) && t.Find(z) == s.Find(z);
  }
}

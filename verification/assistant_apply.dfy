/** The Assistant reconciler's `apply`, call by call. */
module AssistantApply {
  import opened Wrappers
  import opened Kube
  import opened Server
  import opened Resources
  import opened Builders
  import opened SandboxNames
  import opened AssistantValidate
  import opened AssistantObjects
  import opened AssistantPlans
  import CreateOnce
  import InstanceAi

  /** One write; a success means that no call failed. */
  method WriteOne(server: ApiServer, op: Op) returns (out: Outcome)
    requires server.Valid() && !server.Refused(op)
    modifies server`store, server`log, server`faults
    ensures server.Valid() && server.faults >= old(server.faults)
    ensures Follows(old(server.log), server.log, Plan([op], true), out.Pass?, server.faults == old(server.faults))
    ensures out.Pass? ==> server.faults == old(server.faults) && server.store == Run(old(server.store), [op])
  {
    out := server.Write(op);
    RunOne(old(server.store), op);
  }

  lemma RunOne(s: Store, op: Op)
    ensures Run(s, [op]) == Step(s, op)
  {
    assert Run(s, [op]) == Run(Step(s, op), []);
  }

  /** Several writes in order, the first failure ending them. */
  method WriteAll(server: ApiServer, ops: seq<Op>) returns (out: Outcome)
    requires server.Valid() && forall op | op in ops :: !server.Refused(op)
    modifies server`store, server`log, server`faults
    ensures server.Valid() && server.faults >= old(server.faults)
    ensures Follows(old(server.log), server.log, Plan(ops, true), out.Pass?, server.faults == old(server.faults))
    ensures out.Pass? ==> server.faults == old(server.faults) && server.store == Run(old(server.store), ops)
  {
    hide Run;
    ghost var start, log := server.store, server.log;
    out := Pass;
    StartOfRun(start);
    for i := 0 to |ops|
      invariant server.Valid() && server.faults == old(server.faults)
      invariant server.log == log + ops[..i] && server.store == Run(start, ops[..i])
      invariant forall op | op in ops :: !server.Refused(op)
    {
      ghost var before := server.log;
      out := WriteOne(server, ops[i]);
      assert ops[..i + 1] == ops[..i] + [ops[i]];
      if out.Fail? {
        assert server.log[|log|..] <= ops[..i + 1] <= ops;
        return;
      }
      RunConcat(start, ops[..i], [ops[i]]);
    }
    assert ops[..|ops|] == ops;
    out := Pass;
  }

  lemma StartOfRun(s: Store)
    ensures Run(s, []) == s
  {}

  // ----- The parts -----

  /** The shared Secret: created once, otherwise read. */
  method EnsureSharedSecret(server: ApiServer, a: Assistant, drawn: map<string, string>) returns (r: Result<string>)
    requires server.Valid() && CreateOnce.API_KEYS in drawn
    modifies server`store, server`log, server`faults
    ensures server.Valid() && server.faults >= old(server.faults)
    ensures Follows(old(server.log), server.log,
                    SecretsPart(old(server.store), a, drawn), r.Ok?, server.faults == old(server.faults))
    ensures r.Ok? ==> server.faults == old(server.faults) && r.value == ApiKeyOf(old(server.store), a, drawn)
                      && server.store == Run(old(server.store), SecretsPart(old(server.store), a, drawn).ops)
  {
    hide Run, SharedSecret, At, CreateOnce.API_KEYS;
    StartOfRun(server.store);
    var k := At(a, Secret, Secrets);
    var seen := server.Get(k);
    if seen.Err? {
      return Err(seen.error);
    }
    if seen.value.Some? {
      var key := DataText(seen.value.value, CreateOnce.API_KEYS);
      r := if key.Some? then Ok(key.value) else Err(IllegalAssistant);
    } else {
      var out := WriteOne(server, Create(k, SharedSecret(a, drawn)));
      r := if out.Pass? then Ok(drawn[CreateOnce.API_KEYS]) else Err(out.error);
    }
  }

  /** ServiceAccount, Role, RoleBinding, then the Job: a finished one is removed, one at work is kept. */
  method Bootstrap(server: ApiServer, a: Assistant) returns (out: Outcome)
    requires server.Valid()
    modifies server`store, server`log, server`faults
    ensures server.Valid() && server.faults >= old(server.faults)
    ensures Follows(old(server.log), server.log,
                    Plan(Access(a) + JobPart(old(server.store), a), true),
                    out.Pass?, server.faults == old(server.faults))
  {
    hide Run, SandboxMeta, RoleBody, BindingBody, JobBody, JobFinished, At, Access, JobPart, Follows;
    ghost var s, log := server.store, server.log;
    NoRoutes(s, a);
    out := WriteAll(server, Access(a));
    if out.Fail? {
      FollowsStop(log, server.log, Plan(Access(a), true), Plan(JobPart(s, a), true),
                  server.faults == old(server.faults));
      return;
    }
    AccessKeepsJob(s, a);
    ghost var mid, faults := server.log, server.faults;
    out := EnsureJob(server, a);
    FollowsThen(log, mid, server.log, Plan(Access(a), true), Plan(JobPart(s, a), true), out.Pass?,
                faults == old(server.faults), server.faults == faults, server.faults == old(server.faults));
  }

  lemma NoRoutes(s: Store, a: Assistant)
    ensures forall op | op in Access(a) :: op.Put? && !op.key.kind.HTTPRoute?
  {
    hide SandboxMeta, RoleBody, BindingBody, NameOf, Prefix;
  }

  /** The access grant does not touch the Job. */
  lemma AccessKeepsJob(s: Store, a: Assistant)
    ensures JobPart(Run(s, Access(a)), a) == JobPart(s, a)
  {
    hide Run, SandboxMeta, RoleBody, BindingBody, JobBody, JobFinished;
    RunFrame(s, Access(a), At(a, Job, Certs));
  }

  method EnsureJob(server: ApiServer, a: Assistant) returns (out: Outcome)
    requires server.Valid()
    modifies server`store, server`log, server`faults
    ensures server.Valid() && server.faults >= old(server.faults)
    ensures Follows(old(server.log), server.log,
                    Plan(JobPart(old(server.store), a), true), out.Pass?, server.faults == old(server.faults))
  {
    hide Run, SandboxMeta, JobBody, JobFinished;
    var k := At(a, Job, Certs);
    var anew := Create(k, SandboxMeta(a, "sandbox-certs") + JobBody(a));
    ghost var log := server.log;
    var seen := server.Get(k);
    if seen.Err? {
      FollowsNothing(log, Plan(JobPart(server.store, a), true));
      return Fail(seen.error);
    }
    if seen.value.Some? {
      if !JobFinished(seen.value.value) {
        return Pass;
      }
      out := WriteOne(server, Remove(k));
      if out.Fail? {
        return;
      }
    }
    out := WriteOne(server, anew);
  }

  /** The two user keys, then the target's Secret. */
  method ApplyTarget(server: ApiServer, a: Assistant, apiKey: string) returns (out: Outcome)
    requires server.Valid()
    modifies server`store, server`log, server`faults
    ensures server.Valid() && server.faults >= old(server.faults)
    ensures Follows(old(server.log), server.log,
                    TargetPart(old(server.store), a, apiKey), out.Pass?, server.faults == old(server.faults))
  {
    hide Run, InstanceAi.TargetFields, TargetData, DataText;
    var model := ReadUserKey(server, a.ns, a.modelKey);
    if model.Err? {
      return Fail(model.error);
    }
    var brave := ReadUserKey(server, a.ns, a.brave);
    if brave.Err? {
      return Fail(brave.error);
    }
    out := WriteOne(server,
                    Put(TargetKey(a), InstanceAi.TargetFields(a, TargetData(a, apiKey, model.value, brave.value))));
  }

  method ReadUserKey(server: ApiServer, ns: string, key: Option<SecretKeyRef>) returns (r: Result<Option<string>>)
    modifies server`faults
    ensures server.faults >= old(server.faults)
    ensures server.faults == old(server.faults) ==> r == ReadKey(server.store, ns, key)
    ensures r.Ok? ==> server.faults == old(server.faults)
  {
    hide DataText;
    if key.None? {
      return Ok(None);
    }
    var seen := server.Get(Key(Secret, ns, key.value.name));
    if seen.Err? {
      return Err(seen.error);
    }
    if seen.value.None? {
      return Err(KubeError);
    }
    var t := DataText(seen.value.value, key.value.key);
    r := if t.Some? then Ok(Some(t.value)) else Err(IllegalAssistant);
  }

  /** The volume claim, both workloads with their Services, and the target's Secret. */
  method ApplyStack(server: ApiServer, a: Assistant, apiKey: string, tlsApi: string,
                    tlsRunner: string) returns (out: Outcome)
    requires server.Valid()
    requires tlsApi == Revision(server.store, At(a, Secret, TlsApi))
             && tlsRunner == Revision(server.store, At(a, Secret, TlsRunner))
    modifies server`store, server`log, server`faults
    ensures server.Valid() && server.faults >= old(server.faults)
    ensures Follows(old(server.log), server.log,
                    StackPart(old(server.store), a, apiKey), out.Pass?, server.faults == old(server.faults))
  {
    hide Run, Workloads, TargetPart, Follows, At, Revision;
    ghost var s, log := server.store, server.log;
    var work := Workloads(a, tlsApi, tlsRunner);
    WorkloadsAreRoutable(a, tlsApi, tlsRunner);
    out := WriteAll(server, work);
    if out.Fail? {
      FollowsStop(log, server.log, Plan(work, true), TargetPart(Run(s, work), a, apiKey),
                  server.faults == old(server.faults));
      return;
    }
    ghost var mid, faults := server.log, server.faults;
    out := ApplyTarget(server, a, apiKey);
    FollowsThen(log, mid, server.log, Plan(work, true), TargetPart(Run(s, work), a, apiKey), out.Pass?,
                faults == old(server.faults), server.faults == faults, server.faults == old(server.faults));
  }

  lemma WorkloadsAreRoutable(a: Assistant, tlsApi: string, tlsRunner: string)
    ensures forall op | op in Workloads(a, tlsApi, tlsRunner) :: op.Put? && !op.key.kind.HTTPRoute?
  {
    hide SandboxMeta, ApiBody, RunnerBody, ServiceBody, DockerBody, NameOf, Prefix;
  }

  /** Publishes the event, reads the two Deployments and reports. */
  method Finish(server: ApiServer, a: Assistant) returns (out: Outcome, final: AssistantStatus)
    requires server.Valid()
    modifies server`store, server`log, server`faults
    ensures server.Valid() && server.faults >= old(server.faults)
    ensures Follows(old(server.log), server.log, StatusPart(a, final), out.Pass?, server.faults == old(server.faults))
    ensures Reported(final, a)
    ensures out.Pass? ==>
              && (final.apiReady <==> HasReplicas(old(server.store), At(a, Deployment, Api)))
              && (final.runnerReady <==> HasReplicas(old(server.store), At(a, Deployment, Runner)))
              && final.message == FirstText(TextAt(old(server.store), At(a, Deployment, Api), Status("ReplicaFailure")),
                                            TextAt(old(server.store), At(a, Deployment, Runner),
                                                   Status("ReplicaFailure")))
  {
    hide Run, StatusFields, Available, FailureMessage, HasReplicas;
    WorkloadReads(server.store, At(a, Deployment, Api));
    WorkloadReads(server.store, At(a, Deployment, Runner));
    final := AssistantStatus(false, true, false, false, Some(InstanceAiSecret(a.targetName)),
                             Some(a.SandboxNamespace()), None);
    out := server.Publish();
    if out.Fail? {
      return;
    }
    var api := server.Get(At(a, Deployment, Api));
    if api.Err? {
      return Fail(api.error), final;
    }
    var runner := server.Get(At(a, Deployment, Runner));
    if runner.Err? {
      return Fail(runner.error), final;
    }
    var message := FailureMessage(api.value);
    final := final.(ready := Available(api.value) && Available(runner.value), apiReady := Available(api.value),
                    runnerReady := Available(runner.value),
                    message := if message.Some? then message else FailureMessage(runner.value));
    out := WriteOne(server, Put(StatusKey(a), StatusFields(final)));
  }

  /** At least one replica is available. */
  predicate HasReplicas(s: Store, k: Key) {
    && k in s.objects && Status("availableReplicas") in s.objects[k].fields
    && match s.objects[k].fields[Status("availableReplicas")]
       case Number(n) => n >= 1
       case _ => false
  }

  /** The first text there is. */
  function FirstText(a: Option<string>, b: Option<string>): Option<string> {
    match a case Some(_) => a case None => b
  }

  lemma WorkloadReads(s: Store, k: Key)
    ensures Available(s.Find(k)) <==> HasReplicas(s, k)
    ensures FailureMessage(s.Find(k)) == TextAt(s, k, Status("ReplicaFailure"))
  {}

  /** A final status: ready exactly when both workloads are, and pinned to the sandbox namespace. */
  predicate Reported(st: AssistantStatus, a: Assistant) {
    && st.certsReady && (st.ready <==> st.apiReady && st.runnerReady)
    && st.sandboxNamespace == Some(a.SandboxNamespace()) && st.targetSecret == Some(InstanceAiSecret(a.targetName))
  }

  // ----- The whole pass -----

  /** With the certificates there: the stack and the final status. Without: the bootstrap and the waiting status. */
  method AfterSharedSecret(server: ApiServer, a: Assistant, apiKey: string, waiting: AssistantStatus)
    returns (out: Outcome, final: AssistantStatus)
    requires server.Valid()
    modifies server`store, server`log, server`faults
    ensures server.Valid() && server.faults >= old(server.faults)
    ensures Follows(old(server.log), server.log,
                    AfterSecrets(old(server.store), a, apiKey, waiting, final),
                    out.Pass?, server.faults == old(server.faults))
    ensures Reported(final, a)
  {
    hide Run, StackPart, Access, JobPart, StatusFields, Follows, Revision, At;
    ghost var s, log := server.store, server.log;
    final := AssistantStatus(false, true, false, false, Some(InstanceAiSecret(a.targetName)),
                             Some(a.SandboxNamespace()), None);
    var api := server.Get(At(a, Secret, TlsApi));
    if api.Err? {
      FollowsNothing(log, AfterSecrets(s, a, apiKey, waiting, final));
      return Fail(api.error), final;
    }
    var runner := server.Get(At(a, Secret, TlsRunner));
    if runner.Err? {
      FollowsNothing(log, AfterSecrets(s, a, apiKey, waiting, final));
      return Fail(runner.error), final;
    }
    if api.value.Some? && runner.value.Some? {
      RevisionsRead(s, a, api.value.value, runner.value.value);
      out := ApplyStack(server, a, apiKey, NatText(api.value.value.version), NatText(runner.value.value.version));
      if out.Fail? {
        FollowsStop(log, server.log, StackPart(s, a, apiKey), StatusPart(a, final),
                    server.faults == old(server.faults));
        return;
      }
      ghost var mid, faults := server.log, server.faults;
      out, final := Finish(server, a);
      FollowsThen(log, mid, server.log, StackPart(s, a, apiKey), StatusPart(a, final), out.Pass?,
                  faults == old(server.faults), server.faults == faults, server.faults == old(server.faults));
    } else {
      ghost var boot := Plan(Access(a) + JobPart(s, a), true);
      out := Bootstrap(server, a);
      if out.Fail? {
        FollowsStop(log, server.log, boot, StatusPart(a, waiting), server.faults == old(server.faults));
        return;
      }
      ghost var mid, faults := server.log, server.faults;
      out := WriteOne(server, Put(StatusKey(a), StatusFields(waiting)));
      FollowsThen(log, mid, server.log, boot, StatusPart(a, waiting), out.Pass?, faults == old(server.faults),
                  server.faults == faults,
                  server.faults == old(server.faults));
    }
  }

  lemma RevisionsRead(s: Store, a: Assistant, api: Object, runner: Object)
    requires s.Find(At(a, Secret, TlsApi)) == Some(api) && s.Find(At(a, Secret, TlsRunner)) == Some(runner)
    ensures NatText(api.version) == Revision(s, At(a, Secret, TlsApi))
    ensures NatText(runner.version) == Revision(s, At(a, Secret, TlsRunner))
    ensures CertsReady(s, a)
  {}

  /**
   `apply`. An illegal spec, a namespace other than the pinned one, or a missing namespace ends it before any
   write; afterwards the writes are exactly those of the plan, up to the first failure.
   */
  method Apply(server: ApiServer, a: Assistant, seen: Snapshot, drawn: map<string, string>)
    returns (out: Outcome, final: AssistantStatus)
    requires server.Valid() && CreateOnce.API_KEYS in drawn
    modifies server`store, server`log, server`faults
    ensures server.Valid() && server.faults >= old(server.faults)
    ensures Follows(old(server.log), server.log,
                    AssistantPlan(old(server.store), a, seen, drawn, final),
                    out.Pass?, server.faults == old(server.faults))
    ensures out.Pass? || server.faults == old(server.faults) ==>
              server.store == Run(old(server.store), AssistantPlan(old(server.store), a, seen, drawn, final).ops)
    ensures Reported(final, a)
    ensures !Admitted(old(server.store), a, seen.pin) ==> out.Fail? && server.log == old(server.log)
    ensures !AssistantAllowed(a) || !PinAllows(seen.pin, a.SandboxNamespace()) ==> out == Fail(IllegalAssistant)
  {
    out, final := ApplyParts(server, a, seen, drawn);
    if out.Pass? || server.faults == old(server.faults) {
      RunConcat(server.base, old(server.log), AssistantPlan(old(server.store), a, seen, drawn, final).ops);
    }
  }

  method ApplyParts(server: ApiServer, a: Assistant, seen: Snapshot, drawn: map<string, string>)
    returns (out: Outcome, final: AssistantStatus)
    requires server.Valid() && CreateOnce.API_KEYS in drawn
    modifies server`store, server`log, server`faults
    ensures server.Valid() && server.faults >= old(server.faults)
    ensures Follows(old(server.log), server.log,
                    AssistantPlan(old(server.store), a, seen, drawn, final),
                    out.Pass?, server.faults == old(server.faults))
    ensures Reported(final, a)
    ensures !Admitted(old(server.store), a, seen.pin) ==> out.Fail? && server.log == old(server.log)
    ensures !AssistantAllowed(a) || !PinAllows(seen.pin, a.SandboxNamespace()) ==> out == Fail(IllegalAssistant)
  {
    hide Run, AssistantAllowed, SecretsPart, AfterSecrets, ApiKeyOf, Follows;
    ghost var s, log := server.store, server.log;
    final := AssistantStatus(false, true, false, false, Some(InstanceAiSecret(a.targetName)),
                             Some(a.SandboxNamespace()), None);
    RefusalFollows(log, server.faults == old(server.faults));
    if !AssistantAllowed(a) || !PinAllows(seen.pin, a.SandboxNamespace()) {
      return Fail(IllegalAssistant), final;
    }
    var namespace := server.Get(NamespaceKey(a.SandboxNamespace()));
    if namespace.Err? {
      FollowsNothing(log, AssistantPlan(s, a, seen, drawn, final));
      return Fail(namespace.error), final;
    }
    if namespace.value.None? {
      return Fail(IllegalAssistant), final;
    }
    var waiting := WaitingStatus(a.SandboxNamespace(), seen.target);
    ghost var p := SecretsPart(s, a, drawn);
    var key := EnsureSharedSecret(server, a, drawn);
    if key.Err? {
      FollowsStop(log, server.log, p, AfterSecrets(Run(s, p.ops), a, ApiKeyOf(s, a, drawn), waiting, final),
                  server.faults == old(server.faults));
      return Fail(key.error), final;
    }
    ghost var mid, faults := server.log, server.faults;
    out, final := AfterSharedSecret(server, a, key.value, waiting);
    FollowsThen(log, mid, server.log, p, AfterSecrets(Run(s, p.ops), a, ApiKeyOf(s, a, drawn), waiting, final),
                out.Pass?, faults == old(server.faults), server.faults == faults, server.faults == old(server.faults));
  }

  lemma RefusalFollows(log: seq<Op>, clean: bool)
    ensures Follows(log, log, Plan([], false), false, clean)
  {}

  // ----- Cleanup -----

  const PURGED_KINDS: seq<Kind> := [Deployment, Service, Job, Secret, PersistentVolumeClaim, RoleBinding, Role,
                                    ServiceAccount]

  function PurgeOps(kinds: seq<Kind>, sandboxNs: string, crNs: string, crName: string): seq<Op> {
    seq(|kinds|, i requires 0 <= i < |kinds| => Purge(kinds[i], sandboxNs, SandboxSelector(crNs, crName)))
  }

  /** The recorded namespace, or the spec's before anything was recorded. */
  function Home(a: Assistant, pin: Option<string>): string {
    pin.GetOr(a.SandboxNamespace())
  }

  function CleanupOps(a: Assistant, pin: Option<string>): seq<Op> {
    PurgeOps(PURGED_KINDS, Home(a, pin), a.ns, a.name)
  }

  /** `cleanup`: one collection delete for each kind, then the event. */
  method Cleanup(server: ApiServer, a: Assistant, pin: Option<string>) returns (out: Outcome)
    requires server.Valid()
    modifies server`store, server`log, server`faults
    ensures server.Valid() && server.faults >= old(server.faults)
    ensures out.Pass? ==>
            server.log == old(server.log) + CleanupOps(a, pin)
            && server.store == Run(old(server.store), CleanupOps(a, pin))
    ensures server.faults == old(server.faults) ==> out.Pass?
  {
    hide Run, PURGED_KINDS;
    var ops := CleanupOps(a, pin);
    out := WriteAll(server, ops);
    if out.Pass? {
      out := server.Publish();
    }
  }
}

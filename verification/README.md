# Verification model of the n8n operator

A Dafny model of a Kubernetes operator for n8n with three custom resources: `Single` (one n8n instance), `Cluster`
(main, worker and webhook roles in queue mode) and `Assistant` (a sandbox stack in another namespace, wired into a
Single or Cluster through a Secret). It models what the operator writes to the API server, in which order, under
which failures, and proves what the runs of it guarantee.

## How it is built

* **The API server** (`kube.dfy`) is a store of objects. An object has fields, the fields this operator's field
  manager owns, the fields other managers own, and a resource version. Server-side apply is modelled literally: forced
  ownership, fields the manager owned alone and now omits are dropped, foreign fields stay, and an apply that changes
  nothing keeps the version. Map entries (labels, annotations, data keys, status fields) are separate fields; lists are
  atomic.
* **The API client** (`server.dfy`) is a class whose methods are single calls. Each may fail, a write also after it
  took effect. A ghost log records every write. A reconcile pass is described by a `Plan` (its writes in order, and
  whether it reaches its end). `Conforms` says what a pass with failing calls may leave in the log: planned writes in
  their order, each reached only after every required one before it. `Follows` is the case without tolerated removals.
* **Single and Cluster** (`resources`, `env`, `operator_env`, `env_builders`, `validate`, `builders`,
  `cluster_objects`, `plans`, `reconciler`): the reconcilers are methods, one for each function of the source, proved
  against the plan of the pass. `cluster_order`, `convergence`, `cluster_runs`, `single_runs` and `autoscaling` prove
  what passes and runs of passes achieve; `env_unique` is about whole container environments.
* **Assistant** (`sandbox_names`, `assistant_objects`, `assistant_apply`, `assistant_life`, `assistant_runs`,
  `isolation`, `instance_ai`, `selectors`, `tlspub`): names, labels, the reconcile pass, its cleanup, a state machine
  over its whole life in which every write is one step, and many Assistants side by side.
* **Independent of all that**, `rules` says field by field what a legal spec is, and `env_values`, `env_settings`,
  `env_defaults`, `role_outcome`, `cluster_outcome`, `single_outcome`, `assistant_outcome` and `stack_outcome` say in
  literal names and fields of the spec what a pass leaves in the store. The predicates of those statements use no
  function that renders an object, an environment or a plan; the lemmas beside them tie these functions to the statements.
* **Protocols** (`certs`, `ensure_certs`, `create_once`): the certificate bootstrap and the create-once Secret as state
  machines in which the operator's calls, the Job's attempts, expiry and the user interleave freely. The operator's
  side is also written as a program, run in a world that everybody else changes between any two of its calls.
* **Two controllers** (`rounds`, `fixpoint`, `stamps`): rounds of an Assistant apply and a pass of its target, what one
  round makes of everything the next one reads, and when there is nothing left to do.

A CA is a generation number, a drawn key an arbitrary value. A Cluster or Single pass reads one resource version (that
of the instance-ai Secret); everything else it writes follows from the spec. One reconcile at a time runs for each
resource (`src/reconciler/run.rs:39-48`).

## Where the code does not do what its comments or names suggest

Each item is a theorem. The condition under which the good case holds is exact wherever one is named; the escapes from
the cleanup and the late publication are shown by example runs.

* `ensure_certs` takes two existing Secrets for a pair. They can carry different CAs while an attempt is between its two
  publications (`CertsRuns.MismatchSeenAsReady`) and, if every attempt dies there, for good (`CertsRuns.MismatchForGood`).
  They agree exactly when the last publication is a runner one and no deletion followed (`Certs.AgreementIff`).
* Its two reads are not one step, so a Job can be created over a finished pair (`CertsRuns.JobCreatedOverFinishedPair`).
* The container environment can hold a variable twice, contrary to the comment on `build_user_env`: exactly when
  `extraEnv` sets a binary-data or multi-main timing variable that the operator emits too (`EnvUnique.MainEnvRepeats`).
* The cleanup's fallback to the spec is not safe as soon as a first reconcile has begun: a first apply that fails before
  its status write, or an edit between the snapshot and the first write, lets the stack escape
  (`AssistantRuns.FailedFirstApplyEscapes`, `AssistantRuns.EditDuringFirstRoundEscapes`). A bootstrap pod that outlives
  the purge leaves a Secret (`AssistantRuns.LatePublicationSurvives`).
* `{namespace}-{name}` is not injective (`SandboxNames.PrefixClash` has the condition,
  `AssistantValidate.ValidAssistantsClash` two valid resources).
* The cleanup selects by labels, but an apply over another Assistant's object takes the labels over. So it can remove
  what another Assistant's reconcile wrote, exactly when two stacks share their prefix and the purged namespace, or two
  Assistants share a target Secret in it (`AssistantIsolation.CleanupIsolated`). Both happen to validated specs:
  `AssistantIsolation.SharedStackIsRemoved`, and two Assistants of one namespace with one target, whose generated names
  are all different (`AssistantIsolation.SharedTargetIsRemoved`).
* The validator lets a key reference point into the very Secret the operator writes. Two references that point at each
  other's entry swap the two keys in every reconcile, so the Secret's version and the pods' stamp never settle
  (`Fixpoint.SwapNeverSettles`). That is the only such case (`Fixpoint.ThreeRoundsSuffice`); for others one round may
  not be enough (`Fixpoint.OneRoundSuffices`).
* Switching a Cluster from a static worker count to autoscaling drops the count in the first pass
  (`AutoscalingRuns.StaticCountIsDropped`; `AutoscalingRuns.FirstHandOver` has the condition).
* Volumes dropped from a spec stay (`ClusterRuns.VolumesStay`), and so does the Secret of a former target
  (`Rounds.OldTargetStays`).
* A Single can bear the name of a sandbox workload in the sandbox namespace. Then no store has both controllers done
  (`Fixpoint.ClashNeverQuiet`); as the two Deployments' selectors differ and are immutable, one controller's apply is
  refused as long as the other's Deployment is there.
* The command line of the bootstrap Job parses back for every validated Assistant. For unvalidated namespaces it does
  exactly unless the namespace is one of the three flags that come after it (`Tlspub.CommandLineRoundTrip`).

## Model

| member | source | states |
|---|---|---|
| Kube.ApplyTwice | src/bin/tlspub.rs:120-133 | a repeated server-side apply changes nothing, resource version included |
| Kube.ApplyPrunes | src/reconciler/assistant_apply.rs:156-161 | a field omitted by an apply leaves the object if and only if this manager alone owned it; otherwise it keeps its value |
| Kube.RunSettles | src/reconciler/cluster_apply.rs:33-118 | in a pass that names every object once, each write is still fully in effect at the end of the pass |
| Kube.RunTwice | src/reconciler/cluster_apply.rs:33-118 | repeating a pass over distinct objects is the identity |
| Server.ApiServer.Write | src/reconciler/networking.rs:44-46 | a write succeeds, fails without effect, or fails after its effect; a route is refused while its API group is not served |
| Server.ApiServer.DeleteIfPresent | src/reconciler/networking.rs:47-51 | looks first and deletes only what is there; either call failing is an error |
| Env.BuildUserEnv | src/env/mod.rs:34-58 | the order/latest loop computes the merged environment of the four chained layers |
| Env.UserEnvIsMerge | src/env/mod.rs:34-67 | looking a name up in the result gives the entry of the right-biased merge of defaults, cookie, cluster and role layers: its Secret's name and key, or its text |
| EnvValues.ClusterUserDecides | src/env/mod.rs:34-67 | in each container of a Cluster the last `extraEnv` entry of a name has its own value or its own Secret's key, the role's list before the shared one |
| EnvValues.SingleUserDecides | src/builders/deployment.rs:26-60 | the same for a Single |
| EnvSettings.ClusterBackends | src/env/redis.rs:7-47 | in every container of a legal Cluster each queue, database, TLS and Redis variable comes from its own field, or is not there, whatever the user's lists say |
| EnvSettings.SingleBackends | src/env/database.rs:7-66 | the same for a Single's key and database |
| EnvDefaults.MainSettings | src/reconciler/cluster_main.rs:57-75 | main's address, webhook URL, mail, logging, community, cookie, binary-data and multi-main variables come from their own fields, or are not there, unless a list names them |
| EnvDefaults.WorkerSettings | src/reconciler/cluster_worker.rs:28-44 | the same for the worker: its concurrency, no address and none of main's flags |
| EnvDefaults.WebhookSettings | src/reconciler/cluster_webhook.rs:32-38 | the same for the webhook role |
| EnvDefaults.SingleSettings | src/builders/deployment.rs:26-60 | the same for a Single, whose one host is also the webhook address |
| Env.UserEnvNames | src/env/mod.rs:46-57 | the result has each name once, in order of first occurrence, and no other name |
| EnvBuilders.PushSslEnv | src/env/database.rs:68-88 | the conditional pushes give the TLS entries under the prefix, in order |
| EnvBuilders.BuildDbEnv | src/env/database.rs:7-66 | the grown vector is the type followed by the entries of the configured backend |
| EnvBuilders.PushBinaryData | src/env/storage.rs:14-53 | the pushes of each mode's arm, in order |
| EnvBuilders.BuildCommonEnv | src/env/redis.rs:30-47 | the pushes of queue mode, database, Redis and binary data give the shared entries in this order |
| EnvBuilders.BuildMainEnv | src/reconciler/cluster_main.rs:57-75 | the main container's list: the shared one, the multi-main and offload pushes, and the user environment |
| EnvBuilders.BuildWorkerEnv | src/reconciler/cluster_worker.rs:28-44 | the worker container's list |
| EnvBuilders.BuildWebhookEnv | src/reconciler/cluster_webhook.rs:33-38 | the webhook container's list |
| EnvBuilders.BuildSingleEnv | src/builders/deployment.rs:26-60 | a Single's container's list |
| EnvUnique.SingleEnvUnique | src/builders/deployment.rs:26-60 | the complete environment of every validated Single has no repeated name |
| EnvUnique.MainEnvRepeats | src/reconciler/cluster_main.rs:64-75 | in a validated Cluster a name repeats in main exactly when an extraEnv list sets a binary-data or timing name the operator emits |
| EnvUnique.WorkerEnvRepeats | src/reconciler/cluster_worker.rs:28-44 | the same for the worker container and the binary-data names |
| EnvUnique.WebhookEnvRepeats | src/reconciler/cluster_webhook.rs:33-38 | the same for the webhook container |
| EnvUnique.DefaultModeRepeats | src/env/storage.rs:14-53 | such a Cluster: default binary-data mode and the same variable in main's extraEnv |
| EnvUnique.WebhookUrlAgrees | src/env/mod.rs:98-141 | unless an extraEnv list names it, all three roles see the same WEBHOOK_URL or all omit it |
| Validate.ValidateExtraEnv | src/reconciler/validate.rs:38-56 | the loop with early return passes exactly the lists without reserved names and with one source for each value |
| Validate.ValidateDatabase | src/reconciler/validate.rs:83-126 | passes exactly a known type with its own section and no other |
| Validate.ValidateCluster | src/reconciler/validate.rs:128-150 | passes exactly a legal Cluster, told field by field; otherwise the chain reports the first error in the source's order |
| Validate.ClusterErrorNames | src/reconciler/validate.rs:128-150 | which error is reported for which broken rule |
| Validate.SingleErrorNames | src/reconciler/single_validate.rs:7-24 | a Single passes exactly if legal, told field by field, and which rule gives which of the first three errors |
| Builders.DeploymentReplicas | src/builders/cluster_deployment.rs:88-90 | a Deployment declares a replica count exactly when it was given one |
| Builders.DeploymentRevision | src/builders/cluster_deployment.rs:68-76 | the pods carry the revision unless the user's annotation takes its place |
| Reconciler.ResolveEncryptionSecret | src/reconciler/encryption.rs:15-59 | creates the Secret when it is absent and never writes an existing one |
| Reconciler.SyncDestinationRule | src/builders/destination_rule.rs:42-87 | applied or removed when the Istio group is served, otherwise nothing; removal is best effort |
| Reconciler.ApplyHttpRoute | src/builders/http_route.rs:97-149 | the route, then its redirect or the removal of a stale one |
| Reconciler.DeleteHttpRoute | src/builders/http_route.rs:49-67 | removes route and redirect as far as it gets; nothing is probed while the group is not served |
| Reconciler.ReconcileRoleNetworking | src/reconciler/networking.rs:22-68 | a conflict writes nothing and fails; otherwise Ingress, then route, each applied or deleted; a failure to delete the Ingress ends the pass, one to delete routes does not |
| Reconciler.ReconcileMain | src/reconciler/cluster_main.rs:44-141 | volume, Deployment stamped with the revision the store held at the start, Service, DestinationRule, networking |
| Reconciler.ReconcileWorkers | src/reconciler/cluster_worker.rs:14-88 | Deployment, then the autoscaler or its removal, of which none may fail |
| Reconciler.ReconcileWebhooks | src/reconciler/cluster_webhook.rs:18-87 | workload and networking, or the removal of the whole role with every failure ignored |
| Reconciler.ReconcileCluster | src/reconciler/cluster_apply.rs:33-118 | an invalid spec writes nothing; otherwise exactly the planned writes when no call fails, and when some do the planned ones in order, none of them before every required one ahead of it |
| Reconciler.ReconcileSingle | src/reconciler/single_apply.rs:21-61 | the same for a Single |
| Reconciler.ApplyChildren | src/reconciler/single_children.rs:16-71 | revision read, volume, Deployment, Service, networking |
| ClusterOrder.ClusterDistinct | src/reconciler/cluster_apply.rs:33-118 | no pass writes one object twice |
| ClusterOrder.ClusterFrame | src/reconciler/cluster_apply.rs:33-118 | no part of a pass touches an object outside the Cluster's own eighteen |
| Convergence.PlanSucceeds | src/reconciler/networking.rs:22-28 | a failure-free pass succeeds exactly for a valid spec without a role conflict and with routes only where they are served |
| Convergence.ClusterConverges | src/reconciler/cluster_apply.rs:99-101 | from any store, one failure-free pass leaves every Deployment, Service, Ingress, route, redirect, autoscaler and DestinationRule as the spec asks, or absent |
| ClusterOutcome.ClusterOutcome | src/reconciler/cluster_apply.rs:33-118 | from any store, one failure-free pass over an acceptable spec, told from the spec alone: each role's image, count, volumes, command, labels, environment, Service, Ingress, routes and redirect; the autoscaler, Istio rule and webhook role exactly if asked for; volumes, the key created once, the status; nothing else changes, and nothing of an API group that is not served |
| ClusterOutcome.AttemptOutcome | src/reconciler/cluster_apply.rs:33-118 | so does every successful reconcile without a failing call, from what its log is promised to be |
| RoleOutcome.VersionIs | src/labels.rs:27-32 | the version label is the tag of the image's last path segment, or `latest`; a registry's port is no tag |
| ClusterRuns.HistoryIndependent | src/reconciler/cluster_apply.rs:33-118 | two stores with the same instance-ai revision agree on every managed object after one pass |
| ClusterRuns.NothingLeftBehind | src/reconciler/cluster_webhook.rs:24-30 | after any past of complete and partial passes over any specs, one pass leaves exactly the wanted managed objects |
| ClusterRuns.ClusterPassIdempotent | src/reconciler/cluster_apply.rs:33-118 | a second pass is the identity, even with another key drawn |
| ClusterRuns.VolumesStay | src/reconciler/cluster_apply.rs:59-88 | no run of passes removes a volume claim |
| ClusterRuns.GeneratedKeyStays | src/reconciler/encryption.rs:23-58 | once created, the encryption Secret never changes in any run of passes |
| ClusterRuns.ReadyIffAcceptable | src/reconciler/cluster_status.rs:19-25 | the status write is in a pass exactly when its spec is acceptable |
| ClusterRuns.NeverReady | src/reconciler/cluster_apply.rs:99-116 | while every version of the spec was unacceptable, no run of complete or partial passes reports ready |
| ClusterRuns.ReadyAfterPass | src/reconciler/cluster_apply.rs:115-116 | one failure-free pass over an acceptable spec reports ready |
| ClusterRuns.AttemptWrites | src/reconciler/cluster_apply.rs:33-118 | whatever an attempt with failing calls wrote belongs to a pass; it reports success only for an acceptable spec |
| ClusterRuns.CleanAttempt | src/reconciler/cluster_apply.rs:33-118 | an attempt without a failing call succeeds exactly on an acceptable spec and then meets every expectation |
| ClusterRuns.SuccessfulAttempt | src/reconciler/networking.rs:44-68 | an attempt that reports success despite failed best-effort calls has every wanted object in place, and no stale autoscaler nor Ingress of a configured role; only stale routes, the DestinationRule and the remains of a removed webhook role may be outstanding |
| ClusterRuns.StatusComesLast | src/reconciler/cluster_apply.rs:99-116 | an attempt with failing calls that got as far as the status wrote it last, when all of that was in place |
| SingleRuns.SingleConverges | src/reconciler/single_children.rs:16-71 | from any store, one failure-free pass leaves every object of a Single, and its status, as asked |
| SingleOutcome.SingleOutcome | src/reconciler/single_apply.rs:21-61 | the same for a Single, told from its spec alone: instance, environment, Service, Ingress, routes, volume, key, status; nothing else changes |
| SingleOutcome.InstanceAttemptOutcome | src/reconciler/single_apply.rs:21-61 | so does every successful reconcile without a failing call |
| SingleRuns.SinglePassIdempotent | src/reconciler/single_apply.rs:21-61 | a second pass is the identity, even with another key drawn |
| SingleRuns.PlanSucceeds | src/reconciler/single_validate.rs:7-24 | a failure-free pass succeeds exactly for a valid spec with routes only where they are served |
| SingleRuns.NothingLeftBehind | src/reconciler/single_children.rs:16-71 | after any past of complete and partial passes over any specs, one pass leaves exactly the wanted managed objects |
| SingleRuns.VolumesStay | src/reconciler/single_children.rs:26-37 | no run of passes removes the data volume |
| SingleRuns.GeneratedKeyStays | src/reconciler/encryption.rs:23-58 | once created, the encryption Secret never changes in any run of passes |
| SingleRuns.NeverReady | src/reconciler/single_apply.rs:27-59 | while every version of the spec was unacceptable, no run reports ready |
| SingleRuns.AttemptWrites | src/reconciler/single_apply.rs:21-61 | whatever an attempt with failing calls wrote belongs to a pass, and to an unacceptable one unless the spec is acceptable |
| SingleRuns.CleanAttempt | src/reconciler/single_apply.rs:21-61 | an attempt without a failing call succeeds exactly on an acceptable spec and then meets every expectation |
| SingleRuns.SuccessfulAttempt | src/reconciler/networking.rs:44-68 | an attempt that reports success despite failed best-effort calls has everything as asked but perhaps stale routes |
| SingleRuns.StatusComesLast | src/reconciler/single_apply.rs:52-59 | an attempt with failing calls that got as far as the status wrote it last, when all of that was in place |
| AutoscalingRuns.HandsOver | src/reconciler/cluster_worker.rs:45-49 | after one pass with autoscaling on the operator no longer owns the replica count |
| AutoscalingRuns.AutoscalerKeepsControl | src/reconciler/cluster_worker.rs:45-72 | from then on, through any mix of scale decisions and complete or partial passes with autoscaling on, the live count is the one set last |
| AutoscalingRuns.FirstHandOver | src/builders/cluster_deployment.rs:88-90 | in a whole pass with autoscaling on, a live count stays exactly when the operator is not its only owner |
| AutoscalingRuns.StaticCountIsDropped | src/reconciler/cluster_worker.rs:45-49 | a whole static pass followed by a whole pass with autoscaling on loses the count, unless another manager had declared it before |
| AutoscalingRuns.TakesBack | src/reconciler/cluster_worker.rs:75-88 | dropping autoscaling restores the static count and removes the autoscaler |
| SandboxNames.NamesInjective | src/builders/sandbox_names.rs:20-32 | a generated name determines the prefix and the role it is for, the Docker volume claim included |
| SandboxNames.PrefixClash | src/builders/sandbox_names.rs:21 | two Assistants share a prefix exactly if they are the same or one namespace continues the other with a dash and the names make up for it |
| SandboxNames.PrefixInjective | src/builders/sandbox_names.rs:21 | within one namespace and among dash-free namespaces the prefix is injective |
| SandboxNames.MakeSandboxLabels | src/builders/sandbox_names.rs:43-56 | the insertions give the seven labels |
| SandboxNames.SelectorIsIdentity | src/builders/sandbox_names.rs:58-61 | the cleanup's selector matches exactly the objects labelled with both the namespace and the name |
| AssistantValidate.NamesFit | src/reconciler/assistant_validate.rs:73-79 | every name generated for a validated Assistant has at most 63 characters (section 2.3.4 of RFC 1035) |
| AssistantValidate.AllowedMeansLegal | src/reconciler/assistant_validate.rs:18-81 | an Assistant passes exactly if legal, told field by field |
| AssistantValidate.BoundIsTight | src/reconciler/assistant_validate.rs:5-10 | the length check holds exactly when all names fit |
| AssistantValidate.ValidAssistantsClash | src/reconciler/assistant_validate.rs:18-81 | two validated Assistants in different namespaces that share every generated name |
| Selectors.MergeStringMap | src/builders/mod.rs:45-53 | inserting the extra entries in any order gives the right-biased union |
| Selectors.ApplyPodConfig | src/builders/mod.rs:37-42 | user labels and annotations are merged over the operator's; unset parts change nothing |
| Selectors.WorkloadSelected | src/labels.rs:5-25 | an n8n pod still matches its selector exactly when the user's labels rebind no selector key |
| Selectors.SandboxPodSelected | src/builders/sandbox_workloads.rs:69-96 | the same for a sandbox pod |
| Selectors.ServiceIsolated | src/builders/sandbox_workloads.rs:33-40 | under that condition a sandbox Service reaches the pods of its own namespace, name and component and no others |
| Selectors.RelabelledPodIsReached | src/builders/mod.rs:37-39 | without it one label is enough to be reached through another Assistant's Service |
| Tlspub.CommandLineRoundTrip | src/bin/tlspub.rs:67-90 | parsing the Job's words gives back directory, namespace, both Secret names and the labels, exactly unless the namespace is one of three flags |
| Tlspub.JobParsesBack | src/builders/sandbox_certs.rs:129-138 | for every validated Assistant it does, and the labels match the cleanup's selector |
| Tlspub.Collect | src/bin/tlspub.rs:57-65 | the loop collects exactly the whitelisted files, or fails if one is missing |
| Tlspub.OnlyListedFiles | src/bin/tlspub.rs:55-65 | what is published depends on the whitelisted paths of the two directories alone |
| Tlspub.NoCaKey | src/bin/tlspub.rs:1-32 | whatever key the bootstrap script leaves in `ca.key` beside those directories, or none, the published Secrets are the same, and no entry has a CA key's name |
| Tlspub.RunTlspub | src/bin/tlspub.rs:143-163 | nothing is published before everything has been parsed and read; the api Secret comes first |
| Tlspub.SidesInPlace | src/bin/tlspub.rs:152-160 | a successful run over a validated Assistant's words leaves the api's five files in the api's Secret and the runner's five in the runner's, each with its contents on the disk |
| Tlspub.CompleteOrNothing | src/bin/tlspub.rs:57-65 | such a run is refused, and writes nothing, exactly if one of the ten files is missing |
| InstanceAi.BuildInstanceAiData | src/env/instance_ai.rs:8-43 | the insertions give the fixed entries and one for each optional setting |
| InstanceAi.FixedEntries | src/env/instance_ai.rs:8-26 | no optional entry replaces a fixed one |
| InstanceAi.OptionalEntries | src/env/instance_ai.rs:27-41 | each optional key is there exactly when its setting is, with its value |
| InstanceAi.LastApplyDecides | src/reconciler/assistant_apply.rs:156-185 | after any history of applies and foreign updates, the first apply included, one apply leaves this manager owning exactly its fields, and of all others only those somebody else wrote |
| InstanceAi.ForeignFieldsUntouched | src/reconciler/assistant_apply.rs:182-185 | a key no apply ever declared holds what the other managers wrote last |
| InstanceAi.RemovedKeyIsGone | src/env/instance_ai.rs:45-66 | a setting removed from the spec is gone from the live Secret unless somebody else wrote that key |
| Certs.CaAgreement | src/bin/tlspub.rs:143-163 | once an attempt has succeeded and no later one has begun to publish, both Secrets stem from one attempt, and each exists exactly if not deleted since its publication |
| Certs.AgreementIff | src/bin/tlspub.rs:120-133 | in every run the Secrets exist with one CA exactly when a runner publication is the last one and no deletion followed |
| Certs.DifferIffApiLast | src/reconciler/assistant_certs.rs:118-129 | whenever both exist, they differ exactly while the last publication is an api one |
| Certs.NoRemint | src/reconciler/assistant_certs.rs:124-129 | with both Secrets there and the Job finished or gone, no run without a deletion creates a Job, starts an attempt or changes a CA |
| Certs.UnfinishedJobStays | src/reconciler/assistant_certs.rs:171-178 | in no run is an unfinished Job deleted |
| Certs.CallCreatesJob | src/reconciler/assistant_certs.rs:158-182 | a call begun with the Job finished or gone, unless a call fails, sees both Secrets or leaves a fresh unfinished Job, whatever happens in between |
| Certs.AttemptsBounded | src/builders/sandbox_certs.rs:108-110 | between two Job creations at most 31 steps of attempts happen, and each uses the measure up |
| CertsRuns.CallAndAttempt | src/reconciler/assistant_certs.rs:118-182 | an undisturbed call and attempt end with both Secrets under one new CA |
| CertsRuns.MismatchSeenAsReady | src/reconciler/assistant_certs.rs:124-129 | a run in which a call is satisfied with Secrets of different CAs |
| CertsRuns.MismatchForGood | src/builders/sandbox_certs.rs:110 | a run after which that lasts until somebody deletes a Secret |
| CertsRuns.JobCreatedOverFinishedPair | src/reconciler/assistant_certs.rs:119-123 | a run in which a Job is created although both Secrets are there and agree |
| EnsureCerts.EnsureCerts | src/reconciler/assistant_certs.rs:109-182 | between arbitrary steps of everybody else: the two reads are returned, no write follows them, and otherwise the whole sequence runs and leaves a fresh Job |
| EnsureCerts.EnsureJob | src/reconciler/assistant_certs.rs:171-180 | a finished Job is deleted, then one is created unless one is there |
| CreateOnce.NewSandboxSecretData | src/reconciler/assistant_certs.rs:37-54 | six keys, each drawn value under the names of both sides |
| CreateOnce.CallersAgree | src/reconciler/assistant_certs.rs:68-105 | any number of callers in any interleaving return the key of the one stored Secret, which never changes |
| CreateOnce.CallerFails | src/reconciler/assistant_certs.rs:94-104 | a caller fails only on a failing call or a Secret without the key |
| CreateOnce.DeletionBreaksAgreement | src/reconciler/assistant_certs.rs:68-105 | with a deletion in between, two callers can return different keys |
| CreateOnce.Board.EnsureSandboxSecrets | src/reconciler/assistant_certs.rs:68-105 | get, create and re-get between arbitrary steps of other callers return the stored key |
| AssistantObjects.StatusPins | src/reconciler/assistant_apply.rs:232-248 | a status apply carries the namespace pin exactly when its field is set |
| AssistantApply.Apply | src/reconciler/assistant_apply.rs:43-230 | an illegal spec, a namespace other than the pinned one or a missing namespace writes nothing; otherwise the writes are those of the plan up to the first failure |
| AssistantApply.EnsureSharedSecret | src/reconciler/assistant_certs.rs:74-105 | reads the stored key or creates the Secret |
| AssistantApply.Bootstrap | src/reconciler/assistant_certs.rs:138-181 | access objects applied, a finished Job removed, a fresh one created, a Job at work left alone |
| AssistantApply.ApplyTarget | src/reconciler/assistant_apply.rs:144-185 | the Secret is written only after both user keys could be read |
| AssistantApply.Finish | src/reconciler/assistant_apply.rs:187-222 | the reported status is ready exactly when both workloads are available, and pinned |
| AssistantApply.Cleanup | src/reconciler/assistant.rs:64-97 | a cleanup that succeeds has purged all eight kinds in the recorded namespace, or in the spec's before anything was recorded |
| AssistantOutcome.BootstrapOutcome | src/reconciler/assistant_certs.rs:109-182 | while a certificate Secret is missing: a fresh Job if there was none or the old one had completed or failed, the one at work untouched otherwise, with the least grant, the shared Secret, and a pinned status that is not ready; nothing else changes |
| AssistantOutcome.RefusedWritesNothing | src/reconciler/assistant_apply.rs:43-83 | nothing is written exactly if the spec is illegal, the namespace missing or not the pinned one, or the shared Secret has no key |
| StackOutcome.StackOutcome | src/reconciler/assistant_apply.rs:85-222 | with both certificate Secrets there: both workloads with image, volumes, stamp and addresses of each other, their Services, the claim, the target's Secret with each entry from its own source, the status; the error and what stays when a user's key cannot be read; nothing else changes |
| AssistantLife.PlanOps | src/reconciler/assistant_apply.rs:43-230 | every write of every reconcile is a labelled object of a purged kind under a generated name in the sandbox namespace, the labelled target Secret, or a status with the pin |
| AssistantLife.ApplyWrites | src/reconciler/assistant_apply.rs:43-230 | and so is whatever a call with failing writes has written |
| AssistantLife.PublishedUnderIdentity | src/bin/tlspub.rs:92-133 | what the bootstrap Job publishes carries the identity labels in the sandbox namespace |
| AssistantRuns.PinIsWriteOnce | src/reconciler/assistant_apply.rs:207-265 | through any applies, waiting rounds and spec edits, a recorded namespace is never dropped or changed |
| AssistantRuns.StaleSnapshotMovesPin | src/reconciler/assistant_apply.rs:50-55 | with a snapshot older than the last status write the pin moves |
| AssistantRuns.OmittedPinIsDropped | src/reconciler/assistant_apply.rs:232-240 | a status without the pin would drop it |
| AssistantRuns.CleanupExact | src/reconciler/assistant.rs:82-97 | on any store the purge removes exactly the labelled objects of the purged kinds in the home namespace |
| AssistantRuns.OtherMarksSurvive | src/reconciler/assistant.rs:77-78 | what carries another Assistant's labels when the purge comes survives it |
| AssistantRuns.CleanupComplete | src/reconciler/assistant.rs:64-97 | at the end of every careful run the purge leaves nothing of the Assistant but the target Secrets of the specs of that run, and those only if the stack lived elsewhere |
| AssistantRuns.FailedFirstApplyEscapes | src/reconciler/assistant.rs:72-76 | a failed first apply and a namespace edit leave the shared Secret behind |
| AssistantRuns.EditDuringFirstRoundEscapes | src/reconciler/assistant.rs:72-76 | so does an edit between the snapshot and the first write |
| AssistantRuns.LatePublicationSurvives | src/reconciler/assistant.rs:90-97 | a pod that publishes after the purge leaves a Secret |
| AssistantIsolation.CleanupIsolated | src/reconciler/assistant.rs:77-97 | over all interleavings of one Assistant's writes with those of any number of others, its cleanup removes nothing another one's write made, if and only if in the purged namespace no two stacks share their names and no two specs a target Secret |
| AssistantIsolation.SharedStackIsRemoved | src/builders/sandbox_names.rs:21 | two validated Assistants with one prefix: the cleanup of one removes what the other's reconcile wrote |
| AssistantIsolation.SharedTargetIsRemoved | src/builders/sandbox_names.rs:29 | two Assistants of one namespace with one target, different in every generated name: the same for the target Secret |
| Rounds.NextRead | src/reconciler/assistant_apply.rs:144-185 | what a user's key reference reads after a round: what it read before, or the entry the operator has just written, or nothing if its entry was dropped; an unreadable one stays so |
| Rounds.OldTargetStays | src/builders/sandbox_names.rs:29 | pointing the Assistant elsewhere leaves the old target's Secret as it is |
| Fixpoint.OneRoundSuffices | src/reconciler/cluster_main.rs:76-111 | from every store one Assistant apply past the certificates and one pass of its target leave nothing to do for either, if and only if no key reference reads an entry of the target Secret that the operator writes, other than its own or the one both references share, and a Single's name is no sandbox workload's |
| Fixpoint.ThreeRoundsSuffice | src/reconciler/assistant_validate.rs:18-81 | from every store any three or more rounds do, if and only if the two references do not point at each other's entry, and the same about names |
| Fixpoint.SwapNeverSettles | src/reconciler/assistant_apply.rs:144-185 | references that swap: as soon as the two keys differ, no number of rounds comes to rest |
| Fixpoint.QuietStays | src/reconciler/assistant_apply.rs:85-185 | once there is nothing left to do, any further writes of both controllers, in any order, complete or not, change nothing |
| Fixpoint.ClashNeverQuiet | src/labels.rs:5-25 | a Single with a sandbox workload's name in the sandbox namespace: there is no store in which both controllers are done |
| Stamps.ClusterStamp | src/builders/cluster_deployment.rs:68-76 | after a round the main pods carry the live Secret's resource version, exactly unless the user's annotation says otherwise |
| Stamps.SingleStamp | src/reconciler/single_children.rs:40-51 | the same for the pods of a Single |

## Left out

- HTTP server, telemetry, metrics, tracing and CRD generation: plumbing without state that the reconcilers read.
- Texts of events and errors, requeue delays, the finalizer handshake and the watch machinery.
- Bodies that one function settles: probes, ports, mounts, resources, scheduling fields, image pull secrets, container
  commands of the sandbox, and the parts of PVC, HPA and route bodies that no branch depends on.
- Randomness, hex coding, base64 and UTF-8 decoding: a drawn key is a parameter, Secret data is text.
- `env_str` renders inline values through JSON and strips the quotes again; values are taken as they are, so a value with
  quotes or backslashes is not modelled exactly.
- `stringData`: the bootstrap Job applies its Secrets through it, so the API server does not let it own the data keys;
  here it owns them. No property depends on pruning of those two Secrets.
- The label selector is a map here; its `key=value,key=value` text and the API server's parsing of it are not modelled.
- Two pods of one Job at the same time, which the Job controller does not rule out entirely.
- Deletion of a running Job by a person, and of its pod by anything but its own failure.
- Collection deletes are one step for each kind; a purge that fails half-way through a kind is not modelled.
- Names are sequences of characters; for the ASCII names Kubernetes accepts, characters are bytes.
- Volumes and mounts are lists of texts pushed in the source's order; only their contents are modelled, not the JSON
  edited in place by the Deployment builders.
- The owner-reference garbage collection that removes the target Secret when the Assistant goes.
- AssistantRuns.CleanupComplete: for runs in which the namespace is edited only once it is pinned or before a reconcile
  has begun; the escapes of other runs are shown by example.
- Certs.UnfinishedJobStays: the runs of that machine leave out the cleanup, whose purge deletes a Job at work, too.
- Reconciler.ResolveEncryptionSecret: nobody else creates the Secret between the lookup and the create, so the tolerated
  conflict answer does not occur; that race is modelled for the sandbox Secret only (`CreateOnce`).
- AssistantApply.EnsureSharedSecret: nobody else writes during the pass, so no race is lost; the same calls amid other
  writers are `CreateOnce.Board.EnsureSandboxSecrets`.
- AssistantApply.Bootstrap: for the same reason it looks for the Job once where the program looks twice; the same calls
  amid other writers are `EnsureCerts.EnsureCerts`.
- Immutable fields: an apply that changes a Deployment's selector is carried out here, and refused by the API server.

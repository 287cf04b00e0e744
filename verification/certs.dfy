/**
 The certificate bootstrap as a state machine. The operator's `ensure_certs`, the bootstrap Job with its attempts,
 the user and the API server's clean-up each take one API call, or one observable step, at a time, in any order.
 A CA is an abstract generation number; every attempt mints a fresh one.
 */
module Certs {
  import opened Wrappers

  const BACKOFF_LIMIT: nat := 4

  datatype Phase = Running | Complete | Failed
  datatype Job = Job(failures: nat, phase: Phase)

  /** How far an attempt has got; `Exited` once its process is over. */
  datatype Stage = Minted | ApiDone | RunnerDone | Exited(ok: bool)
  datatype Pod = Pod(ca: nat, stage: Stage)

  /** The operator's position in `ensure_certs`; `SawApi` remembers what the first read returned. */
  datatype Caller = Idle | SawApi(present: bool) | Rbac(left: nat) | AtJob | Deleting | Probing | Creating

  datatype State = State(api: Option<nat>, runner: Option<nat>, job: Option<Job>, pod: Option<Pod>, nextCa: nat,
                         caller: Caller)

  datatype Event =
    // the operator
    | GetApi | GetRunner | ApplyRbac | GetJob | DeleteJob | ProbeJob | CreateJob | CallFails
    // the attempts
    | PodStart | PublishApi(ca: nat) | PublishRunner(ca: nat) | PodSucceed | PodDie
    // the Job controller, the TTL controller, the user
    | JobObserves | JobExpires | DeleteApi | DeleteRunner

  const INIT := State(None, None, None, None, 0, Idle)

  predicate Finished(j: Job) {
    j.phase == Complete || j.phase == Failed
  }

  /** No Job, or one that will make no further progress. */
  predicate Terminal(s: State) {
    s.job.None? || Finished(s.job.value)
  }

  predicate BothPresent(s: State) {
    s.api.Some? && s.runner.Some?
  }

  predicate Alive(s: State) {
    s.pod.Some? && !s.pod.value.stage.Exited?
  }

  predicate Enabled(s: State, e: Event) {
    match e
    case GetApi => s.caller.Idle?
    case GetRunner => s.caller.SawApi?
    case ApplyRbac => s.caller.Rbac? && s.caller.left > 0
    case GetJob => s.caller.AtJob?
    case DeleteJob => s.caller.Deleting?
    case ProbeJob => s.caller.Probing?
    case CreateJob => s.caller.Creating?
    case CallFails => !s.caller.Idle?
    case PodStart => s.job.Some? && s.job.value.phase == Running && s.pod.None?
    case PublishApi(ca) => s.pod == Some(Pod(ca, Minted))
    case PublishRunner(ca) => s.pod == Some(Pod(ca, ApiDone))
    case PodSucceed => s.pod.Some? && s.pod.value.stage == RunnerDone
    case PodDie => Alive(s)
    case JobObserves => s.job.Some? && s.job.value.phase == Running && s.pod.Some? && s.pod.value.stage.Exited?
    case JobExpires => s.job.Some? && Finished(s.job.value)
    case DeleteApi => s.api.Some?
    case DeleteRunner => s.runner.Some?
  }

  /** A failed attempt counts against the limit; the Job fails for good when the limit is exceeded. */
  function Observed(j: Job, ok: bool): Job {
    if ok then j.(phase := Complete)
    else Job(j.failures + 1, if j.failures + 1 > BACKOFF_LIMIT then Failed else Running)
  }

  function Next(s: State, e: Event): State
    requires Enabled(s, e)
  {
    match e
    case GetApi => s.(caller := SawApi(s.api.Some?))
    case GetRunner => s.(caller := if s.caller.present && s.runner.Some? then Idle else Rbac(3))
    case ApplyRbac => s.(caller := if s.caller.left == 1 then AtJob else Rbac(s.caller.left - 1))
    case GetJob => s.(caller := if s.job.Some? && Finished(s.job.value) then Deleting else Probing)
    case DeleteJob => s.(job := None, caller := if s.job.Some? then Probing else Idle)
    case ProbeJob => s.(caller := if s.job.Some? then Idle else Creating)
    case CreateJob => s.(job := if s.job.Some? then s.job else Some(Job(0, Running)), caller := Idle)
    case CallFails => s.(caller := Idle)
    case PodStart => s.(pod := Some(Pod(s.nextCa, Minted)), nextCa := s.nextCa + 1)
    case PublishApi(ca) => s.(api := Some(ca), pod := Some(Pod(ca, ApiDone)))
    case PublishRunner(ca) => s.(runner := Some(ca), pod := Some(Pod(ca, RunnerDone)))
    case PodSucceed => s.(pod := Some(Pod(s.pod.value.ca, Exited(true))))
    case PodDie => s.(pod := Some(Pod(s.pod.value.ca, Exited(false))))
    case JobObserves => s.(job := Some(Observed(s.job.value, s.pod.value.stage.ok)), pod := None)
    case JobExpires => s.(job := None)
    case DeleteApi => s.(api := None)
    case DeleteRunner => s.(runner := None)
  }

  /** The state after a run, if every event of it was possible when it happened. */
  function Exec(s: State, es: seq<Event>): Option<State>
    decreases |es|
  {
    if es == [] then Some(s)
    else match Exec(s, es[..|es| - 1])
      case None => None
      case Some(t) => if Enabled(t, es[|es| - 1]) then Some(Next(t, es[|es| - 1])) else None
  }

  predicate Runs(s: State, es: seq<Event>) {
    Exec(s, es).Some?
  }

  lemma {:induction false} ExecConcat(s: State, a: seq<Event>, b: seq<Event>)
    ensures Exec(s, a + b) == match Exec(s, a) case None => None case Some(t) => Exec(t, b)
    decreases |b|
  {
    if b == [] {
      assert a + b == a;
    } else {
      assert (a + b)[..|a + b| - 1] == a + b[..|b| - 1];
      ExecConcat(s, a, b[..|b| - 1]);
    }
  }

  // ----- Publications -----

  predicate Publishes(e: Event) {
    e.PublishApi? || e.PublishRunner?
  }

  /** The last publication of a run, if any. */
  function LastPublication(es: seq<Event>): Option<Event>
    decreases |es|
  {
    if es == [] then None
    else if Publishes(es[|es| - 1]) then Some(es[|es| - 1])
    else LastPublication(es[..|es| - 1])
  }

  predicate HasCa(secret: Option<nat>, ca: nat) {
    secret.Some? ==> secret.value == ca
  }

  /** What every run keeps: the Secrets and the live attempt agree with the last publication. */
  predicate Inv(s: State, last: Option<Event>) {
    && (s.pod.Some? ==> s.job.Some? && s.job.value.phase == Running && s.pod.value.ca < s.nextCa)
    && (s.job.Some? && s.job.value.phase == Running ==> s.job.value.failures <= BACKOFF_LIMIT)
    && (s.caller.Deleting? ==> Terminal(s))
    && (s.caller.Rbac? ==> s.caller.left <= 3)
    && match last
       case None => s.api.None? && s.runner.None?
                    && (s.pod.Some? ==> s.pod.value.stage != ApiDone && s.pod.value.stage != RunnerDone)
       case Some(PublishApi(ca)) =>
         && ca < s.nextCa && HasCa(s.api, ca) && (s.runner.Some? ==> s.runner.value < ca)
         && (s.pod.Some? ==> (s.pod.value.stage == ApiDone ==> s.pod.value.ca == ca) && s.pod.value.stage != RunnerDone
                             && (s.pod.value.stage == Minted ==> ca < s.pod.value.ca))
       case Some(PublishRunner(ca)) =>
         && ca < s.nextCa && HasCa(s.api, ca) && HasCa(s.runner, ca)
         && (s.pod.Some? ==> s.pod.value.stage != ApiDone && (s.pod.value.stage == RunnerDone ==> s.pod.value.ca == ca)
                             && (s.pod.value.stage == Minted ==> ca < s.pod.value.ca))
       case _ => false
  }

  lemma StepKeepsInv(s: State, last: Option<Event>, e: Event)
    requires Inv(s, last) && Enabled(s, e)
    ensures Inv(Next(s, e), if Publishes(e) then Some(e) else last)
  {}

  lemma {:induction false} RunKeepsInv(es: seq<Event>)
    requires Runs(INIT, es)
    ensures Inv(Exec(INIT, es).value, LastPublication(es))
    decreases |es|
  {
    hide Inv, Next, Enabled;
    if es == [] {
      InitInv();
    } else {
      var before := es[..|es| - 1];
      RunKeepsInv(before);
      StepKeepsInv(Exec(INIT, before).value, LastPublication(before), es[|es| - 1]);
    }
  }

  lemma InitInv()
    ensures Inv(INIT, None)
  {}

  /** In every reachable state with both Secrets, they differ exactly while the last publication is an api one. */
  lemma DifferIffApiLast(es: seq<Event>)
    requires Runs(INIT, es) && BothPresent(Exec(INIT, es).value)
    ensures var s := Exec(INIT, es).value;
            s.api != s.runner <==> LastPublication(es).Some? && LastPublication(es).value.PublishApi?
  {
    RunKeepsInv(es);
  }

  // ----- What each Secret holds -----

  /** The position of the last publication of the api (or runner) Secret. */
  function LastApi(es: seq<Event>): (i: Option<nat>)
    ensures i.Some? ==> i.value < |es| && es[i.value].PublishApi?
    decreases |es|
  {
    if es == [] then None
    else if es[|es| - 1].PublishApi? then Some(|es| - 1)
    else LastApi(es[..|es| - 1])
  }

  function LastRunner(es: seq<Event>): (i: Option<nat>)
    ensures i.Some? ==> i.value < |es| && es[i.value].PublishRunner?
    decreases |es|
  {
    if es == [] then None
    else if es[|es| - 1].PublishRunner? then Some(|es| - 1)
    else LastRunner(es[..|es| - 1])
  }

  predicate NoneSince(es: seq<Event>, i: nat, e: Event) {
    forall m | i < m < |es| :: es[m] != e
  }

  function ApiContent(es: seq<Event>): Option<nat> {
    match LastApi(es)
    case Some(i) => if NoneSince(es, i, DeleteApi) then Some(es[i].ca) else None
    case None => None
  }

  function RunnerContent(es: seq<Event>): Option<nat> {
    match LastRunner(es)
    case Some(i) => if NoneSince(es, i, DeleteRunner) then Some(es[i].ca) else None
    case None => None
  }

  /** Each Secret holds what was published last, unless it has been deleted since. */
  lemma {:induction false} ContentOfRun(es: seq<Event>)
    requires Runs(INIT, es)
    ensures Exec(INIT, es).value.api == ApiContent(es)
    ensures Exec(INIT, es).value.runner == RunnerContent(es)
    decreases |es|
  {
    hide Next, Enabled;
    if es != [] {
      var before, last := es[..|es| - 1], es[|es| - 1];
      ContentOfRun(before);
      if LastApi(before).Some? { NoneSinceSnoc(before, last, LastApi(before).value, DeleteApi); }
      if LastRunner(before).Some? { NoneSinceSnoc(before, last, LastRunner(before).value, DeleteRunner); }
      assert es == before + [last];
      ContentStep(Exec(INIT, before).value, last);
    }
  }

  lemma NoneSinceSnoc(es: seq<Event>, last: Event, i: nat, e: Event)
    requires i < |es|
    ensures NoneSince(es + [last], i, e) <==> NoneSince(es, i, e) && last != e
  {
    assert (es + [last])[|es|] == last;
    assert forall m | i < m < |es| :: (es + [last])[m] == es[m];
  }

  lemma ContentStep(s: State, e: Event)
    requires Enabled(s, e)
    ensures Next(s, e).api == if e.PublishApi? then Some(e.ca) else if e.DeleteApi? then None else s.api
    ensures Next(s, e).runner == if e.PublishRunner? then Some(e.ca) else if e.DeleteRunner? then None else s.runner
  {}

  // ----- Agreement -----

  /** The last two publications are the two halves of one attempt. */
  predicate PairedLast(es: seq<Event>) {
    && LastApi(es).Some? && LastRunner(es).Some? && LastApi(es).value < LastRunner(es).value
    && es[LastApi(es).value].ca == es[LastRunner(es).value].ca
  }

  lemma {:induction false} RunnerLastIsPaired(es: seq<Event>)
    requires Runs(INIT, es) && LastPublication(es).Some?
    ensures LastPublication(es).value.PublishRunner? ==>
            PairedLast(es) && LastPublication(es).value == es[LastRunner(es).value]
    ensures LastPublication(es).value.PublishApi? ==>
            LastApi(es).Some? && LastPublication(es).value == es[LastApi(es).value]
    decreases |es|
  {
    var before, last := es[..|es| - 1], es[|es| - 1];
    if last.PublishRunner? {
      RunKeepsInv(before);
      assert LastPublication(before) == Some(PublishApi(last.ca)) by {
        ApiDoneMeansApiLast(Exec(INIT, before).value, LastPublication(before), last.ca);
      }
      RunnerLastIsPaired(before);
    } else if !last.PublishApi? {
      RunnerLastIsPaired(before);
    }
  }

  lemma ApiDoneMeansApiLast(s: State, last: Option<Event>, ca: nat)
    requires Inv(s, last) && s.pod == Some(Pod(ca, ApiDone))
    ensures last == Some(PublishApi(ca))
  {}

  /** After a success, no runner publication follows unless a new attempt publishes its api Secret first. */
  lemma {:induction false} NothingAfterSuccess(es: seq<Event>, k: nat)
    requires Runs(INIT, es) && k < |es| && es[k] == PodSucceed
    requires forall m | k < m < |es| :: !es[m].PublishApi?
    ensures LastPublication(es).Some? && LastPublication(es).value.PublishRunner?
    ensures var s := Exec(INIT, es).value; s.pod.Some? ==>
            s.pod.value.stage != ApiDone && s.pod.value.stage != RunnerDone
    decreases |es|
  {
    hide Inv;
    var before := es[..|es| - 1];
    RunKeepsInv(before);
    if k < |es| - 1 {
      NothingAfterSuccess(before, k);
    } else {
      RunnerDoneMeansRunnerLast(Exec(INIT, before).value, LastPublication(before));
    }
  }

  lemma RunnerDoneMeansRunnerLast(s: State, last: Option<Event>)
    requires Inv(s, last) && s.pod.Some? && s.pod.value.stage == RunnerDone
    ensures last.Some? && last.value.PublishRunner?
  {}

  /**
   CA agreement. Over every interleaving: once an attempt has succeeded and no later one has begun to publish, the
   two Secrets stem from one attempt, and each is there exactly if it has not been deleted since its publication.
   */
  lemma CaAgreement(es: seq<Event>, k: nat)
    requires Runs(INIT, es) && k < |es| && es[k] == PodSucceed
    requires forall m | k < m < |es| :: !es[m].PublishApi?
    ensures PairedLast(es)
    ensures var s, i, j := Exec(INIT, es).value, LastApi(es).value, LastRunner(es).value;
            && s.api == (if NoneSince(es, i, DeleteApi) then Some(es[i].ca) else None)
            && s.runner == (if NoneSince(es, j, DeleteRunner) then Some(es[i].ca) else None)
  {
    NothingAfterSuccess(es, k);
    RunnerLastIsPaired(es);
    ContentOfRun(es);
  }

  /** The two Secrets exist with one CA exactly when the last publication is a runner one and no deletion followed. */
  lemma AgreementIff(es: seq<Event>)
    requires Runs(INIT, es)
    ensures var s := Exec(INIT, es).value;
            BothPresent(s) && s.api == s.runner
            <==> && LastPublication(es).Some? && LastPublication(es).value.PublishRunner? && PairedLast(es)
                 && NoneSince(es, LastApi(es).value, DeleteApi) && NoneSince(es, LastRunner(es).value, DeleteRunner)
  {
    ContentOfRun(es);
    RunKeepsInv(es);
    if LastPublication(es).Some? {
      RunnerLastIsPaired(es);
    }
    if BothPresent(Exec(INIT, es).value) {
      DifferIffApiLast(es);
    }
  }

  // ----- No second minting -----

  predicate Deletes(e: Event) {
    e.DeleteApi? || e.DeleteRunner?
  }

  /**
   Both Secrets are there, nothing is under way, and the operator is between calls or has just seen the api Secret.
   */
  predicate Settled(s: State) {
    BothPresent(s) && Terminal(s) && s.pod.None? && (s.caller.Idle? || s.caller == SawApi(true))
  }

  /**
   Once both Secrets are there with the Job finished or gone, no continuation without a Secret deletion creates a
   Job, starts an attempt or changes a CA.
   */
  lemma {:induction false} NoRemint(s: State, es: seq<Event>)
    requires Settled(s) && Runs(s, es) && forall e | e in es :: !Deletes(e)
    ensures Settled(Exec(s, es).value)
    ensures Exec(s, es).value.api == s.api && Exec(s, es).value.runner == s.runner
    ensures forall e | e in es :: !e.CreateJob? && !e.PodStart? && !Publishes(e)
    decreases |es|
  {
    if es != [] {
      var before, last := es[..|es| - 1], es[|es| - 1];
      assert last in es && forall e | e in before :: e in es;
      NoRemint(s, before);
      assert forall e | e in es :: e in before || e == last;
    }
  }

  /** A Job that may still make progress is never deleted: whatever a run deletes or expires is finished or gone. */
  lemma UnfinishedJobStays(es: seq<Event>, e: Event)
    requires Runs(INIT, es + [e]) && !Terminal(Exec(INIT, es).value)
    ensures var s, t := Exec(INIT, es).value, Exec(INIT, es + [e]).value;
            t.job.Some? && (e.JobObserves? || t.job == s.job)
  {
    hide Inv;
    assert (es + [e])[..|es|] == es;
    RunKeepsInv(es);
    if e.DeleteJob? {
      DeletingMeansTerminal(Exec(INIT, es).value, LastPublication(es));
    }
  }

  lemma DeletingMeansTerminal(s: State, last: Option<Event>)
    requires Inv(s, last) && s.caller.Deleting?
    ensures Terminal(s)
  {}

  // ----- Progress -----

  predicate OfCaller(e: Event) {
    e.GetApi? || e.GetRunner? || e.ApplyRbac? || e.GetJob? || e.DeleteJob? || e.ProbeJob? || e.CreateJob?
        || e.CallFails?
  }

  /** A call that began with the Job finished or gone has not met a live Job. */
  predicate Fruitful(s: State) {
    Terminal(s) && s.pod.None? && (s.caller.Probing? || s.caller.Creating? ==> s.job.None?)
  }

  lemma {:induction false} FruitfulUntilCreated(s: State, es: seq<Event>)
    requires s.caller.Idle? && Terminal(s) && s.pod.None? && Runs(s, es) && CreateJob !in es
    ensures Fruitful(Exec(s, es).value)
    decreases |es|
  {
    if es != [] {
      FruitfulUntilCreated(s, es[..|es| - 1]);
      assert es[|es| - 1] in es && forall e | e in es[..|es| - 1] :: e in es;
    }
  }

  /**
   Progress: a call begun with the Job finished or gone ends, unless an API call fails, either on seeing both
   Secrets or by creating a Job; and then the Job is fresh and unfinished. Deleting a Job that has expired in the
   meantime counts as a failure. This holds whatever expires or is deleted meanwhile.
   */
  lemma CallCreatesJob(s: State, es: seq<Event>, e: Event)
    requires s.caller.Idle? && Terminal(s) && s.pod.None? && Runs(s, es + [e]) && CreateJob !in es
    requires OfCaller(e) && !e.CallFails? && Exec(s, es + [e]).value.caller.Idle?
    ensures e.GetRunner? || e.CreateJob? || (e.DeleteJob? && Exec(s, es).value.job.None?)
    ensures e.GetRunner? ==> Exec(s, es).value.caller == SawApi(true) && Exec(s, es).value.runner.Some?
    ensures e.CreateJob? ==> Exec(s, es + [e]).value.job == Some(Job(0, Running))
  {
    assert (es + [e])[..|es|] == es;
    assert Runs(s, es);
    FruitfulUntilCreated(s, es);
  }

  /** What is left of a Job: attempts before it fails for good, then the steps of the current attempt. */
  function Measure(s: State): nat {
    match s.job
    case None => 0
    case Some(j) =>
      if Finished(j) then 1
      else 2 + 6 * (if j.failures > BACKOFF_LIMIT then 0 else BACKOFF_LIMIT - j.failures)
           + (match s.pod
              case None => 5
              case Some(p) => match p.stage
                case Minted => 4
                case ApiDone => 3
                case RunnerDone => 2
                case Exited(_) => 1)
  }

  predicate OfJob(e: Event) {
    e.PodStart? || Publishes(e) || e.PodSucceed? || e.PodDie? || e.JobObserves? || e.JobExpires?
  }

  /** Every step of the Job uses the measure up, and only a Job creation fills it again. */
  lemma StepMeasure(s: State, last: Option<Event>, e: Event)
    requires Inv(s, last) && Enabled(s, e)
    ensures OfJob(e) ==> Measure(Next(s, e)) < Measure(s)
    ensures !OfJob(e) && !e.CreateJob? ==> Measure(Next(s, e)) <= Measure(s)
  {}

  function JobSteps(es: seq<Event>): nat
    decreases |es|
  {
    if es == [] then 0 else JobSteps(es[..|es| - 1]) + if OfJob(es[|es| - 1]) then 1 else 0
  }

  /** Between two Job creations there are at most as many Job steps as the measure says; a fresh Job has 31. */
  lemma {:induction false} AttemptsBounded(past: seq<Event>, es: seq<Event>)
    requires Runs(INIT, past + es) && CreateJob !in es
    ensures Runs(INIT, past)
            && Measure(Exec(INIT, past + es).value) + JobSteps(es) <= Measure(Exec(INIT, past).value) <= 31
    decreases |es|
  {
    hide Enabled, Next, Inv, Measure;
    if es == [] {
      assert past + es == past;
      MeasureBound(Exec(INIT, past).value);
    } else {
      var before, last := es[..|es| - 1], es[|es| - 1];
      assert (past + es)[..|past + es| - 1] == past + before && last in es;
      assert forall e | e in before :: e in es;
      AttemptsBounded(past, before);
      RunKeepsInv(past + before);
      StepMeasure(Exec(INIT, past + before).value, LastPublication(past + before), last);
    }
  }

  lemma MeasureBound(s: State)
    ensures Measure(s) <= 31 && (s.job == Some(Job(0, Running)) && s.pod.None? ==> Measure(s) == 31)
  {}
}

/** Undisturbed runs of the bootstrap, and the runs that show what the protocol does not rule out. */
module CertsRuns {
  import opened Wrappers
  import opened Certs

  predicate Moves(s: State, e: Event, t: State) {
    Enabled(s, e) && Next(s, e) == t
  }

  lemma Play(s: State, es: seq<Event>, t: State, e: Event, u: State)
    requires Exec(s, es) == Some(t) && Moves(t, e, u)
    ensures Exec(s, es + [e]) == Some(u)
  {
    assert (es + [e])[..|es|] == es;
  }

  lemma Join(s: State, a: seq<Event>, t: State, b: seq<Event>, u: State)
    requires Exec(s, a) == Some(t) && Exec(t, b) == Some(u)
    ensures Exec(s, a + b) == Some(u)
  {
    ExecConcat(s, a, b);
  }

  lemma Start(s: State)
    ensures Exec(s, []) == Some(s)
  {}

  // ----- Undisturbed moves -----

  /** What a call still does between its first read and the creation, when the Job is finished or gone. */
  function UpToCreate(s: State): seq<Event> {
    [GetRunner] + [ApplyRbac] + [ApplyRbac] + [ApplyRbac] + [GetJob]
    + (if s.job.Some? then [DeleteJob] else []) + [ProbeJob]
  }

  function RestOfCall(s: State): seq<Event> {
    UpToCreate(s) + [CreateJob]
  }

  function Call(s: State): seq<Event> {
    [GetApi] + RestOfCall(s)
  }

  lemma MovesOfCall(s: State)
    requires s.caller.SawApi? && !(s.caller.present && s.runner.Some?) && Terminal(s)
    ensures Moves(s, GetRunner, s.(caller := Rbac(3)))
    ensures Moves(s.(caller := Rbac(3)), ApplyRbac, s.(caller := Rbac(2)))
    ensures Moves(s.(caller := Rbac(2)), ApplyRbac, s.(caller := Rbac(1)))
    ensures Moves(s.(caller := Rbac(1)), ApplyRbac, s.(caller := AtJob))
    ensures Moves(s.(caller := AtJob), GetJob, s.(caller := if s.job.Some? then Deleting else Probing))
    ensures s.job.Some? ==> Moves(s.(caller := Deleting), DeleteJob, s.(job := None, caller := Probing))
    ensures Moves(s.(job := None, caller := Probing), ProbeJob, s.(job := None, caller := Creating))
    ensures Moves(s.(job := None, caller := Creating), CreateJob, s.(job := Some(Job(0, Running)), caller := Idle))
  {}

  lemma UndisturbedRest(s: State)
    requires s.caller.SawApi? && !(s.caller.present && s.runner.Some?) && Terminal(s)
    ensures Exec(s, UpToCreate(s)) == Some(s.(job := None, caller := Creating))
    ensures Exec(s, RestOfCall(s)) == Some(s.(job := Some(Job(0, Running)), caller := Idle))
  {
    hide Moves, Exec;
    MovesOfCall(s);
    Start(s);
    var es, t := [], s;
    Play(s, es, t, GetRunner, s.(caller := Rbac(3)));
    es, t := es + [GetRunner], s.(caller := Rbac(3));
    Play(s, es, t, ApplyRbac, s.(caller := Rbac(2)));
    es, t := es + [ApplyRbac], s.(caller := Rbac(2));
    Play(s, es, t, ApplyRbac, s.(caller := Rbac(1)));
    es, t := es + [ApplyRbac], s.(caller := Rbac(1));
    Play(s, es, t, ApplyRbac, s.(caller := AtJob));
    es, t := es + [ApplyRbac], s.(caller := AtJob);
    Play(s, es, t, GetJob, s.(caller := if s.job.Some? then Deleting else Probing));
    es, t := es + [GetJob], s.(caller := if s.job.Some? then Deleting else Probing);
    if s.job.Some? {
      Play(s, es, t, DeleteJob, s.(job := None, caller := Probing));
      es, t := es + [DeleteJob], s.(job := None, caller := Probing);
    }
    Play(s, es, t, ProbeJob, s.(job := None, caller := Creating));
    assert UpToCreate(s) == es + [ProbeJob];
    Play(s, es + [ProbeJob], s.(job := None, caller := Creating), CreateJob,
         s.(job := Some(Job(0, Running)), caller := Idle));
  }

  /**
   An undisturbed call with a Secret missing and the Job finished or gone leaves a fresh Job and changes nothing
   else.
   */
  lemma UndisturbedCall(s: State)
    requires s.caller.Idle? && !BothPresent(s) && Terminal(s)
    ensures Exec(s, Call(s)) == Some(s.(job := Some(Job(0, Running))))
  {
    var t := s.(caller := SawApi(s.api.Some?));
    Start(s);
    Play(s, [], s, GetApi, t);
    UndisturbedRest(t);
    assert [] + [GetApi] == [GetApi];
    Join(s, [GetApi], t, RestOfCall(t), s.(job := Some(Job(0, Running))));
  }

  predicate Startable(s: State) {
    s.job.Some? && s.job.value.phase == Running && s.pod.None?
  }

  /** The first half of an attempt: it has minted its CA and published the api Secret. */
  lemma HalfAttempt(s: State)
    requires Startable(s)
    ensures Exec(s, [PodStart] + [PublishApi(s.nextCa)])
         == Some(s.(api := Some(s.nextCa), pod := Some(Pod(s.nextCa, ApiDone)), nextCa := s.nextCa + 1))
  {
    hide Exec;
    var t := s.(pod := Some(Pod(s.nextCa, Minted)), nextCa := s.nextCa + 1);
    Start(s);
    Play(s, [], s, PodStart, t);
    assert [] + [PodStart] == [PodStart];
    Play(s, [PodStart], t, PublishApi(s.nextCa), s.(api := Some(s.nextCa), pod := Some(Pod(s.nextCa, ApiDone)),
                                                    nextCa := s.nextCa + 1));
  }

  function Attempt(ca: nat): seq<Event> {
    [PodStart] + [PublishApi(ca)] + [PublishRunner(ca)] + [PodSucceed] + [JobObserves]
  }

  /** An undisturbed attempt completes the Job and leaves both Secrets with its CA. */
  lemma UndisturbedAttempt(s: State)
    requires Startable(s)
    ensures Exec(s, Attempt(s.nextCa))
         == Some(s.(api := Some(s.nextCa), runner := Some(s.nextCa), job := Some(s.job.value.(phase := Complete)),
                    nextCa := s.nextCa + 1))
  {
    hide Exec;
    var ca := s.nextCa;
    var t := s.(api := Some(ca), pod := Some(Pod(ca, ApiDone)), nextCa := ca + 1);
    var u := t.(runner := Some(ca), pod := Some(Pod(ca, RunnerDone)));
    var v := u.(pod := Some(Pod(ca, Exited(true))));
    HalfAttempt(s);
    var es := [PodStart] + [PublishApi(ca)];
    Play(s, es, t, PublishRunner(ca), u);
    Play(s, es + [PublishRunner(ca)], u, PodSucceed, v);
    Play(s, es + [PublishRunner(ca)] + [PodSucceed], v, JobObserves,
         v.(job := Some(s.job.value.(phase := Complete)), pod := None));
  }

  function BrokenAttempt(ca: nat): seq<Event> {
    [PodStart] + [PublishApi(ca)] + [PodDie] + [JobObserves]
  }

  /** An attempt that dies between its two publications. */
  lemma AttemptBreaks(s: State)
    requires Startable(s)
    ensures Exec(s, BrokenAttempt(s.nextCa))
         == Some(s.(api := Some(s.nextCa), job := Some(Observed(s.job.value, false)), nextCa := s.nextCa + 1))
  {
    hide Exec;
    var ca := s.nextCa;
    var t := s.(api := Some(ca), pod := Some(Pod(ca, ApiDone)), nextCa := ca + 1);
    var u := t.(pod := Some(Pod(ca, Exited(false))));
    HalfAttempt(s);
    var es := [PodStart] + [PublishApi(ca)];
    Play(s, es, t, PodDie, u);
    Play(s, es + [PodDie], u, JobObserves, u.(job := Some(Observed(s.job.value, false)), pod := None));
  }

  /** Progress: an undisturbed call and attempt with a Secret missing end with both Secrets under one new CA. */
  lemma CallAndAttempt(s: State)
    requires s.caller.Idle? && !BothPresent(s) && Terminal(s) && s.pod.None?
    ensures Exec(s, Call(s) + Attempt(s.nextCa))
         == Some(s.(api := Some(s.nextCa), runner := Some(s.nextCa), job := Some(Job(0, Complete)),
                    nextCa := s.nextCa + 1))
  {
    var t := s.(job := Some(Job(0, Running)));
    UndisturbedCall(s);
    UndisturbedAttempt(t);
    Join(s, Call(s), t, Attempt(s.nextCa),
         s.(api := Some(s.nextCa), runner := Some(s.nextCa), job := Some(Job(0, Complete)), nextCa := s.nextCa + 1));
  }

  // ----- What the protocol does not rule out -----

  const ROTATED := State(None, Some(0), Some(Job(0, Running)), None, 1, Idle)

  /** A first bootstrap, then the api Secret alone is deleted and a second Job created. */
  lemma Rotation() returns (es: seq<Event>)
    ensures Exec(INIT, es) == Some(ROTATED)
  {
    var done := INIT.(api := Some(0), runner := Some(0), job := Some(Job(0, Complete)), nextCa := 1);
    CallAndAttempt(INIT);
    es := Call(INIT) + Attempt(0);
    Play(INIT, es, done, DeleteApi, done.(api := None));
    es := es + [DeleteApi];
    UndisturbedCall(done.(api := None));
    Join(INIT, es, done.(api := None), Call(done.(api := None)), ROTATED);
    es := es + Call(done.(api := None));
  }

  /** A call can see both Secrets, and so report the certificates ready, while they carry different CAs. */
  lemma MismatchSeenAsReady()
    ensures exists es :: && Runs(INIT, es + [GetApi] + [GetRunner])
                         && var s := Exec(INIT, es + [GetApi] + [GetRunner]).value;
                            s.caller.Idle? && BothPresent(s) && s.api != s.runner
  {
    var es := Rotation();
    var half := ROTATED.(api := Some(1), pod := Some(Pod(1, ApiDone)), nextCa := 2);
    HalfAttempt(ROTATED);
    Join(INIT, es, ROTATED, [PodStart] + [PublishApi(1)], half);
    es := es + ([PodStart] + [PublishApi(1)]);
    Play(INIT, es, half, GetApi, half.(caller := SawApi(true)));
    Play(INIT, es + [GetApi], half.(caller := SawApi(true)), GetRunner, half);
  }

  lemma {:induction false} BreaksForGood(s: State, n: nat) returns (es: seq<Event>)
    requires Startable(s) && s.job.value.failures + n == BACKOFF_LIMIT
    ensures Exec(s, es) == Some(s.(api := Some(s.nextCa + n), job := Some(Job(BACKOFF_LIMIT + 1, Failed)),
                                   nextCa := s.nextCa + n + 1))
    decreases n
  {
    AttemptBreaks(s);
    es := BrokenAttempt(s.nextCa);
    if n > 0 {
      var t := s.(api := Some(s.nextCa), job := Some(Observed(s.job.value, false)), nextCa := s.nextCa + 1);
      var rest := BreaksForGood(t, n - 1);
      Join(s, es, t, rest, s.(api := Some(s.nextCa + n), job := Some(Job(BACKOFF_LIMIT + 1, Failed)),
                              nextCa := s.nextCa + n + 1));
      es := es + rest;
    }
  }

  /**
   If the runner Secret alone survives and every attempt dies between its publications, the Job fails for good and
   the two Secrets keep different CAs, with every later call satisfied, until somebody deletes one of them.
   */
  lemma MismatchForGood()
    ensures exists es :: && Runs(INIT, es) && Settled(Exec(INIT, es).value)
                         && Exec(INIT, es).value.api != Exec(INIT, es).value.runner
                         && forall more | Runs(Exec(INIT, es).value, more) && (forall e | e in more :: !Deletes(e)) ::
                              Exec(Exec(INIT, es).value, more).value.api == Exec(INIT, es).value.api
                              && Exec(Exec(INIT, es).value, more).value.runner == Exec(INIT, es).value.runner
  {
    var es := Rotation();
    var rest := BreaksForGood(ROTATED, BACKOFF_LIMIT);
    var end := ROTATED.(api := Some(5), job := Some(Job(5, Failed)), nextCa := 6);
    Join(INIT, es, ROTATED, rest, end);
    es := es + rest;
    forall more | Runs(end, more) && (forall e | e in more :: !Deletes(e))
      ensures Exec(end, more).value.api == end.api && Exec(end, more).value.runner == end.runner
    {
      NoRemint(end, more);
    }
  }

  /** The reads of a call are not one step: a Job can be created when both Secrets are there and agree. */
  lemma JobCreatedOverFinishedPair()
    ensures exists es :: && Runs(INIT, es + [CreateJob])
                         && BothPresent(Exec(INIT, es).value) && Exec(INIT, es).value.api == Exec(INIT, es).value.runner
                         && Exec(INIT, es).value.job.None?
                             && Exec(INIT, es + [CreateJob]).value.job == Some(Job(0, Running))
  {
    hide Enabled, Next;
    var s := INIT.(job := Some(Job(0, Running)));
    UndisturbedCall(INIT);
    var es := Call(INIT);
    var t := s.(caller := SawApi(false));
    FirstRead(s, t);
    Play(INIT, es, s, GetApi, t);
    es := es + [GetApi];
    UndisturbedAttempt(t);
    var u := t.(api := Some(0), runner := Some(0), job := Some(Job(0, Complete)), nextCa := 1);
    Join(INIT, es, t, Attempt(0), u);
    es := es + Attempt(0);
    UndisturbedRest(u);
    var v := u.(job := None, caller := Creating);
    Join(INIT, es, u, UpToCreate(u), v);
    LastMove(v);
    Play(INIT, es + UpToCreate(u), v, CreateJob, v.(job := Some(Job(0, Running)), caller := Idle));
  }

  lemma FirstRead(s: State, t: State)
    requires s.caller.Idle? && t == s.(caller := SawApi(s.api.Some?))
    ensures Moves(s, GetApi, t)
  {}

  lemma LastMove(v: State)
    requires v.caller.Creating? && v.job.None?
    ensures Moves(v, CreateJob, v.(job := Some(Job(0, Running)), caller := Idle))
  {}
}

/**
 `ensure_certs` and the publishing half of `tlspub`, call by call in a world that everybody else changes
 between any two of their API calls. Their runs are runs of the state machine of `Certs`.
 */
module EnsureCerts {
  import opened Wrappers
  import opened Certs
  import opened CertsRuns

  /** The operator's own events of a run, in order. */
  function Own(es: seq<Event>): seq<Event>
    decreases |es|
  {
    if es == [] then []
    else Own(es[..|es| - 1]) + if OfCaller(es[|es| - 1]) then [es[|es| - 1]] else []
  }

  lemma OwnSnoc(es: seq<Event>, e: Event)
    ensures Own(es + [e]) == Own(es) + if OfCaller(e) then [e] else []
  {
    assert (es + [e])[..|es|] == es;
  }

  lemma {:induction false} OwnIn(es: seq<Event>, e: Event)
    requires OfCaller(e)
    ensures e in Own(es) <==> e in es
    decreases |es|
  {
    if es != [] {
      OwnIn(es[..|es| - 1], e);
      assert es == es[..|es| - 1] + [es[|es| - 1]];
    }
  }

  class World {
    var s: State
    /** Everything that has happened, and the part of it since the current call of the operator began. */
    ghost var trace: seq<Event>
    ghost var origin: State
    ghost var call: seq<Event>

    ghost predicate Valid() reads this {
      Exec(INIT, trace) == Some(s) && Exec(origin, call) == Some(s)
    }

    constructor ()
      ensures Valid() && trace == [] && s == INIT
    {
      s, trace, origin, call := INIT, [], INIT, [];
    }

    ghost method BeginCall()
      requires Valid()
      modifies `origin, `call
      ensures Valid() && origin == s && call == [] && Own(call) == []
    {
      origin, call := s, [];
    }

    /** One step, by whomever. */
    method Take(e: Event)
      requires Valid() && Enabled(s, e)
      modifies this
      ensures Valid() && trace == old(trace) + [e] && call == old(call) + [e] && origin == old(origin)
      ensures s == Next(old(s), e) && Own(call) == Own(old(call)) + if OfCaller(e) then [e] else []
    {
      hide OfCaller, Own, Enabled, Next;
      AsMove(s, e);
      Play(INIT, trace, s, e, Next(s, e));
      Play(origin, call, s, e, Next(s, e));
      OwnSnoc(call, e);
      s, trace, call := Next(s, e), trace + [e], call + [e];
    }

    /** Any steps of everybody but the operator: the Job, its attempts, expiry, the user. */
    method Interfere()
      requires Valid()
      modifies this
      ensures Valid() && old(trace) <= trace && origin == old(origin)
      ensures s.caller == old(s.caller) && old(call) <= call && Own(call) == Own(old(call))
    {
      hide OfCaller, Own, Enabled, Next, Exec;
      var steps: int := *;
      for i := 0 to if steps < 0 then 0 else steps
        invariant Valid() && old(trace) <= trace && origin == old(origin)
        invariant s.caller == old(s.caller) && old(call) <= call && Own(call) == Own(old(call))
      {
        var e: Event := *;
        if !OfCaller(e) && Enabled(s, e) {
          ForeignKeepsCaller(s, e);
          Take(e);
        }
      }
    }

    /**
     One API call of the operator after whatever the others did. `at` is what the call met; when it does not come
     through, the operator gives the whole round up.
     */
    method Call(e: Event) returns (ok: bool, at: State)
      requires Valid() && OfCaller(e) && !e.CallFails?
      requires forall t: State | t.caller == s.caller :: Enabled(t, e)
      modifies this
      ensures Valid() && old(trace) <= trace && old(call) <= call && origin == old(origin)
      ensures ok ==> && call != [] && call[|call| - 1] == e && Exec(origin, call[..|call| - 1]) == Some(at)
                     && at.caller == old(s.caller) && s == Next(at, e) && Own(call) == Own(old(call)) + [e]
      ensures !ok ==> s.caller.Idle? && Own(call) == Own(old(call)) + if old(s.caller).Idle? then [] else [CallFails]
    {
      hide Own, Next, Exec;
      Interfere();
      at := s;
      ok := *;
      if ok {
        ghost var before := call;
        Take(e);
        assert call[..|call| - 1] == before;
      } else if !s.caller.Idle? {
        FailureEnds(s);
        Take(CallFails);
      }
    }
  }

  lemma AsMove(s: State, e: Event)
    requires Enabled(s, e)
    ensures Moves(s, e, Next(s, e))
  {}

  lemma ForeignKeepsCaller(s: State, e: Event)
    requires Enabled(s, e) && !OfCaller(e)
    ensures Next(s, e).caller == s.caller
  {}

  lemma FailureEnds(s: State)
    requires !s.caller.Idle?
    ensures Enabled(s, CallFails) && Next(s, CallFails).caller.Idle? && OfCaller(CallFails)
  {}

  // ----- The operator's side -----

  const READS: seq<Event> := [GetApi, GetRunner]
  const ACCESS: seq<Event> := [ApplyRbac, ApplyRbac, ApplyRbac]

  /** ServiceAccount, Role and RoleBinding, applied in this order. */
  method ApplyAccess(w: World) returns (ok: bool)
    requires w.Valid() && w.s.caller == Rbac(3)
    modifies w
    ensures w.Valid() && w.origin == old(w.origin) && old(w.trace) <= w.trace && old(w.call) <= w.call
    ensures ok ==> w.s.caller.AtJob? && Own(w.call) == Own(old(w.call)) + ACCESS
    ensures !ok ==> w.s.caller.Idle?
  {
    hide Own, Exec;
    var at;
    ok, at := w.Call(ApplyRbac);
    if ok { ok, at := w.Call(ApplyRbac); }
    if ok { ok, at := w.Call(ApplyRbac); }
  }

  function JobCalls(deleted: bool, created: bool): seq<Event> {
    [GetJob] + (if deleted then [DeleteJob] else []) + [ProbeJob] + (if created then [CreateJob] else [])
  }

  /** A finished Job is deleted; a Job is created unless one is there. */
  method EnsureJob(w: World) returns (ok: bool, ghost deleted: bool, ghost created: bool)
    requires w.Valid() && w.s.caller.AtJob?
    modifies w
    ensures w.Valid() && w.origin == old(w.origin) && old(w.trace) <= w.trace && old(w.call) <= w.call
        && w.s.caller.Idle?
    ensures ok ==> w.call != [] && w.call[|w.call| - 1] == (if created then CreateJob else ProbeJob)
                   && Own(w.call) == Own(old(w.call)) + JobCalls(deleted, created)
  {
    hide Own, Exec;
    var at;
    deleted, created := false, false;
    ok, at := w.Call(GetJob);
    if !ok { return; }
    if at.job.Some? && Finished(at.job.value) {
      ok, at := w.Call(DeleteJob);
      if ok && at.job.None? {
        ok := false; // gone already: the API server answers with an error
      }
      if !ok { return; }
      deleted := true;
    }
    ok, at := w.Call(ProbeJob);
    if ok && at.job.None? {
      ok, at := w.Call(CreateJob);
      created := true;
    }
  }

  /** The reads and writes of a call that ended well: two reads, and without both Secrets the whole rest. */
  ghost predicate WholeCall(own: seq<Event>, ready: bool) {
    if ready then own == READS
    else exists deleted, created :: own == READS + ACCESS + JobCalls(deleted, created)
  }

  /**
   `ensure_certs`. The result holds what the two reads met; none of its writes happen once both Secrets were seen,
   and a call that began with the Job finished or gone and saw a Secret missing leaves a fresh Job, whatever the
   others did meanwhile.
   */
  method EnsureCerts(w: World) returns (r: Result<Option<(nat, nat)>>, ghost seen: State)
    requires w.Valid() && w.s.caller.Idle?
    modifies w
    ensures w.Valid() && w.s.caller.Idle? && w.origin == old(w.s) && old(w.trace) <= w.trace
    ensures r.Ok? ==> WholeCall(Own(w.call), r.value.Some?)
    ensures r.Ok? && r.value.Some? ==> seen.api == Some(r.value.value.0) && w.s.runner == Some(r.value.value.1)
                                       && exists past :: past <= w.call && Exec(w.origin, past) == Some(seen)
    ensures r == Ok(None) && Terminal(w.origin) && w.origin.pod.None? ==> w.s.job == Some(Job(0, Running))
  {
    hide Own, Exec;
    r := Err(KubeError);
    w.BeginCall();
    ghost var origin := w.s;
    var ok, at := w.Call(GetApi);
    seen := at;
    if !ok { return; }
    var api := at.api;
    ghost var past := w.call[..|w.call| - 1];
    ok, at := w.Call(GetRunner);
    if !ok { return; }
    var runner := at.runner;
    if api.Some? && runner.Some? {
      r := Ok(Some((api.value, runner.value)));
      return;
    }
    ok := ApplyAccess(w);
    if !ok { return; }
    ghost var deleted, created;
    ok, deleted, created := EnsureJob(w);
    if !ok { return; }
    r := Ok(None);
    assert Own(w.call) == READS + ACCESS + JobCalls(deleted, created);
    if Terminal(w.origin) && w.origin.pod.None? {
      EndsInFreshJob(w.origin, w.call, w.s);
    }
  }

  lemma EndsInFreshJob(origin: State, call: seq<Event>, s: State)
    requires Exec(origin, call) == Some(s) && origin.caller.Idle? && Terminal(origin) && origin.pod.None?
        && s.caller.Idle?
    requires WholeCall(Own(call), false) && call != []
    requires call[|call| - 1] == CreateJob || call[|call| - 1] == ProbeJob
    ensures s.job == Some(Job(0, Running))
  {
    hide Exec, Own;
    var before, last := call[..|call| - 1], call[|call| - 1];
    assert call == before + [last];
    OwnSnoc(before, last);
    var deleted, created :| Own(call) == READS + ACCESS + JobCalls(deleted, created);
    assert Own(before) == Own(call)[..|Own(call)| - 1];
    assert Own(before)
           == READS + ACCESS + [GetJob] + (if deleted then [DeleteJob] else [])
           + (if created then [ProbeJob] else []);
    OwnIn(before, CreateJob);
    CallCreatesJob(origin, before, last);
  }
}

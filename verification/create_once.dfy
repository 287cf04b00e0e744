/**
 The shared sandbox Secret is created once. Any number of callers run `ensure_sandbox_secrets` at the same time;
 each get, create and re-get is one step, in any order.
 */
module CreateOnce {
  import opened Wrappers

  type Data = map<string, string>

  const API_KEYS := "SANDBOX_API_KEYS"

  /** `new_sandbox_secret_data`: each of three drawn values under the name of either side of the stack. */
  method NewSandboxSecretData(apiKey: string, registration: string, runnerKey: string) returns (d: Data)
    ensures d.Keys == { "SANDBOX_API_KEYS", "N8N_SANDBOX_SERVICE_API_KEY", "SANDBOX_API_RUNNER_REGISTRATION_TOKEN",
                        "SANDBOX_RUNNER_REGISTRATION_TOKEN", "SANDBOX_API_RUNNER_API_KEY", "SANDBOX_RUNNER_API_KEYS" }
    ensures d["SANDBOX_API_KEYS"] == apiKey && d["N8N_SANDBOX_SERVICE_API_KEY"] == apiKey
    ensures d["SANDBOX_API_RUNNER_REGISTRATION_TOKEN"] == registration
    ensures d["SANDBOX_RUNNER_REGISTRATION_TOKEN"] == registration
    ensures d["SANDBOX_API_RUNNER_API_KEY"] == runnerKey && d["SANDBOX_RUNNER_API_KEYS"] == runnerKey
  {
    d := map[];
    d := d["SANDBOX_API_KEYS" := apiKey];
    d := d["N8N_SANDBOX_SERVICE_API_KEY" := apiKey];
    d := d["SANDBOX_API_RUNNER_REGISTRATION_TOKEN" := registration];
    d := d["SANDBOX_RUNNER_REGISTRATION_TOKEN" := registration];
    d := d["SANDBOX_API_RUNNER_API_KEY" := runnerKey];
    d := d["SANDBOX_RUNNER_API_KEYS" := runnerKey];
  }

  function Decode(d: Data): Result<string> {
    if API_KEYS in d then Ok(d[API_KEYS]) else Err(IllegalAssistant)
  }

  /** A caller: about to read; holding a draft after finding nothing; told that somebody was first; finished. */
  datatype Caller = Start | Absent(draft: Data) | Lost | Done(result: Result<string>)

  datatype State = State(stored: Option<Data>, callers: seq<Caller>)

  datatype Event = Get(i: nat, draft: Data) | Create(i: nat) | ReGet(i: nat) | Break(i: nat) | Remove

  predicate Enabled(s: State, e: Event) {
    match e
    case Get(i, draft) => i < |s.callers| && s.callers[i].Start? && API_KEYS in draft
    case Create(i) => i < |s.callers| && s.callers[i].Absent?
    case ReGet(i) => i < |s.callers| && s.callers[i].Lost?
    case Break(i) => i < |s.callers| && !s.callers[i].Done?
    case Remove => s.stored.Some?
  }

  function Next(s: State, e: Event): State
    requires Enabled(s, e)
  {
    match e
    case Get(i, draft) =>
      s.(callers := s.callers[i := if s.stored.Some? then Done(Decode(s.stored.value)) else Absent(draft)])
    case Create(i) =>
      if s.stored.Some? then s.(callers := s.callers[i := Lost])
      else State(Some(s.callers[i].draft), s.callers[i := Done(Decode(s.callers[i].draft))])
    case ReGet(i) =>
      s.(callers := s.callers[i := Done(if s.stored.Some? then Decode(s.stored.value) else Err(KubeError))])
    case Break(i) => s.(callers := s.callers[i := Done(Err(KubeError))])
    case Remove => s.(stored := None)
  }

  function Exec(s: State, es: seq<Event>): Option<State>
    decreases |es|
  {
    if es == [] then Some(s)
    else match Exec(s, es[..|es| - 1])
      case None => None
      case Some(t) => if Enabled(t, es[|es| - 1]) then Some(Next(t, es[|es| - 1])) else None
  }

  /** Every caller that has a key has the stored one, and no draft is without a key. */
  predicate Agree(s: State) {
    && (forall i | 0 <= i < |s.callers| :: s.callers[i].Done? && s.callers[i].result.Ok? ==>
          s.stored.Some? && Decode(s.stored.value) == s.callers[i].result)
    && (forall i | 0 <= i < |s.callers| :: s.callers[i].Absent? ==> API_KEYS in s.callers[i].draft)
    && (forall i | 0 <= i < |s.callers| :: s.callers[i].Lost? ==> s.stored.Some?)
  }

  /**
   Create-once agreement: however the callers interleave, without a deletion every caller that returns a key
   returns the key of the one stored Secret, and that Secret never changes once it is there.
   */
  lemma {:induction false} CallersAgree(s: State, es: seq<Event>)
    requires Agree(s) && Exec(s, es).Some? && Remove !in es
    ensures var t := Exec(s, es).value;
            && Agree(t) && |t.callers| == |s.callers|
            && (s.stored.Some? ==> t.stored == s.stored)
            && (forall i, j | 0 <= i < |t.callers| && 0 <= j < |t.callers| ::
                  t.callers[i].Done? && t.callers[i].result.Ok? && t.callers[j].Done? && t.callers[j].result.Ok? ==>
                  t.callers[i].result == t.callers[j].result)
    decreases |es|
  {
    if es != [] {
      assert es[|es| - 1] in es && forall e | e in es[..|es| - 1] :: e in es;
      CallersAgree(s, es[..|es| - 1]);
    }
  }

  /** A caller's own two or three calls succeed unless an API call fails or somebody else's Secret lacks the key. */
  lemma CallerFails(s: State, e: Event, i: nat)
    requires Agree(s) && Enabled(s, e) && !e.Remove? && i < |s.callers|
    requires !s.callers[i].Done? && Next(s, e).callers[i].Done? && Next(s, e).callers[i].result.Err?
    ensures e == Break(i) || (s.stored.Some? && API_KEYS !in s.stored.value)
  {}

  /** With a deletion in between, two callers can return different keys. */
  lemma DeletionBreaksAgreement(a: Data, b: Data)
    requires API_KEYS in a && API_KEYS in b && a[API_KEYS] != b[API_KEYS]
    ensures var es := [Get(0, a)] + [Create(0)] + [Remove] + [Get(1, b)] + [Create(1)];
            var t := Exec(State(None, [Start, Start]), es);
            t.Some? && t.value.callers[0] == Done(Ok(a[API_KEYS])) && t.value.callers[1] == Done(Ok(b[API_KEYS]))
  {
    hide Exec;
    var s := State(None, [Start, Start]);
    assert Exec(s, []) == Some(s) by { Begin(s); }
    Play(s, [], s, Get(0, a));
    var s1 := State(None, [Absent(a), Start]);
    assert Next(s, Get(0, a)).callers == s1.callers;
    assert [] + [Get(0, a)] == [Get(0, a)];
    var es := [Get(0, a)];
    Play(s, es, s1, Create(0));
    var s2 := State(Some(a), [Done(Ok(a[API_KEYS])), Start]);
    assert Next(s1, Create(0)).callers == s2.callers;
    es := es + [Create(0)];
    Play(s, es, s2, Remove);
    var s3 := s2.(stored := None);
    es := es + [Remove];
    Play(s, es, s3, Get(1, b));
    var s4 := State(None, [Done(Ok(a[API_KEYS])), Absent(b)]);
    assert Next(s3, Get(1, b)).callers == s4.callers;
    Play(s, es + [Get(1, b)], s4, Create(1));
  }

  lemma Begin(s: State)
    ensures Exec(s, []) == Some(s)
  {}

  lemma Play(s: State, es: seq<Event>, t: State, e: Event)
    requires Exec(s, es) == Some(t) && Enabled(t, e)
    ensures Exec(s, es + [e]) == Some(Next(t, e))
  {
    assert (es + [e])[..|es|] == es;
  }

  // ----- One caller, step by step -----

  class Board {
    var s: State
    ghost const origin: State
    ghost var trace: seq<Event>

    ghost predicate Valid() reads this {
      Exec(origin, trace) == Some(s) && Agree(s) && Remove !in trace && |s.callers| == |origin.callers|
      && (origin.stored.Some? ==> s.stored == origin.stored)
    }

    constructor (callers: nat, stored: Option<Data>)
      ensures Valid() && trace == [] && s == State(stored, seq(callers, i => Start))
    {
      s, origin, trace := State(stored, seq(callers, i => Start)), State(stored, seq(callers, i => Start)), [];
    }

    method Take(e: Event)
      requires Valid() && Enabled(s, e) && !e.Remove?
      modifies this
      ensures Valid() && s == Next(old(s), e) && trace == old(trace) + [e]
      ensures old(s).stored.Some? ==> s.stored == old(s).stored
    {
      assert (trace + [e])[..|trace|] == trace;
      s, trace := Next(s, e), trace + [e];
    }

    /** Any steps of the other callers. */
    method Others(me: nat)
      requires Valid() && me < |s.callers|
      modifies this
      ensures Valid() && old(trace) <= trace && |s.callers| == |old(s).callers| && s.callers[me] == old(s).callers[me]
      ensures old(s).stored.Some? ==> s.stored == old(s).stored
    {
      hide Agree, Exec;
      var steps: int := *;
      for k := 0 to if steps < 0 then 0 else steps
        invariant Valid() && old(trace) <= trace
        invariant |s.callers| == |old(s).callers| && s.callers[me] == old(s).callers[me]
        invariant old(s).stored.Some? ==> s.stored == old(s).stored
      {
        var e: Event := *;
        if (e.Get? || e.Create? || e.ReGet? || e.Break?) && e.i != me && Enabled(s, e) {
          Take(e);
        }
      }
    }

    /**
     `ensure_sandbox_secrets`: look, create when absent, re-read after losing a race; the draft is used at most
     once.
     */
    method EnsureSandboxSecrets(me: nat, draft: Data) returns (r: Result<string>)
      requires Valid() && me < |s.callers| && s.callers[me].Start? && API_KEYS in draft
      modifies this
      ensures Valid() && old(trace) <= trace && |s.callers| == |old(s).callers| && s.callers[me] == Done(r)
      ensures r.Ok? ==> s.stored.Some? && Decode(s.stored.value) == r
      ensures old(s).stored.Some? ==> s.stored == old(s).stored
      ensures r.Err? ==> Break(me) in trace || (s.stored.Some? && API_KEYS !in s.stored.value)
    {
      hide Exec;
      Others(me);
      var up: bool := *;
      if !up { Take(Break(me)); return Err(KubeError); }
      Take(Get(me, draft));
      if s.callers[me].Done? {
        return s.callers[me].result;
      }
      Others(me);
      up := *;
      if !up { Take(Break(me)); return Err(KubeError); }
      Take(Create(me));
      if s.callers[me].Done? {
        return s.callers[me].result;
      }
      Others(me);
      up := *;
      if !up { Take(Break(me)); return Err(KubeError); }
      Take(ReGet(me));
      r := s.callers[me].result;
    }
  }
}

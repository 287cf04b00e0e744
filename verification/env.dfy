/** Container environment: what each part of the operator emits, and how the user's layers are merged. */
module Env {
  import opened Wrappers
  import opened Kube
  import opened Resources

  // ----- The user layers -----

  function CookieLayer(secureCookie: Option<bool>): seq<EnvVar> {
    match secureCookie
    case Some(v) => [EnvVar("N8N_SECURE_COOKIE", Some(BoolText(v)), None)]
    case None => []
  }

  function Layered(defaults: seq<EnvVar>, secureCookie: Option<bool>, cluster: seq<EnvVar>, role: seq<EnvVar>)
    : seq<EnvVar>
  {
    defaults + CookieLayer(secureCookie) + cluster + role
  }

  function Render(e: EnvVar): EnvEntry {
    match e.valueFrom
    case Some(src) => EnvEntry(e.name, FromSecret(src.name, src.key))
    case None => EnvEntry(e.name, Inline(e.value.GetOr("")))
  }

  /** The names in order of first occurrence. */
  function FirstNames(vars: seq<EnvVar>): seq<string> {
    if vars == [] then []
    else
      var before, last := FirstNames(vars[..|vars| - 1]), vars[|vars| - 1].name;
      if last in before then before else before + [last]
  }

  /** One layer as a map: a later entry replaces an earlier one of the same name. */
  function LayerMap(vars: seq<EnvVar>): map<string, EnvVar> {
    if vars == [] then map[] else LayerMap(vars[..|vars| - 1])[vars[|vars| - 1].name := vars[|vars| - 1]]
  }

  lemma {:induction false} NamesOfLayer(vars: seq<EnvVar>)
    ensures forall n :: n in FirstNames(vars) <==> n in LayerMap(vars)
    ensures forall n :: n in LayerMap(vars) <==> n in Names(vars)
    ensures forall n | n in LayerMap(vars) :: LayerMap(vars)[n].name == n
  {
    if vars != [] {
      var init, last := vars[..|vars| - 1], vars[|vars| - 1];
      NamesOfLayer(init);
      assert Names(vars) == Names(init) + [last.name];
    }
  }

  /** The merged environment: each name once, in order of first occurrence, with its last value. */
  function UserEnv(vars: seq<EnvVar>): (env: seq<EnvEntry>) {
    NamesOfLayer(vars);
    var names, latest := FirstNames(vars), LayerMap(vars);
    seq(|names|, i requires 0 <= i < |names| && forall n | n in names :: n in latest => Render(latest[names[i]]))
  }

  /** `build_user_env`: the loop over the chained layers. */
  method BuildUserEnv(defaults: seq<EnvVar>, secureCookie: Option<bool>, cluster: seq<EnvVar>, role: seq<EnvVar>)
    returns (env: seq<EnvEntry>)
    ensures env == UserEnv(Layered(defaults, secureCookie, cluster, role))
  {
    hide Layered, Render, Names;
    var layered := Layered(defaults, secureCookie, cluster, role);
    var order: seq<string> := [];
    var latest: map<string, EnvVar> := map[];
    for i := 0 to |layered|
      invariant order == FirstNames(layered[..i])
      invariant latest == LayerMap(layered[..i])
    {
      assert layered[..i + 1][..i] == layered[..i];
      NamesOfLayer(layered[..i]);
      var e := layered[i];
      if e.name !in latest {
        order := order + [e.name];
      }
      latest := latest[e.name := e];
    }
    assert layered[..|layered|] == layered;
    NamesOfLayer(layered);
    env := [];
    for i := 0 to |order|
      invariant env == UserEnv(layered)[..i]
    {
      env := env + [Render(latest[order[i]])];
    }
  }

  function Names(vars: seq<EnvVar>): seq<string> {
    seq(|vars|, i requires 0 <= i < |vars| => vars[i].name)
  }

  function EntryNames(env: seq<EnvEntry>): seq<string> {
    seq(|env|, i requires 0 <= i < |env| => env[i].name)
  }

  predicate NoRepeats(names: seq<string>) {
    forall i, j | 0 <= i < j < |names| :: names[i] != names[j]
  }

  /** What the container sees: the last entry of a name. */
  function Lookup(env: seq<EnvEntry>, name: string): Option<EnvValue> {
    if env == [] then None
    else if env[|env| - 1].name == name then Some(env[|env| - 1].value)
    else Lookup(env[..|env| - 1], name)
  }

  lemma {:induction false} FirstNamesUnique(vars: seq<EnvVar>)
    ensures NoRepeats(FirstNames(vars))
  {
    if vars != [] {
      FirstNamesUnique(vars[..|vars| - 1]);
    }
  }

  lemma UserEnvNames(vars: seq<EnvVar>)
    ensures EntryNames(UserEnv(vars)) == FirstNames(vars)
    ensures NoRepeats(EntryNames(UserEnv(vars)))
    ensures forall n :: n in EntryNames(UserEnv(vars)) <==> n in Names(vars)
  {
    NamesOfLayer(vars);
    FirstNamesUnique(vars);
  }

  lemma {:induction false} LookupUnique(env: seq<EnvEntry>, i: nat)
    requires i < |env| && NoRepeats(EntryNames(env))
    ensures Lookup(env, env[i].name) == Some(env[i].value)
  {
    var n := |env| - 1;
    if i < n {
      assert EntryNames(env)[i] != EntryNames(env)[n];
      assert EntryNames(env[..n]) == EntryNames(env)[..n];
      LookupUnique(env[..n], i);
    }
  }

  lemma {:induction false} LookupAbsent(env: seq<EnvEntry>, name: string)
    ensures Lookup(env, name).None? <==> name !in EntryNames(env)
  {
    if env != [] {
      var n := |env| - 1;
      LookupAbsent(env[..n], name);
      assert EntryNames(env) == EntryNames(env[..n]) + [env[n].name];
    }
  }

  lemma {:induction false} LookupConcat(a: seq<EnvEntry>, b: seq<EnvEntry>, name: string)
    ensures Lookup(a + b, name) == if Lookup(b, name).Some? then Lookup(b, name) else Lookup(a, name)
    decreases |b|
  {
    if b == [] {
      assert a + b == a;
    } else {
      var n := |b| - 1;
      assert (a + b)[..|a + b| - 1] == a + b[..n];
      LookupConcat(a, b[..n], name);
    }
  }

  lemma {:induction false} LayerMapConcat(a: seq<EnvVar>, b: seq<EnvVar>)
    ensures LayerMap(a + b) == LayerMap(a) + LayerMap(b)
    decreases |b|
  {
    if b == [] {
      assert a + b == a;
    } else {
      var n := |b| - 1;
      assert (a + b)[..|a + b| - 1] == a + b[..n];
      LayerMapConcat(a, b[..n]);
    }
  }

  /** The container's view of the merged layers is the right-biased merge of the four layers. */
  lemma UserEnvIsMerge(defaults: seq<EnvVar>, secureCookie: Option<bool>, cluster: seq<EnvVar>, role: seq<EnvVar>,
                       name: string)
    ensures var merged := LayerMap(defaults) + LayerMap(CookieLayer(secureCookie)) + LayerMap(cluster) + LayerMap(role);
            Lookup(UserEnv(Layered(defaults, secureCookie, cluster, role)), name)
            == if name !in merged then None
               else match merged[name].valueFrom
                 case Some(r) => Some(FromSecret(r.name, r.key))
                 case None => Some(Inline(if merged[name].value.Some? then merged[name].value.value else ""))
  {
    var cookie := CookieLayer(secureCookie);
    var vars := Layered(defaults, secureCookie, cluster, role);
    LayerMapConcat(defaults, cookie);
    LayerMapConcat(defaults + cookie, cluster);
    LayerMapConcat(defaults + cookie + cluster, role);
    LookupUserEnv(vars, name);
  }

  lemma LookupUserEnv(vars: seq<EnvVar>, name: string)
    ensures Lookup(UserEnv(vars), name)
            == if name in LayerMap(vars) then Some(Render(LayerMap(vars)[name]).value) else None
  {
    NamesOfLayer(vars);
    UserEnvNames(vars);
    var env := UserEnv(vars);
    if name in LayerMap(vars) {
      var i :| 0 <= i < |FirstNames(vars)| && FirstNames(vars)[i] == name;
      assert env[i] == Render(LayerMap(vars)[name]);
      LookupUnique(env, i);
    } else {
      LookupAbsent(env, name);
    }
  }
}

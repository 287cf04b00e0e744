/** The target's instance-ai Secret: its contents for a spec, and what repeated applies make of the live object. */
module InstanceAi {
  import opened Wrappers
  import opened Kube
  import opened Resources
  import opened Builders
  import opened SandboxNames

  const MODEL_URL := "N8N_INSTANCE_AI_MODEL_URL"
  const MODEL_KEY := "N8N_INSTANCE_AI_MODEL_API_KEY"
  const BRAVE_KEY := "INSTANCE_AI_BRAVE_SEARCH_API_KEY"
  const SEARXNG_URL := "N8N_INSTANCE_AI_SEARXNG_URL"

  function Entry(name: string, value: Option<string>): map<string, string> {
    match value case Some(v) => map[name := v] case None => map[]
  }

  function FixedData(a: Assistant, url: string, apiKey: string): map<string, string> {
    map["N8N_ENABLED_MODULES" := "instance-ai", "N8N_INSTANCE_AI_MODEL" := a.modelName,
        "N8N_INSTANCE_AI_SANDBOX_ENABLED" := "true", "N8N_INSTANCE_AI_SANDBOX_PROVIDER" := "n8n-sandbox",
        "N8N_INSTANCE_AI_SANDBOX_IMAGE" := a.sandboxImage, "N8N_INSTANCE_AI_SANDBOX_API_URL" := url,
        "N8N_SANDBOX_SERVICE_URL" := url, "N8N_SANDBOX_SERVICE_API_KEY" := apiKey]
  }

  /** `modelKey` and `braveKey` are the resolved contents of the user's Secrets. */
  function InstanceAiData(a: Assistant, url: string, apiKey: string, modelKey: Option<string>, braveKey: Option<string>)
    : map<string, string>
  {
    FixedData(a, url, apiKey) + Entry(MODEL_URL, a.modelUrl) + Entry(MODEL_KEY, modelKey) + Entry(BRAVE_KEY, braveKey)
    + Entry(SEARXNG_URL, a.searxng)
  }

  method BuildFixedData(a: Assistant, url: string, apiKey: string) returns (d: map<string, string>)
    ensures d == FixedData(a, url, apiKey)
  {
    d := map[];
    d := d["N8N_ENABLED_MODULES" := "instance-ai"];
    d := d["N8N_INSTANCE_AI_MODEL" := a.modelName];
    d := d["N8N_INSTANCE_AI_SANDBOX_ENABLED" := "true"];
    d := d["N8N_INSTANCE_AI_SANDBOX_PROVIDER" := "n8n-sandbox"];
    d := d["N8N_INSTANCE_AI_SANDBOX_IMAGE" := a.sandboxImage];
    d := d["N8N_INSTANCE_AI_SANDBOX_API_URL" := url];
    d := d["N8N_SANDBOX_SERVICE_URL" := url];
    d := d["N8N_SANDBOX_SERVICE_API_KEY" := apiKey];
  }

  method SetIf(d: map<string, string>, name: string, value: Option<string>) returns (e: map<string, string>)
    ensures e == d + Entry(name, value)
  {
    e := if value.Some? then d[name := value.value] else d;
  }

  /** `build_instance_ai_data`: the fixed entries, then one insertion for each setting that is there. */
  method BuildInstanceAiData(a: Assistant, url: string, apiKey: string, modelKey: Option<string>,
                             braveKey: Option<string>)
    returns (d: map<string, string>)
    ensures d == InstanceAiData(a, url, apiKey, modelKey, braveKey)
  {
    hide MODEL_URL, MODEL_KEY, BRAVE_KEY, SEARXNG_URL, FixedData, Entry;
    d := BuildFixedData(a, url, apiKey);
    d := SetIf(d, MODEL_URL, a.modelUrl);
    d := SetIf(d, MODEL_KEY, modelKey);
    d := SetIf(d, BRAVE_KEY, braveKey);
    d := SetIf(d, SEARXNG_URL, a.searxng);
  }

  lemma OptionalNamesDiffer()
    ensures |MODEL_URL| == 25 && |MODEL_KEY| == 29 && |BRAVE_KEY| == 32 && |SEARXNG_URL| == 27
    ensures MODEL_KEY[16] == 'M' && BRAVE_KEY[0] == 'I' && SEARXNG_URL[4] == 'I'
  {}

  lemma NotFixed(a: Assistant, url: string, apiKey: string, name: string)
    requires name == MODEL_URL || name == MODEL_KEY || name == BRAVE_KEY || name == SEARXNG_URL
    ensures name !in FixedData(a, url, apiKey)
  {
    OptionalNamesDiffer();
    hide MODEL_URL, MODEL_KEY, BRAVE_KEY, SEARXNG_URL;
    assert |"N8N_ENABLED_MODULES"| == 19 && |"N8N_INSTANCE_AI_MODEL"| == 21;
    assert |"N8N_INSTANCE_AI_SANDBOX_ENABLED"| == 31;
    assert |"N8N_INSTANCE_AI_SANDBOX_PROVIDER"| == 32 && "N8N_INSTANCE_AI_SANDBOX_PROVIDER"[0] == 'N';
    assert |"N8N_INSTANCE_AI_SANDBOX_IMAGE"| == 29 && "N8N_INSTANCE_AI_SANDBOX_IMAGE"[16] == 'S';
    assert |"N8N_INSTANCE_AI_SANDBOX_API_URL"| == 31 && |"N8N_SANDBOX_SERVICE_URL"| == 23;
    assert |"N8N_SANDBOX_SERVICE_API_KEY"| == 27 && "N8N_SANDBOX_SERVICE_API_KEY"[4] == 'S';
  }

  lemma FourEntries(base: map<string, string>, n1: string, v1: Option<string>, n2: string, v2: Option<string>,
                    n3: string, v3: Option<string>, n4: string, v4: Option<string>)
    requires n1 !in base && n2 !in base && n3 !in base && n4 !in base
    requires n1 != n2 && n1 != n3 && n1 != n4 && n2 != n3 && n2 != n4 && n3 != n4
    ensures var d := base + Entry(n1, v1) + Entry(n2, v2) + Entry(n3, v3) + Entry(n4, v4);
            && (if v1.Some? then n1 in d && d[n1] == v1.value else n1 !in d)
            && (if v2.Some? then n2 in d && d[n2] == v2.value else n2 !in d)
            && (if v3.Some? then n3 in d && d[n3] == v3.value else n3 !in d)
            && (if v4.Some? then n4 in d && d[n4] == v4.value else n4 !in d)
  {}

  /** An optional entry is there exactly when its setting is, with that value. */
  lemma OptionalEntries(a: Assistant, url: string, apiKey: string, modelKey: Option<string>, braveKey: Option<string>)
    ensures var d := InstanceAiData(a, url, apiKey, modelKey, braveKey);
            && (if a.modelUrl.Some? then MODEL_URL in d && d[MODEL_URL] == a.modelUrl.value else MODEL_URL !in d)
            && (if modelKey.Some? then MODEL_KEY in d && d[MODEL_KEY] == modelKey.value else MODEL_KEY !in d)
            && (if braveKey.Some? then BRAVE_KEY in d && d[BRAVE_KEY] == braveKey.value else BRAVE_KEY !in d)
            && (if a.searxng.Some? then SEARXNG_URL in d && d[SEARXNG_URL] == a.searxng.value else SEARXNG_URL !in d)
  {
    hide FixedData, MODEL_URL, MODEL_KEY, BRAVE_KEY, SEARXNG_URL, Entry;
    NotFixed(a, url, apiKey, MODEL_URL);
    NotFixed(a, url, apiKey, MODEL_KEY);
    NotFixed(a, url, apiKey, BRAVE_KEY);
    NotFixed(a, url, apiKey, SEARXNG_URL);
    OptionalNamesDiffer();
    FourEntries(FixedData(a, url, apiKey), MODEL_URL, a.modelUrl, MODEL_KEY, modelKey, BRAVE_KEY, braveKey,
                SEARXNG_URL, a.searxng);
  }

  /** What the optional entries leave alone. */
  lemma Beneath(base: map<string, string>, n1: string, v1: Option<string>, n2: string, v2: Option<string>,
                n3: string, v3: Option<string>, n4: string, v4: Option<string>, name: string)
    requires name in base && n1 !in base && n2 !in base && n3 !in base && n4 !in base
    ensures var d := base + Entry(n1, v1) + Entry(n2, v2) + Entry(n3, v3) + Entry(n4, v4);
            name in d && d[name] == base[name]
  {}

  lemma FixedNames(a: Assistant, url: string, apiKey: string)
    ensures var d := FixedData(a, url, apiKey);
            && "N8N_ENABLED_MODULES" in d && d["N8N_ENABLED_MODULES"] == "instance-ai"
            && "N8N_INSTANCE_AI_MODEL" in d && d["N8N_INSTANCE_AI_MODEL"] == a.modelName
            && "N8N_INSTANCE_AI_SANDBOX_ENABLED" in d && d["N8N_INSTANCE_AI_SANDBOX_ENABLED"] == "true"
            && "N8N_INSTANCE_AI_SANDBOX_PROVIDER" in d && d["N8N_INSTANCE_AI_SANDBOX_PROVIDER"] == "n8n-sandbox"
            && "N8N_INSTANCE_AI_SANDBOX_IMAGE" in d && d["N8N_INSTANCE_AI_SANDBOX_IMAGE"] == a.sandboxImage
            && "N8N_INSTANCE_AI_SANDBOX_API_URL" in d && d["N8N_INSTANCE_AI_SANDBOX_API_URL"] == url
            && "N8N_SANDBOX_SERVICE_URL" in d && d["N8N_SANDBOX_SERVICE_URL"] == url
            && "N8N_SANDBOX_SERVICE_API_KEY" in d && d["N8N_SANDBOX_SERVICE_API_KEY"] == apiKey
  {
    assert |"N8N_ENABLED_MODULES"| == 19 && |"N8N_INSTANCE_AI_MODEL"| == 21;
    assert |"N8N_INSTANCE_AI_SANDBOX_ENABLED"| == 31 && |"N8N_INSTANCE_AI_SANDBOX_PROVIDER"| == 32;
    assert |"N8N_INSTANCE_AI_SANDBOX_IMAGE"| == 29 && |"N8N_INSTANCE_AI_SANDBOX_API_URL"| == 31;
    assert "N8N_INSTANCE_AI_SANDBOX_ENABLED"[24] == 'E' && "N8N_INSTANCE_AI_SANDBOX_API_URL"[24] == 'A';
    assert |"N8N_SANDBOX_SERVICE_URL"| == 23 && |"N8N_SANDBOX_SERVICE_API_KEY"| == 27;
  }

  /** The eight entries that are always there, from the spec, the stack's address and the shared key. */
  lemma FixedEntries(a: Assistant, url: string, apiKey: string, modelKey: Option<string>, braveKey: Option<string>,
                     name: string)
    requires name in FixedData(a, url, apiKey)
    ensures var d := InstanceAiData(a, url, apiKey, modelKey, braveKey);
            name in d && d[name] == FixedData(a, url, apiKey)[name]
  {
    hide FixedData, MODEL_URL, MODEL_KEY, BRAVE_KEY, SEARXNG_URL, Entry;
    NotFixed(a, url, apiKey, MODEL_URL);
    NotFixed(a, url, apiKey, MODEL_KEY);
    NotFixed(a, url, apiKey, BRAVE_KEY);
    NotFixed(a, url, apiKey, SEARXNG_URL);
    Beneath(FixedData(a, url, apiKey), MODEL_URL, a.modelUrl, MODEL_KEY, modelKey, BRAVE_KEY, braveKey, SEARXNG_URL,
            a.searxng, name);
  }

  /** The applied Secret: identity labels, owner, and the data. */
  function TargetFields(a: Assistant, data: map<string, string>): Fields {
    Meta(SandboxLabels(a.ns, a.name, "instance-ai"), "Assistant/" + a.name)
    + map[Spec("type") := Text("Opaque")] + DataFields(data)
  }

  lemma TargetDataExact(a: Assistant, data: map<string, string>, name: string)
    ensures Data(name) in TargetFields(a, data) <==> name in data
    ensures name in data ==> TargetFields(a, data)[Data(name)] == Text(data[name])
  {
    hide SandboxLabels, Meta;
    MetaPaths(SandboxLabels(a.ns, a.name, "instance-ai"), "Assistant/" + a.name);
  }

  // ----- The live object over a history of applies -----

  /** What happens to the Secret: an apply by this operator, or an update of one field by somebody else. */
  datatype Turn = Apply(want: Fields) | Foreign(path: Path, value: Value)

  function TakeTurn(s: Store, k: Key, t: Turn): Store {
    match t
    case Apply(want) => Applied(s, k, want)
    case Foreign(p, v) => ForeignUpdate(s, k, p, v)
  }

  function TakeTurns(s: Store, k: Key, turns: seq<Turn>): Store
    decreases |turns|
  {
    if turns == [] then s else TakeTurn(TakeTurns(s, k, turns[..|turns| - 1]), k, turns[|turns| - 1])
  }

  /** Every field of the object has an owner, and every owned field is there. */
  predicate Accounted(o: Object) {
    o.fields.Keys == o.owned + o.others
  }

  /** Somebody else wrote the field while the Secret was there. */
  ghost predicate WrittenByOthers(s: Store, k: Key, turns: seq<Turn>, p: Path) {
    exists i :: 0 <= i < |turns| && turns[i].Foreign? && turns[i].path == p && k in TakeTurns(s, k, turns[..i]).objects
  }

  predicate NeverApplied(turns: seq<Turn>, p: Path) {
    forall i | 0 <= i < |turns| && turns[i].Apply? :: p !in turns[i].want
  }

  function Field(s: Store, k: Key, p: Path): Option<Value> {
    if k in s.objects && p in s.objects[k].fields then Some(s.objects[k].fields[p]) else None
  }

  /** The last value somebody else wrote while the Secret was there, or what was in it before. */
  function LastForeign(s: Store, k: Key, turns: seq<Turn>, p: Path): Option<Value>
    decreases |turns|
  {
    if turns == [] then Field(s, k, p)
    else
      var before, last := turns[..|turns| - 1], turns[|turns| - 1];
      if last.Foreign? && last.path == p && k in TakeTurns(s, k, before).objects then Some(last.value)
      else LastForeign(s, k, before, p)
  }

  /** The Secret, if there is one, is accounted for, and others own only what they did or have written. */
  ghost predicate Kept(s: Store, t: Store, k: Key, turns: seq<Turn>) {
    k in t.objects ==>
      && Accounted(t.objects[k])
      && forall p | p in t.objects[k].others ::
           (k in s.objects && p in s.objects[k].others) || WrittenByOthers(s, k, turns, p)
  }

  lemma TurnKeeps(s: Store, k: Key, t: Turn)
    requires k in s.objects ==> Accounted(s.objects[k])
    ensures var u := TakeTurn(s, k, t);
            k in u.objects ==>
              && Accounted(u.objects[k])
              && forall p | p in u.objects[k].others ::
                   k in s.objects && (p in s.objects[k].others || (t.Foreign? && t.path == p))
  {
    if t.Apply? && k in s.objects {
      var o := s.objects[k];
      assert Merged(o, t.want).fields.Keys == t.want.Keys + (o.others - Overridden(o, t.want));
    }
  }

  lemma {:induction false} TurnsKeep(s: Store, k: Key, turns: seq<Turn>)
    requires k in s.objects ==> Accounted(s.objects[k])
    ensures Kept(s, TakeTurns(s, k, turns), k, turns)
    decreases |turns|
  {
    hide TakeTurn;
    if turns != [] {
      var before, last := turns[..|turns| - 1], turns[|turns| - 1];
      TurnsKeep(s, k, before);
      var mid, end := TakeTurns(s, k, before), TakeTurns(s, k, turns);
      TurnKeeps(mid, k, last);
      if k in end.objects {
        forall p | p in end.objects[k].others
          ensures (k in s.objects && p in s.objects[k].others) || WrittenByOthers(s, k, turns, p)
        {
          if last.Foreign? && last.path == p {
            assert turns[|turns| - 1].path == p;
          } else if WrittenByOthers(s, k, before, p) {
            var i :| 0 <= i < |before| && before[i].Foreign? && before[i].path == p
                     && k in TakeTurns(s, k, before[..i]).objects;
            assert turns[i] == before[i] && turns[..i] == before[..i];
          }
        }
      }
    }
  }

  /**
   Pruning over a whole history, from the first apply on: after any applies and foreign updates, one more apply
   leaves exactly its own fields under this manager, and of all other fields only those somebody else has written.
   */
  lemma LastApplyDecides(s: Store, k: Key, turns: seq<Turn>, want: Fields)
    requires k in s.objects ==> Accounted(s.objects[k])
    ensures var end := TakeTurns(s, k, turns + [Apply(want)]);
            && k in end.objects && end.objects[k].Owned() == want && end.objects[k].owned == want.Keys
            && forall p | p in end.objects[k].fields && p !in want ::
                 (k in s.objects && p in s.objects[k].others) || WrittenByOthers(s, k, turns, p)
  {
    hide TakeTurns;
    var t := TakeTurns(s, k, turns);
    OneMore(s, k, turns, Apply(want));
    TurnsKeep(s, k, turns);
    TurnKeeps(t, k, Apply(want));
    var end := Applied(t, k, want);
    StepSettles(t, Put(k, want));
    assert end.objects[k].Owned() == want;
    assert k in t.objects ==> end.objects[k].others <= t.objects[k].others;
  }

  lemma OneMore(s: Store, k: Key, turns: seq<Turn>, t: Turn)
    ensures TakeTurns(s, k, turns + [t]) == TakeTurn(TakeTurns(s, k, turns), k, t)
  {
    assert (turns + [t])[..|turns|] == turns;
  }

  /** A field no apply has ever declared is the other managers' alone: it holds what they wrote last. */
  lemma {:induction false} ForeignFieldsUntouched(s: Store, k: Key, turns: seq<Turn>, p: Path)
    requires k in s.objects ==> Accounted(s.objects[k]) && p !in s.objects[k].owned
    requires NeverApplied(turns, p)
    ensures var end := TakeTurns(s, k, turns);
            && (k in end.objects ==> p !in end.objects[k].owned)
            && Field(end, k, p) == LastForeign(s, k, turns, p)
    decreases |turns|
  {
    hide TakeTurn, Field;
    if turns != [] {
      var before, last := turns[..|turns| - 1], turns[|turns| - 1];
      ForeignFieldsUntouched(s, k, before, p);
      assert last.Apply? ==> p !in last.want;
      OneTurnLeaves(TakeTurns(s, k, before), k, last, p);
    }
  }

  lemma OneTurnLeaves(s: Store, k: Key, t: Turn, p: Path)
    requires k in s.objects ==> p !in s.objects[k].owned
    requires t.Apply? ==> p !in t.want
    ensures k in TakeTurn(s, k, t).objects ==> p !in TakeTurn(s, k, t).objects[k].owned
    ensures Field(TakeTurn(s, k, t), k, p)
         == if t.Foreign? && t.path == p && k in s.objects then Some(t.value) else Field(s, k, p)
  {}

  /**
   A setting removed from the spec leaves the live Secret with the next apply, unless somebody else wrote that very
   key: stated for every data key the last spec does not ask for.
   */
  lemma RemovedKeyIsGone(s: Store, k: Key, turns: seq<Turn>, a: Assistant, data: map<string, string>, name: string)
    requires k in s.objects ==> Accounted(s.objects[k]) && Data(name) !in s.objects[k].others
    requires name !in data && !WrittenByOthers(s, k, turns, Data(name))
    ensures Field(TakeTurns(s, k, turns + [Apply(TargetFields(a, data))]), k, Data(name)) == None
  {
    hide TargetFields, TakeTurns;
    LastApplyDecides(s, k, turns, TargetFields(a, data));
    TargetDataExact(a, data, name);
  }
}

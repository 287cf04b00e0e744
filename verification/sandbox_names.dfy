/** Names and labels of the objects of an Assistant's sandbox stack. */
module SandboxNames {
  import opened Wrappers
  import opened Kube
  import opened Resources
  import opened Builders

  /** What a generated name is for. */
  datatype Part = Secrets | Certs | TlsApi | TlsRunner | Api | Runner | DockerPvc

  function Suffix(part: Part): (s: string)
    ensures 12 <= |s| <= 24
  {
    match part
    case Secrets => "-sandbox-secrets"
    case Certs => "-sandbox-certs"
    case TlsApi => "-sandbox-tls-api"
    case TlsRunner => "-sandbox-tls-runner"
    case Api => "-sandbox-api"
    case Runner => "-sandbox-runner-1"
    case DockerPvc => "-sandbox-runner-1-docker"
  }

  function Prefix(crNs: string, crName: string): string {
    crNs + "-" + crName
  }

  function NameOf(prefix: string, part: Part): string {
    prefix + Suffix(part)
  }

  function ApiUrl(prefix: string, sandboxNs: string): string {
    "http://" + NameOf(prefix, Api) + "." + sandboxNs + ".svc:8080"
  }

  // ----- Injectivity -----

  /** The character of a suffix, counted from its end. */
  function FromEnd(part: Part, k: nat): char
    requires k < 5
  {
    var s := Suffix(part);
    s[|s| - 1 - k]
  }

  lemma SuffixFree(a: Part, b: Part)
    requires forall k | 0 <= k < 5 :: FromEnd(a, k) == FromEnd(b, k)
    ensures a == b
  {
    assert FromEnd(a, 0) == FromEnd(b, 0) && FromEnd(a, 2) == FromEnd(b, 2) && FromEnd(a, 4) == FromEnd(b, 4);
  }

  /** A generated name determines both the prefix and what it is for, so different prefixes never share a name. */
  lemma NamesInjective(p: string, a: Part, q: string, b: Part)
    requires NameOf(p, a) == NameOf(q, b)
    ensures p == q && a == b
  {
    hide Suffix;
    var n := NameOf(p, a);
    forall k | 0 <= k < 5 ensures FromEnd(a, k) == FromEnd(b, k) {
      assert n[|n| - 1 - k] == FromEnd(a, k) && NameOf(q, b)[|n| - 1 - k] == FromEnd(b, k);
    }
    SuffixFree(a, b);
    assert p == n[..|n| - |Suffix(a)|] && q == n[..|n| - |Suffix(b)|];
  }

  predicate Dashed(ns: string) {
    '-' in ns
  }

  /** One namespace continues the other with a dash, and the names make up for it. */
  predicate Shifted(ns1: string, name1: string, ns2: string, name2: string) {
    && |ns1| < |ns2| && ns1 + "-" <= ns2
    && name1 == ns2[|ns1| + 1..] + "-" + name2
  }

  /** Exactly when two Assistants share a prefix. */
  lemma PrefixClash(ns1: string, name1: string, ns2: string, name2: string)
    ensures Prefix(ns1, name1) == Prefix(ns2, name2)
       <==> (ns1 == ns2 && name1 == name2) || Shifted(ns1, name1, ns2, name2) || Shifted(ns2, name2, ns1, name1)
  {
    if |ns1| < |ns2| {
      ClashShorter(ns1, name1, ns2, name2);
    } else if |ns2| < |ns1| {
      ClashShorter(ns2, name2, ns1, name1);
    } else if Prefix(ns1, name1) == Prefix(ns2, name2) {
      assert ns1 == Prefix(ns1, name1)[..|ns1|] && ns2 == Prefix(ns2, name2)[..|ns2|];
      assert name1 == Prefix(ns1, name1)[|ns1| + 1..] && name2 == Prefix(ns2, name2)[|ns2| + 1..];
    }
  }

  lemma ClashShorter(ns1: string, name1: string, ns2: string, name2: string)
    requires |ns1| < |ns2|
    ensures Prefix(ns1, name1) == Prefix(ns2, name2) <==> Shifted(ns1, name1, ns2, name2)
  {
    var p, q := Prefix(ns1, name1), Prefix(ns2, name2);
    if p == q {
      assert p[..|ns1| + 1] == ns1 + "-" && q[..|ns1| + 1] == ns2[..|ns1| + 1];
      assert name1 == p[|ns1| + 1..] && q[|ns1| + 1..] == ns2[|ns1| + 1..] + "-" + name2;
    }
    if Shifted(ns1, name1, ns2, name2) {
      assert ns2 == (ns1 + "-") + ns2[|ns1| + 1..];
      assert q == ns1 + "-" + (ns2[|ns1| + 1..] + "-" + name2);
    }
  }

  /** Within one namespace, and among namespaces without a dash, the prefix tells Assistants apart. */
  lemma PrefixInjective(ns1: string, name1: string, ns2: string, name2: string)
    requires Prefix(ns1, name1) == Prefix(ns2, name2)
    requires ns1 == ns2 || (!Dashed(ns1) && !Dashed(ns2))
    ensures ns1 == ns2 && name1 == name2
  {
    PrefixClash(ns1, name1, ns2, name2);
    ShiftedMeansDashed(ns1, name1, ns2, name2);
    ShiftedMeansDashed(ns2, name2, ns1, name1);
  }

  lemma ShiftedMeansDashed(ns1: string, name1: string, ns2: string, name2: string)
    ensures Shifted(ns1, name1, ns2, name2) ==> Dashed(ns2)
  {
    if Shifted(ns1, name1, ns2, name2) {
      assert ns2[|ns1|] == (ns1 + "-")[|ns1|];
    }
  }

  /** In general it does not: two valid Assistants whose stacks share every name. */
  lemma PrefixNotInjective()
    ensures Prefix("a-b", "c") == Prefix("a", "b-c")
  {}

  // ----- Labels -----

  const ASSISTANT_LABEL := "n8n.slys.dev/assistant"
  const ASSISTANT_NS_LABEL := "n8n.slys.dev/assistant-namespace"

  method MakeSandboxLabels(crNs: string, crName: string, component: string) returns (m: map<string, string>)
    ensures m == SandboxLabels(crNs, crName, component)
  {
    m := map[];
    m := m["app.kubernetes.io/name" := "n8n-sandbox"];
    m := m["app.kubernetes.io/instance" := crName];
    m := m["app.kubernetes.io/managed-by" := "n8n-rustful-operator"];
    m := m["app.kubernetes.io/part-of" := "n8n"];
    m := m["app.kubernetes.io/component" := component];
    m := m[ASSISTANT_LABEL := crName];
    m := m[ASSISTANT_NS_LABEL := crNs];
  }

  function SandboxLabels(crNs: string, crName: string, component: string): map<string, string> {
    map["app.kubernetes.io/name" := "n8n-sandbox", "app.kubernetes.io/instance" := crName,
        "app.kubernetes.io/managed-by" := "n8n-rustful-operator", "app.kubernetes.io/part-of" := "n8n",
        "app.kubernetes.io/component" := component, ASSISTANT_LABEL := crName, ASSISTANT_NS_LABEL := crNs]
  }

  /** The label selector of the cleanup. */
  function SandboxSelector(crNs: string, crName: string): map<string, string> {
    map[ASSISTANT_LABEL := crName, ASSISTANT_NS_LABEL := crNs]
  }

  lemma LabelKeysDiffer()
    ensures ASSISTANT_LABEL != ASSISTANT_NS_LABEL
  {
    assert |ASSISTANT_LABEL| < |ASSISTANT_NS_LABEL|;
  }

  /** Labels carry one Assistant's identity: they match its selector and no other's. */
  predicate Marked(labels: map<string, string>, crNs: string, crName: string) {
    && ASSISTANT_LABEL in labels && labels[ASSISTANT_LABEL] == crName
    && ASSISTANT_NS_LABEL in labels && labels[ASSISTANT_NS_LABEL] == crNs
  }

  lemma SandboxLabelsMarked(crNs: string, crName: string, component: string)
    ensures Marked(SandboxLabels(crNs, crName, component), crNs, crName)
  {
    LabelKeysDiffer();
  }

  predicate MatchesLabels(labels: map<string, string>, selector: map<string, string>) {
    forall k | k in selector :: k in labels && labels[k] == selector[k]
  }

  /** The selector picks out exactly the objects marked with both the namespace and the name. */
  lemma SelectorIsIdentity(labels: map<string, string>, crNs: string, crName: string)
    ensures MatchesLabels(labels, SandboxSelector(crNs, crName)) <==> Marked(labels, crNs, crName)
  {
    LabelKeysDiffer();
    assert ASSISTANT_LABEL in SandboxSelector(crNs, crName) && ASSISTANT_NS_LABEL in SandboxSelector(crNs, crName);
  }
}

/** `validate_assistant`. */
module AssistantValidate {
  import opened Wrappers
  import opened Resources
  import opened Rules
  import opened SandboxNames

  const PROVIDERS: set<string> := {"anthropic", "openai", "openrouter"}
  const NAME_SUFFIX := "-sandbox-runner-1-docker"
  const MAX_NAME := 63

  /** The two sides of the first occurrence of `sep`. */
  function SplitOnce(s: string, sep: char): Option<(string, string)> {
    if s == "" then None
    else if s[0] == sep then Some(("", s[1..]))
    else match SplitOnce(s[1..], sep)
      case Some(p) => Some(([s[0]] + p.0, p.1))
      case None => None
  }

  predicate Dns1123Char(c: char) {
    'a' <= c <= 'z' || '0' <= c <= '9' || c == '-'
  }

  predicate IsDns1123Label(s: string) {
    && s != "" && |s| <= 63
    && (forall c | c in s :: Dns1123Char(c))
    && s[0] != '-' && s[|s| - 1] != '-'
  }

  predicate KeyRefAllowed(r: SecretKeyRef) {
    r.name != "" && r.key != "" && r.key != "encryption_key"
  }

  predicate ModelAllowed(a: Assistant) {
    if a.modelUrl.Some? then a.modelName != ""
    else
      match SplitOnce(a.modelName, '/')
      case None => false
      case Some(p) => p.0 in PROVIDERS && p.1 != "" && a.modelKey.Some?
  }

  predicate AssistantAllowed(a: Assistant) {
    && (a.targetKind == "Cluster" || a.targetKind == "Single")
    && a.targetName != ""
    && ModelAllowed(a)
    && (a.modelKey.Some? ==> KeyRefAllowed(a.modelKey.value))
    && (a.brave.Some? ==> KeyRefAllowed(a.brave.value))
    && IsDns1123Label(a.SandboxNamespace())
    && a.version != "" && a.sandboxImage != ""
    && |a.ns + "-" + a.name + NAME_SUFFIX| <= MAX_NAME
  }

  /** The cut is at the first `sep`. */
  lemma {:induction false} SplitsAtFirst(s: string, sep: char)
    ensures SplitOnce(s, sep).None? <==> sep !in s
    ensures SplitOnce(s, sep).Some? ==>
              var p := SplitOnce(s, sep).value; s == p.0 + [sep] + p.1 && sep !in p.0
  {
    if s != "" && s[0] != sep {
      SplitsAtFirst(s[1..], sep);
    }
  }

  lemma {:induction false} SplitsThere(s: string, head: string, sep: char)
    requires sep !in head && |head| < |s| && s[..|head| + 1] == head + [sep]
    ensures SplitOnce(s, sep) == Some((head, s[|head| + 1..]))
    decreases |head|
  {
    assert s[|head|] == (head + [sep])[|head|];
    if head != "" {
      assert s[0] == s[..|head| + 1][0] == head[0];
      assert s[1..][..|head|] == s[..|head| + 1][1..] == head[1..] + [sep];
      SplitsThere(s[1..], head[1..], sep);
      assert [head[0]] + head[1..] == head;
    }
  }

  /** A provider's models: its name, a slash, and something more. */
  lemma ProviderOf(n: string, head: string)
    requires '/' !in head
    ensures SplitOnce(n, '/').Some? && SplitOnce(n, '/').value.0 == head && SplitOnce(n, '/').value.1 != ""
       <==> |n| > |head| + 1 && n[..|head| + 1] == head + "/"
  {
    SplitsAtFirst(n, '/');
    if |n| > |head| + 1 && n[..|head| + 1] == head + "/" {
      SplitsThere(n, head, '/');
    }
  }

  lemma ModelLegal(a: Assistant)
    ensures ModelAllowed(a) <==> LegalModel(a)
  {
    hide SplitOnce;
    assert |"anthropic"| == 9 && |"openai"| == 6 && |"openrouter"| == 10;
    assert "anthropic" + "/" == "anthropic/" && "openai" + "/" == "openai/" && "openrouter" + "/" == "openrouter/";
    ProviderOf(a.modelName, "anthropic");
    ProviderOf(a.modelName, "openai");
    ProviderOf(a.modelName, "openrouter");
  }

  /** Exactly the legal Assistants are admitted. */
  lemma AllowedMeansLegal(a: Assistant)
    ensures AssistantAllowed(a) <==> LegalAssistant(a)
  {
    hide ModelAllowed, LegalModel;
    ModelLegal(a);
    var n := a.SandboxNamespace();
    assert (forall c | c in n :: Dns1123Char(c)) <==> forall i | 0 <= i < |n| :: Dns1123Char(n[i]);
    assert |NAME_SUFFIX| == 24 && |a.ns + "-" + a.name + NAME_SUFFIX| == |a.ns| + 1 + |a.name| + 24;
  }

  /**
   Every name generated for a validated Assistant, the Docker volume claim included, fits a DNS label. The
   bound is the tightest one for the longest name.
   */
  lemma NamesFit(a: Assistant, part: Part)
    requires AssistantAllowed(a)
    ensures |NameOf(Prefix(a.ns, a.name), part)| <= 63
  {
    assert |Suffix(part)| <= |NAME_SUFFIX|;
  }

  /** A prefix is accepted exactly as long as all its names fit. */
  lemma BoundIsTight(ns: string, name: string)
    ensures |ns + "-" + name + NAME_SUFFIX| <= MAX_NAME <==> forall part: Part :: |NameOf(Prefix(ns, name), part)| <= 63
  {
    assert Suffix(DockerPvc) == NAME_SUFFIX;
    assert |NameOf(Prefix(ns, name), DockerPvc)| == |ns + "-" + name + NAME_SUFFIX|;
    forall part: Part ensures |Suffix(part)| <= |NAME_SUFFIX| {
    }
  }

  /** Two validated Assistants, in different namespaces, that share every generated name. */
  lemma ValidAssistantsClash(a: Assistant, b: Assistant)
    requires AssistantAllowed(a) && a.ns == "a-b" && a.name == "c" && a.sandboxNs == Some("sandbox")
    requires b == a.(ns := "a", name := "b-c")
    ensures AssistantAllowed(b) && a.SandboxNamespace() == b.SandboxNamespace()
    ensures Prefix(a.ns, a.name) == Prefix(b.ns, b.name)
    ensures forall part :: NameOf(Prefix(a.ns, a.name), part) == NameOf(Prefix(b.ns, b.name), part)
  {
    PrefixNotInjective();
  }
}

/** The publishing program of the bootstrap Job: its command line, what it collects and what it writes. */
module Tlspub {
  import opened Wrappers
  import opened Kube
  import opened Server
  import opened Builders
  import opened Resources
  import opened SandboxNames
  import opened AssistantValidate

  // ----- Command line -----

  /** The word after the first occurrence of a flag, over overlapping pairs of words. */
  function Flag(args: seq<string>, name: string): Option<string> {
    if |args| < 2 then None
    else if args[0] == name then Some(args[1])
    else Flag(args[1..], name)
  }

  function Repeated(args: seq<string>, name: string): seq<string> {
    if |args| < 2 then []
    else (if args[0] == name then [args[1]] else []) + Repeated(args[1..], name)
  }

  /** Every pair is split at its first `=`; a later pair replaces an earlier one. */
  function ParseLabels(pairs: seq<string>): Option<map<string, string>> {
    if pairs == [] then Some(map[])
    else match (ParseLabels(pairs[..|pairs| - 1]), SplitOnce(pairs[|pairs| - 1], '='))
      case (Some(m), Some(kv)) => Some(m[kv.0 := kv.1])
      case _ => None
  }

  const MANAGED_BY := "app.kubernetes.io/managed-by"

  datatype Options = Options(dir: string, ns: string, apiSecret: string, runnerSecret: string, labels: map<string,
                             string>)

  function Parse(args: seq<string>): Option<Options> {
    match (Flag(args, "--dir"), Flag(args, "--namespace"), Flag(args, "--api-secret"), Flag(args, "--runner-secret"),
           ParseLabels(Repeated(args, "--label")))
    case (Some(dir), Some(ns), Some(api), Some(runner), Some(labels)) => Some(Options(dir, ns, api, runner, labels))
    case _ => None
  }

  /** The words of the Job's container, the program's own name first. */
  function JobArgs(crNs: string, crName: string, sandboxNs: string): seq<string> {
    var prefix := Prefix(crNs, crName);
    ["/app/tlspub", "--dir", "/tls", "--namespace", sandboxNs, "--api-secret", NameOf(prefix, TlsApi),
     "--runner-secret", NameOf(prefix, TlsRunner),
     "--label", ASSISTANT_LABEL + "=" + crName,
     "--label", ASSISTANT_NS_LABEL + "=" + crNs,
     "--label", MANAGED_BY + "=" + "n8n-rustful-operator"]
  }

  function JobLabels(crNs: string, crName: string): map<string, string> {
    map[ASSISTANT_LABEL := crName, ASSISTANT_NS_LABEL := crNs, MANAGED_BY := "n8n-rustful-operator"]
  }

  function JobOptions(crNs: string, crName: string, sandboxNs: string): Options {
    var prefix := Prefix(crNs, crName);
    Options("/tls", sandboxNs, NameOf(prefix, TlsApi), NameOf(prefix, TlsRunner), JobLabels(crNs, crName))
  }

  // ----- Laws of the parser -----

  lemma {:induction false} FlagAt(args: seq<string>, name: string, i: nat)
    requires i + 1 < |args| && args[i] == name && forall j | 0 <= j < i :: args[j] != name
    ensures Flag(args, name) == Some(args[i + 1])
  {
    if i > 0 {
      FlagAt(args[1..], name, i - 1);
    }
  }

  lemma {:induction false} RepeatedFrom(args: seq<string>, name: string, i: nat)
    requires i <= |args| && forall j | 0 <= j < i :: args[j] != name
    ensures Repeated(args, name) == Repeated(args[i..], name)
    decreases i
  {
    if i > 0 && |args| >= 2 {
      RepeatedFrom(args[1..], name, i - 1);
      assert args[1..][i - 1..] == args[i..];
    }
  }

  lemma {:induction false} SplitAtFirst(k: string, v: string, sep: char)
    requires sep !in k
    ensures SplitOnce(k + [sep] + v, sep) == Some((k, v))
  {
    if k == "" {
      assert k + [sep] + v == [sep] + v;
    } else {
      SplitAtFirst(k[1..], v, sep);
      assert (k + [sep] + v)[1..] == k[1..] + [sep] + v;
      assert [k[0]] + k[1..] == k;
    }
  }

  const FLAGS: set<string> := {"--dir", "--namespace", "--api-secret", "--runner-secret", "--label"}

  /** None of the words that stand for values is a flag, apart from what the sandbox namespace may be. */
  lemma ValuesAreNotFlags(crNs: string, crName: string, flag: string)
    requires flag in FLAGS
    ensures flag != "/app/tlspub" && flag != "/tls" && flag != NameOf(Prefix(crNs, crName), TlsApi)
    ensures flag != NameOf(Prefix(crNs, crName), TlsRunner)
  {
    assert flag[0] == '-' && "/app/tlspub"[0] == '/' && "/tls"[0] == '/';
    var api, runner := NameOf(Prefix(crNs, crName), TlsApi), NameOf(Prefix(crNs, crName), TlsRunner);
    assert |api| >= 16 && |runner| >= 16;
    assert |flag| <= 15;
  }

  lemma FlagLengths()
    ensures |"--dir"| == 5 && |"--namespace"| == 11 && |"--api-secret"| == 12 && |"--runner-secret"| == 15
        && |"--label"| == 7
    ensures "--dir" in FLAGS && "--namespace" in FLAGS && "--api-secret" in FLAGS && "--runner-secret" in FLAGS
        && "--label" in FLAGS
  {}

  /** The command line with every word abstract: `d`, `n`, `a`, `r`, `l` are the flags, the others their values. */
  function Words(program: string, d: string, dir: string, n: string, ns: string, a: string, api: string, r: string,
                 runner: string, l: string, l1: string, l2: string, l3: string): seq<string>
  {
    [program, d, dir, n, ns, a, api, r, runner, l, l1, l, l2, l, l3]
  }

  predicate NoFlag(v: string, d: string, n: string, a: string, r: string, l: string) {
    v != d && v != n && v != a && v != r && v != l
  }

  lemma WordsParse(program: string, d: string, dir: string, n: string, ns: string, a: string, api: string, r: string,
                   runner: string, l: string, l1: string, l2: string, l3: string)
    requires d != n && d != a && d != r && d != l && n != a && n != r && n != l && a != r && a != l && r != l
    requires NoFlag(program, d, n, a, r, l) && NoFlag(dir, d, n, a, r, l) && NoFlag(api, d, n, a, r, l)
    requires NoFlag(runner, d, n, a, r, l) && NoFlag(l1, d, n, a, r, l)
    requires NoFlag(l2, d, n, a, r, l) && NoFlag(l3, d, n, a, r, l)
    ensures var w := Words(program, d, dir, n, ns, a, api, r, runner, l, l1, l2, l3);
            && Flag(w, d) == Some(dir) && Flag(w, n) == Some(ns)
            && Flag(w, a) == Some(if ns == a then a else api)
            && Flag(w, r) == Some(if ns == r then a else runner)
            && Repeated(w, l) == (if ns == l then [a] else []) + [l1, l2, l3]
  {
    hide Flag, Repeated;
    var w := Words(program, d, dir, n, ns, a, api, r, runner, l, l1, l2, l3);
    FlagAt(w, d, 1);
    FlagAt(w, n, 3);
    FlagAt(w, a, if ns == a then 4 else 5);
    FlagAt(w, r, if ns == r then 4 else 7);
    WordsRepeat(w, l);
  }

  lemma WordsRepeat(w: seq<string>, l: string)
    requires |w| == 15 && w[9] == l && w[11] == l && w[13] == l
    requires forall i | 0 <= i < 15 && i != 4 && i != 9 && i != 11 && i != 13 :: w[i] != l
    ensures Repeated(w, l) == (if w[4] == l then [w[5]] else []) + [w[10], w[12], w[14]]
  {
    assert Repeated(w[9..], l) == [w[10], w[12], w[14]] by {
      assert Repeated(w[14..], l) == [];
      assert w[13..][1..] == w[14..] && w[12..][1..] == w[13..] && w[11..][1..] == w[12..];
      assert Repeated(w[13..], l) == [w[14]];
      assert Repeated(w[11..], l) == [w[12]] + Repeated(w[12..], l);
      assert w[10..][1..] == w[11..] && w[9..][1..] == w[10..];
      assert Repeated(w[9..], l) == [w[10]] + Repeated(w[10..], l);
    }
    if w[4] == l {
      RepeatedFrom(w, l, 4);
      assert w[4..][1..] == w[5..];
      RepeatedFrom(w[5..], l, 4);
      assert w[5..][4..] == w[9..];
    } else {
      RepeatedFrom(w, l, 9);
    }
  }

  /** Three well-formed pairs with different keys. */
  lemma ThreePairs(k1: string, v1: string, k2: string, v2: string, k3: string, v3: string)
    requires '=' !in k1 && '=' !in k2 && '=' !in k3
    ensures ParseLabels([k1 + "=" + v1, k2 + "=" + v2, k3 + "=" + v3]) == Some(map[k1 := v1][k2 := v2][k3 := v3])
  {
    var p1, p2, p3 := k1 + "=" + v1, k2 + "=" + v2, k3 + "=" + v3;
    SplitAtFirst(k1, v1, '=');
    SplitAtFirst(k2, v2, '=');
    SplitAtFirst(k3, v3, '=');
    hide SplitOnce;
    assert [p1][..0] == [] && [p1, p2][..1] == [p1] && [p1, p2, p3][..2] == [p1, p2];
    assert ParseLabels([p1]) == Some(map[k1 := v1]);
    assert ParseLabels([p1, p2]) == Some(map[k1 := v1][k2 := v2]);
  }

  lemma {:induction false} NoPair(pairs: seq<string>, p: string)
    requires p in pairs && SplitOnce(p, '=').None?
    ensures ParseLabels(pairs).None?
    decreases |pairs|
  {
    if pairs[|pairs| - 1] != p {
      NoPair(pairs[..|pairs| - 1], p);
    }
  }

  lemma {:induction false} NoSeparator(s: string, sep: char)
    requires sep !in s
    ensures SplitOnce(s, sep).None?
  {
    if s != "" {
      NoSeparator(s[1..], sep);
    }
  }

  lemma LabelWords(crNs: string, crName: string, flag: string)
    requires flag in FLAGS
    ensures flag != ASSISTANT_LABEL + "=" + crName && flag != ASSISTANT_NS_LABEL + "=" + crNs
    ensures flag != MANAGED_BY + "=" + "n8n-rustful-operator"
  {
    assert flag[0] == '-';
    assert (ASSISTANT_LABEL + "=" + crName)[0] == 'n' && (ASSISTANT_NS_LABEL + "=" + crNs)[0] == 'n';
    assert (MANAGED_BY + "=" + "n8n-rustful-operator")[0] == 'a';
  }

  lemma LabelsParse(crNs: string, crName: string)
    ensures ParseLabels([ASSISTANT_LABEL + "=" + crName, ASSISTANT_NS_LABEL + "=" + crNs,
                         MANAGED_BY + "=" + "n8n-rustful-operator"])
         == Some(JobLabels(crNs, crName))
  {
    LabelKeysPlain();
    ThreePairs(ASSISTANT_LABEL, crName, ASSISTANT_NS_LABEL, crNs, MANAGED_BY, "n8n-rustful-operator");
    hide ParseLabels, ASSISTANT_LABEL, ASSISTANT_NS_LABEL;
    assert map[ASSISTANT_LABEL := crName][ASSISTANT_NS_LABEL := crNs][MANAGED_BY := "n8n-rustful-operator"]
        == JobLabels(crNs, crName);
  }

  lemma LabelKeysPlain()
    ensures '=' !in ASSISTANT_LABEL && '=' !in ASSISTANT_NS_LABEL && '=' !in MANAGED_BY
  {}

  /**
   The Job's command line parses back to what it was built from, exactly unless the sandbox namespace is itself
   one of the three flags that come after it.
   */
  lemma CommandLineRoundTrip(crNs: string, crName: string, sandboxNs: string)
    ensures Parse(JobArgs(crNs, crName, sandboxNs)) == Some(JobOptions(crNs, crName, sandboxNs))
       <==> sandboxNs != "--api-secret" && sandboxNs != "--runner-secret" && sandboxNs != "--label"
  {
    hide Flag, Repeated, ParseLabels, FLAGS, NameOf, Prefix, ASSISTANT_LABEL, ASSISTANT_NS_LABEL, MANAGED_BY;
    var prefix := Prefix(crNs, crName);
    var api, runner := NameOf(prefix, TlsApi), NameOf(prefix, TlsRunner);
    var l1, l2, l3 := ASSISTANT_LABEL + "=" + crName, ASSISTANT_NS_LABEL + "=" + crNs,
        MANAGED_BY + "=" + "n8n-rustful-operator";
    FlagLengths();
    ValuesAreNotFlags(crNs, crName, "--dir");
    ValuesAreNotFlags(crNs, crName, "--namespace");
    ValuesAreNotFlags(crNs, crName, "--api-secret");
    ValuesAreNotFlags(crNs, crName, "--runner-secret");
    ValuesAreNotFlags(crNs, crName, "--label");
    LabelWords(crNs, crName, "--dir");
    LabelWords(crNs, crName, "--namespace");
    LabelWords(crNs, crName, "--api-secret");
    LabelWords(crNs, crName, "--runner-secret");
    LabelWords(crNs, crName, "--label");
    WordsParse("/app/tlspub", "--dir", "/tls", "--namespace", sandboxNs, "--api-secret", api, "--runner-secret", runner,
               "--label", l1, l2, l3);
    LabelsParse(crNs, crName);
    assert JobArgs(crNs, crName, sandboxNs)
        == Words("/app/tlspub", "--dir", "/tls", "--namespace", sandboxNs, "--api-secret", api, "--runner-secret",
                 runner,
                 "--label", l1, l2, l3);
    assert [] + [l1, l2, l3] == [l1, l2, l3];
    if sandboxNs == "--label" {
      NoSeparator("--api-secret", '=');
      NoPair(["--api-secret"] + [l1, l2, l3], "--api-secret");
    }
  }

  /**
   For every validated Assistant the Job gets what the operator meant, and its labels match the cleanup's selector.
   */
  lemma JobParsesBack(a: Assistant)
    requires AssistantAllowed(a)
    ensures Parse(JobArgs(a.ns, a.name, a.SandboxNamespace())) == Some(JobOptions(a.ns, a.name, a.SandboxNamespace()))
    ensures MatchesLabels(JobLabels(a.ns, a.name), SandboxSelector(a.ns, a.name))
  {
    hide Parse, JobArgs, JobOptions;
    CommandLineRoundTrip(a.ns, a.name, a.SandboxNamespace());
    assert "--api-secret"[0] == '-' && "--runner-secret"[0] == '-' && "--label"[0] == '-';
    JobLabelsMarked(a.ns, a.name);
    SelectorIsIdentity(JobLabels(a.ns, a.name), a.ns, a.name);
  }

  lemma JobLabelsMarked(crNs: string, crName: string)
    ensures Marked(JobLabels(crNs, crName), crNs, crName)
  {
    assert |ASSISTANT_LABEL| == 22 && |ASSISTANT_NS_LABEL| == 32 && |MANAGED_BY| == 28;
  }

  // ----- Collecting and publishing -----

  datatype Side = ApiSide | RunnerSide

  const API_FILES: seq<string> :=
    ["ca.crt", "grpc-server.crt", "grpc-server.key", "control-grpc-api-client.crt", "control-grpc-api-client.key"]
  const RUNNER_FILES: seq<string> :=
    ["ca.crt", "grpc-client.crt", "grpc-client.key", "control-grpc-server.crt", "control-grpc-server.key"]

  function Whitelist(side: Side): seq<string> {
    if side.ApiSide? then API_FILES else RUNNER_FILES
  }

  function PathOf(dir: string, side: Side, file: string): string {
    dir + (if side.ApiSide? then "/api/" else "/runner/") + file
  }

  /** The whitelisted files of one side, or nothing if one cannot be read. */
  function Collected(disk: map<string, string>, dir: string, side: Side): Option<map<string, string>> {
    if forall f | f in Whitelist(side) :: PathOf(dir, side, f) in disk
    then Some(map f | f in Whitelist(side) && PathOf(dir, side, f) in disk :: disk[PathOf(dir, side, f)])
    else None
  }

  method Collect(disk: map<string, string>, dir: string, side: Side) returns (r: Option<map<string, string>>)
    ensures r == Collected(disk, dir, side)
  {
    hide API_FILES, RUNNER_FILES;
    var files := Whitelist(side);
    var out: map<string, string> := map[];
    for i := 0 to |files|
      invariant out.Keys == set f | f in files[..i]
      invariant forall f | f in out :: PathOf(dir, side, f) in disk && out[f] == disk[PathOf(dir, side, f)]
    {
      assert files[..i + 1] == files[..i] + [files[i]];
      var path := PathOf(dir, side, files[i]);
      if path !in disk {
        return None;
      }
      out := out[files[i] := disk[path]];
    }
    assert files[..|files|] == files;
    r := Some(out);
    assert out == Collected(disk, dir, side).value;
  }

  lemma NotListed(f: string, side: Side)
    requires f == "ca.key" || f == "root-ca.key"
    ensures f !in Whitelist(side)
  {
    var files := Whitelist(side);
    forall i | 0 <= i < |files| ensures files[i] != f {
      if i == 0 {
        assert files[0][3] == 'c' && |files[0]| == 6;
      } else {
        assert |files[i]| > 11;
      }
    }
  }

  function TlsSecret(labels: map<string, string>, data: map<string, string>): Fields {
    LabelFields(labels) + DataFields(data)
  }

  /** Both Secrets in order, or nothing when the command line or the files are incomplete. */
  function PublishPlan(args: seq<string>, disk: map<string, string>): Plan {
    match Parse(args)
    case None => Plan([], false)
    case Some(o) =>
      match (Collected(disk, o.dir, ApiSide), Collected(disk, o.dir, RunnerSide))
      case (Some(api), Some(runner)) =>
        Plan([ Put(Key(Secret, o.ns, o.apiSecret), TlsSecret(o.labels, api)),
               Put(Key(Secret, o.ns, o.runnerSecret), TlsSecret(o.labels, runner)) ], true)
      case _ => Plan([], false)
  }

  /** Both disks answer alike wherever a whitelisted file may lie. */
  predicate SameListed(d1: map<string, string>, d2: map<string, string>, dir: string) {
    forall side: Side, f: string | f in Whitelist(side) ::
      && (PathOf(dir, side, f) in d1 <==> PathOf(dir, side, f) in d2)
      && (PathOf(dir, side, f) in d1 ==> d1[PathOf(dir, side, f)] == d2[PathOf(dir, side, f)])
  }

  lemma SameCollected(d1: map<string, string>, d2: map<string, string>, dir: string, side: Side)
    requires SameListed(d1, d2, dir)
    ensures Collected(d1, dir, side) == Collected(d2, dir, side)
  {
    hide Whitelist, PathOf;
    assert (forall f | f in Whitelist(side) :: PathOf(dir, side, f) in d1)
      <==> (forall f | f in Whitelist(side) :: PathOf(dir, side, f) in d2);
    if Collected(d1, dir, side).Some? {
      assert Collected(d1, dir, side).value == Collected(d2, dir, side).value;
    }
  }

  /** What is published depends on the whitelisted paths alone, whatever else the disk holds. */
  lemma OnlyListedFiles(args: seq<string>, d1: map<string, string>, d2: map<string, string>)
    requires Parse(args).Some? ==> SameListed(d1, d2, Parse(args).value.dir)
    ensures PublishPlan(args, d1) == PublishPlan(args, d2)
  {
    hide Parse, Whitelist, PathOf;
    if Parse(args).Some? {
      var dir := Parse(args).value.dir;
      SameCollected(d1, d2, dir, ApiSide);
      SameCollected(d1, d2, dir, RunnerSide);
    }
  }

  /**
   The root CA's private key, which the bootstrap script leaves beside the two directories, has no influence on what
   is published: the Secrets are the same for every key and for none. No published entry has a CA key's name either.
   */
  lemma NoCaKey(args: seq<string>, disk: map<string, string>, key: string, side: Side)
    requires Parse(args).Some?
    ensures var path := Parse(args).value.dir + "/ca.key";
            PublishPlan(args, disk[path := key]) == PublishPlan(args, disk) == PublishPlan(args, disk - {path})
    ensures "ca.key" !in Whitelist(side) && "root-ca.key" !in Whitelist(side)
  {
    hide Parse, PublishPlan;
    NotListed("ca.key", side);
    NotListed("root-ca.key", side);
    var dir := Parse(args).value.dir;
    var path := dir + "/ca.key";
    forall s: Side, f: string | f in Whitelist(s) ensures PathOf(dir, s, f) != path {
      NamesAreLong(f, s);
      assert |PathOf(dir, s, f)| > |path|;
    }
    OnlyListedFiles(args, disk[path := key], disk);
    OnlyListedFiles(args, disk - {path}, disk);
  }

  lemma NamesAreLong(f: string, side: Side)
    requires f in Whitelist(side)
    ensures |f| >= 6
  {}

  /** `run`: nothing is published before everything has been read, and the api Secret comes first. */
  method RunTlspub(server: ApiServer, args: seq<string>, disk: map<string, string>) returns (ok: bool)
    requires server.Valid()
    modifies server`store, server`log, server`faults
    ensures server.Valid() && server.faults >= old(server.faults)
    ensures Conforms(old(server.log), server.log, PublishPlan(args, disk), ok, server.faults == old(server.faults))
    ensures old(server.log) < server.log ==>
              PublishPlan(args, disk).ops != [] && server.log[|old(server.log)|] == PublishPlan(args, disk).ops[0]
  {
    hide Parse, Collected, Run, TlsSecret;
    var o := Parse(args);
    if o.None? {
      return false;
    }
    var api := Collect(disk, o.value.dir, ApiSide);
    if api.None? {
      return false;
    }
    var runner := Collect(disk, o.value.dir, RunnerSide);
    if runner.None? {
      return false;
    }
    var first := Put(Key(Secret, o.value.ns, o.value.apiSecret), TlsSecret(o.value.labels, api.value));
    var second := Put(Key(Secret, o.value.ns, o.value.runnerSecret), TlsSecret(o.value.labels, runner.value));
    assert PublishPlan(args, disk) == Plan([first, second], true);
    ok := WriteBoth(server, first, second);
  }

  method WriteBoth(server: ApiServer, first: Op, second: Op) returns (ok: bool)
    requires server.Valid() && !server.Refused(first) && !server.Refused(second)
    modifies server`store, server`log, server`faults
    ensures server.Valid() && server.faults >= old(server.faults)
    ensures Conforms(old(server.log), server.log, Plan([first, second], true), ok, server.faults == old(server.faults))
    ensures old(server.log) < server.log ==> server.log[|old(server.log)|] == first
  {
    hide Conforms, Run;
    ghost var start, startFaults := server.log, server.faults;
    var out := server.Write(first);
    ghost var log, faults := server.log, server.faults;
    ConformsWrite(start, log, first, out.Pass?, faults == startFaults);
    assert Then(Plan([first], true), Plan([second], true)) == Plan([first, second], true);
    if out.Fail? {
      ConformsStop(start, log, Plan([first], true), Plan([second], true), faults == startFaults);
      return false;
    }
    out := server.Write(second);
    ok := out.Pass?;
    ConformsWrite(log, server.log, second, ok, server.faults == faults);
    ConformsThen(start, log, server.log, Plan([first], true), Plan([second], true), ok, faults == startFaults,
                 server.faults == faults);
  }

  // ----- What is in the Secrets -----

  /** Every one of these files is declared under its name with what the disk has of it, and no other file is. */
  predicate Carries(t: Store, k: Key, disk: map<string, string>, dir: string, files: seq<string>) {
    && k in t.objects
    && (forall f | f in files :: dir + f in disk && Shows(t, k, Data(f), Text(disk[dir + f])))
    && (forall p | p in t.objects[k].owned && p.Data? :: p.name in files)
  }

  lemma TlsFieldsExact(labels: map<string, string>, data: map<string, string>, f: string)
    ensures Data(f) in TlsSecret(labels, data) <==> f in data
    ensures f in data ==> TlsSecret(labels, data)[Data(f)] == Text(data[f])
  {
    assert forall p | p in LabelFields(labels) :: p.Label?;
    DataFieldExact(data, f);
    hide LabelFields, DataFields;
  }

  lemma DataFieldExact(data: map<string, string>, f: string)
    ensures Data(f) in DataFields(data) <==> f in data
    ensures f in data ==> DataFields(data)[Data(f)] == Text(data[f])
  {
    if f in data {
      assert Data(f) in DataFields(data);
    }
  }

  lemma SecretCarries(t: Store, k: Key, labels: map<string, string>, disk: map<string, string>, dir: string, side: Side)
    requires Collected(disk, dir, side).Some?
    requires Settled(t, Put(k, TlsSecret(labels, Collected(disk, dir, side).value)))
    ensures Carries(t, k, disk, dir + (if side.ApiSide? then "/api/" else "/runner/"), Whitelist(side))
  {
    hide Whitelist, TlsSecret;
    var data := Collected(disk, dir, side).value;
    forall f: string ensures Data(f) in TlsSecret(labels, data) <==> f in data
      ensures f in data ==> TlsSecret(labels, data)[Data(f)] == Text(data[f])
    {
      TlsFieldsExact(labels, data, f);
    }
    forall p | p in t.objects[k].owned && p.Data? ensures p.name in Whitelist(side) {
      assert p == Data(p.name);
    }
  }

  /**
   A successful run over the words of a validated Assistant's Job leaves the api's five files in the api's Secret and
   the runner's five in the runner's, each with the contents it has on the disk.
   */
  lemma SidesInPlace(base: Store, before: seq<Op>, after: seq<Op>, a: Assistant, disk: map<string, string>, clean: bool)
    requires AssistantAllowed(a)
    requires Conforms(before, after, PublishPlan(JobArgs(a.ns, a.name, a.SandboxNamespace()), disk), true, clean)
    ensures var t, home, stem := Run(base, after), a.SandboxNamespace(), a.ns + "-" + a.name;
            && Carries(t, Key(Secret, home, stem + "-sandbox-tls-api"), disk, "/tls/api/",
                       ["ca.crt", "grpc-server.crt", "grpc-server.key", "control-grpc-api-client.crt",
                        "control-grpc-api-client.key"])
            && Carries(t, Key(Secret, home, stem + "-sandbox-tls-runner"), disk, "/tls/runner/",
                       ["ca.crt", "grpc-client.crt", "grpc-client.key", "control-grpc-server.crt",
                        "control-grpc-server.key"])
  {
    hide AssistantAllowed, Parse, JobArgs, Collected, JobLabels, Thinned, Run, Carries, TlsSecret, Settled, API_FILES,
         RUNNER_FILES;
    JobParsesBack(a);
    var home, labels := a.SandboxNamespace(), JobLabels(a.ns, a.name);
    var plan := PublishPlan(JobArgs(a.ns, a.name, home), disk);
    var made, s := after[|before|..], Run(base, before);
    assert plan.ok && |plan.ops| == 2;
    ThinnedExact(made, plan.ops);
    assert before + made == after;
    RunConcat(base, before, made);
    SecretNamesDiffer(a);
    RunSettles(s, made, 0);
    RunSettles(s, made, 1);
    SecretCarries(Run(s, made), plan.ops[0].key, labels, disk, "/tls", ApiSide);
    SecretCarries(Run(s, made), plan.ops[1].key, labels, disk, "/tls", RunnerSide);
    FilesAre();
  }

  lemma FilesAre()
    ensures API_FILES == ["ca.crt", "grpc-server.crt", "grpc-server.key", "control-grpc-api-client.crt",
                          "control-grpc-api-client.key"]
    ensures RUNNER_FILES == ["ca.crt", "grpc-client.crt", "grpc-client.key", "control-grpc-server.crt",
                             "control-grpc-server.key"]
    ensures "/tls" + "/api/" == "/tls/api/" && "/tls" + "/runner/" == "/tls/runner/"
  {}

  lemma SecretNamesDiffer(a: Assistant)
    ensures var stem := a.ns + "-" + a.name;
            && NameOf(Prefix(a.ns, a.name), TlsApi) == stem + "-sandbox-tls-api"
            && NameOf(Prefix(a.ns, a.name), TlsRunner) == stem + "-sandbox-tls-runner"
            && stem + "-sandbox-tls-api" != stem + "-sandbox-tls-runner"
  {
    var stem := a.ns + "-" + a.name;
    assert |stem + "-sandbox-tls-api"| + 3 == |stem + "-sandbox-tls-runner"|;
  }

  predicate Complete(disk: map<string, string>, dir: string, files: seq<string>) {
    forall f | f in files :: dir + f in disk
  }

  lemma CollectedIff(disk: map<string, string>, side: Side)
    ensures Collected(disk, "/tls", side).Some?
       <==> Complete(disk, "/tls" + (if side.ApiSide? then "/api/" else "/runner/"), Whitelist(side))
  {
    hide Whitelist;
  }

  /**
   The run over the words of a validated Assistant's Job is refused exactly if one of the ten files is missing; it
   writes the api's Secret first.
   */
  lemma CompleteOrNothing(a: Assistant, disk: map<string, string>)
    requires AssistantAllowed(a)
    ensures var plan := PublishPlan(JobArgs(a.ns, a.name, a.SandboxNamespace()), disk);
            && (plan.ok <==>
                  && Complete(disk, "/tls/api/", ["ca.crt", "grpc-server.crt", "grpc-server.key",
                                                  "control-grpc-api-client.crt", "control-grpc-api-client.key"])
                  && Complete(disk, "/tls/runner/", ["ca.crt", "grpc-client.crt", "grpc-client.key",
                                                     "control-grpc-server.crt", "control-grpc-server.key"]))
            && (!plan.ok ==> plan.ops == [])
            && (plan.ok ==>
                  && |plan.ops| == 2
                  && plan.ops[0].key == Key(Secret, a.SandboxNamespace(), a.ns + "-" + a.name + "-sandbox-tls-api")
                  && plan.ops[1].key == Key(Secret, a.SandboxNamespace(), a.ns + "-" + a.name + "-sandbox-tls-runner"))
  {
    hide AssistantAllowed, Parse, JobArgs, JobLabels, TlsSecret, API_FILES, RUNNER_FILES, Complete, Collected;
    FilesAre();
    SecretNamesDiffer(a);
    JobParsesBack(a);
    CollectedIff(disk, ApiSide);
    CollectedIff(disk, RunnerSide);
  }
}

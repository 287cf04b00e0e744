/** Failure-compatible types shared by every module. */
module Wrappers {
  datatype Option<+T> = None | Some(value: T) {
    function GetOr(default: T): T {
      match this
      case Some(v) => v
      case None => default
    }
  }

  /** The operator's error enum, without the message texts. */
  datatype Error =
    | KubeError
    | ConflictingNetworking
    | IllegalSingle
    | IllegalDatabase
    | IllegalCluster
    | IllegalEnv
    | IllegalSmtp
    | IllegalStrategy
    | IllegalAssistant

  datatype Result<+T> = Ok(value: T) | Err(error: Error)

  datatype Outcome = Pass | Fail(error: Error) {
    predicate IsFailure() { Fail? }
    function PropagateFailure(): Outcome
      requires Fail?
    {
      this
    }
  }
}

/**
 The Kubernetes API server as the operator sees it: a map of objects, each with
 field values, the fields this operator's field manager owns, the fields other
 managers own, and a resource version. Writes are values of type `Op`, so that a
 reconcile pass is a sequence of writes and its effect is `Run`.
 */
module Kube {
  import opened Wrappers

  datatype Kind =
    | Deployment | Service | Ingress | HTTPRoute | HorizontalPodAutoscaler | DestinationRule
    | PersistentVolumeClaim | Secret | Job | ServiceAccount | Role | RoleBinding
    | Namespace | ClusterResource | SingleResource | AssistantResource

  datatype Key = Key(kind: Kind, ns: string, name: string)

  datatype EnvValue = Inline(text: string) | FromSecret(secret: string, key: string)
  datatype EnvEntry = EnvEntry(name: string, value: EnvValue)

  /** A field of an object. Map entries are separate fields, as in server-side apply; lists are atomic. */
  datatype Path =
    | Label(name: string)
    | Annotation(name: string)
    | PodLabel(name: string)
    | PodAnnotation(name: string)
    | SelectorLabel(name: string)
    | Data(name: string)
    | Status(name: string)
    | Replicas
    | EnvList
    | Spec(name: string)

  datatype Value =
    | Text(text: string)
    | Number(number: int)
    | Truth(truth: bool)
    | Texts(texts: seq<string>)
    | Environment(entries: seq<EnvEntry>)

  type Fields = map<Path, Value>

  datatype Object = Object(fields: Fields, owned: set<Path>, others: set<Path>, version: nat) {
    /** What this operator's field manager has declared and still owns. */
    function Owned(): Fields {
      map p | p in owned && p in fields :: fields[p]
    }
  }

  datatype Store = Store(objects: map<Key, Object>, clock: nat) {
    function Find(k: Key): Option<Object> {
      if k in objects then Some(objects[k]) else None
    }

    function Written(k: Key, o: Object): Store {
      Store(objects[k := o.(version := clock + 1)], clock + 1)
    }
  }

  /** `Discard` is a removal that a pass may report success without. */
  datatype Op =
    | Put(key: Key, want: Fields)
    | Create(key: Key, want: Fields)
    | Remove(key: Key)
    | Discard(key: Key)
    | Purge(kind: Kind, ns: string, selector: map<string, string>)

  // ----- Server-side apply -----

  function Overridden(o: Object, want: Fields): set<Path> {
    set p | p in want && p in o.fields && o.fields[p] != want[p]
  }

  /** Forced server-side apply on a live object: what the manager owned alone and now omits is dropped. */
  function Merged(o: Object, want: Fields): Object {
    Object((o.fields - ((o.owned - want.Keys) - o.others)) + want,
           want.Keys, o.others - Overridden(o, want), o.version)
  }

  function Applied(s: Store, k: Key, want: Fields): Store {
    if k !in s.objects then
      s.Written(k, Object(want, want.Keys, {}, 0))
    else
      var m := Merged(s.objects[k], want);
      if m == s.objects[k] then s else s.Written(k, m)
  }

  /** A plain create is tracked under another manager name, so an apply never owns its fields. */
  function Created(s: Store, k: Key, want: Fields): Store {
    if k in s.objects then s else s.Written(k, Object(want, {}, want.Keys, 0))
  }

  predicate Matches(o: Object, selector: map<string, string>) {
    forall l | l in selector :: Label(l) in o.fields && o.fields[Label(l)] == Text(selector[l])
  }

  function Purged(s: Store, kind: Kind, ns: string, selector: map<string, string>): Store {
    s.(objects := map k | k in s.objects && !(k.kind == kind && k.ns == ns && Matches(s.objects[k], selector))
      :: s.objects[k])
  }

  function Step(s: Store, op: Op): Store {
    match op
    case Put(k, want) => Applied(s, k, want)
    case Create(k, want) => Created(s, k, want)
    case Remove(k) => s.(objects := s.objects - {k})
    case Discard(k) => s.(objects := s.objects - {k})
    case Purge(kind, ns, selector) => Purged(s, kind, ns, selector)
  }

  function Run(s: Store, ops: seq<Op>): Store
    decreases |ops|
  {
    if ops == [] then s else Run(Step(s, ops[0]), ops[1..])
  }

  /** An update of one field by some other field manager, such as the autoscaler's scale write. */
  function ForeignUpdate(s: Store, k: Key, p: Path, v: Value): Store {
    if k !in s.objects || (p in s.objects[k].fields && s.objects[k].fields[p] == v) then s
    else
      var o := s.objects[k];
      s.Written(k, Object(o.fields[p := v], o.owned - {p}, o.others + {p}, o.version))
  }

  // ----- Laws of one write -----

  /** The write has nothing left to do. */
  predicate Settled(s: Store, op: Op) {
    match op
    case Put(k, want) => k in s.objects && s.objects[k].owned == want.Keys
                         && (forall p | p in want :: p in s.objects[k].fields && s.objects[k].fields[p] == want[p])
    case Create(k, _) => k in s.objects
    case Remove(k) => k !in s.objects
    case Discard(k) => k !in s.objects
    case Purge(kind, ns, selector) =>
      forall k | k in s.objects && k.kind == kind && k.ns == ns :: !Matches(s.objects[k], selector)
  }

  lemma SettledMeansDone(s: Store, op: Op)
    requires Settled(s, op)
    ensures Step(s, op) == s
  {
    match op
    case Put(k, want) =>
      var o := s.objects[k];
      assert (o.fields - ((o.owned - want.Keys) - o.others)) + want == o.fields;
      assert Merged(o, want) == o;
    case Create(_, _) =>
    case Remove(k) => assert s.objects - {k} == s.objects;
    case Discard(k) => assert s.objects - {k} == s.objects;
    case Purge(kind, ns, selector) =>
      assert Purged(s, kind, ns, selector).objects == s.objects;
  }

  lemma StepSettles(s: Store, op: Op)
    ensures Settled(Step(s, op), op)
  {}

  /** A repeated apply changes nothing, so the resource version stays. */
  lemma ApplyTwice(s: Store, k: Key, want: Fields)
    ensures Applied(Applied(s, k, want), k, want) == Applied(s, k, want)
  {
    StepSettles(s, Put(k, want));
    SettledMeansDone(Applied(s, k, want), Put(k, want));
  }

  /** Pruning is exact: a field leaves the object if and only if this manager alone owned it and now omits it. */
  lemma ApplyPrunes(s: Store, k: Key, want: Fields, p: Path)
    requires k in s.objects && p in s.objects[k].fields && p !in want
    ensures k in Applied(s, k, want).objects
    ensures var t, o := Applied(s, k, want).objects[k], s.objects[k];
            && (p in t.fields <==> !(p in o.owned && p !in o.others))
            && (p in t.fields ==> t.fields[p] == o.fields[p])
            && p !in t.owned
  {}

  // ----- Laws of a pass -----

  predicate Keyed(ops: seq<Op>) {
    forall op | op in ops :: !op.Purge?
  }

  predicate Distinct(ops: seq<Op>)
    requires Keyed(ops)
  {
    forall i, j | 0 <= i < j < |ops| :: ops[i].key != ops[j].key
  }

  lemma {:induction false} RunConcat(s: Store, a: seq<Op>, b: seq<Op>)
    ensures Run(s, a + b) == Run(Run(s, a), b)
    decreases |a|
  {
    if a == [] {
      assert a + b == b;
    } else {
      assert (a + b)[1..] == a[1..] + b;
      RunConcat(Step(s, a[0]), a[1..], b);
    }
  }

  /** A pass leaves every object it does not name exactly as it was. */
  lemma {:induction false} RunFrame(s: Store, ops: seq<Op>, k: Key)
    requires Keyed(ops)
    requires forall op | op in ops :: op.key != k
    ensures Run(s, ops).Find(k) == s.Find(k)
    decreases |ops|
  {
    if ops != [] {
      assert ops[0] in ops;
      assert Step(s, ops[0]).Find(k) == s.Find(k);
      RunFrame(Step(s, ops[0]), ops[1..], k);
    }
  }

  /** When no two writes of a pass name the same object, each one is settled at its end. */
  lemma {:induction false} RunSettles(s: Store, ops: seq<Op>, i: nat)
    requires Keyed(ops) && Distinct(ops) && i < |ops|
    ensures Settled(Run(s, ops), ops[i])
    decreases |ops|
  {
    var t := Step(s, ops[0]);
    if i == 0 {
      StepSettles(s, ops[0]);
      forall op | op in ops[1..] ensures op.key != ops[0].key {
        var j :| 0 <= j < |ops[1..]| && ops[1..][j] == op;
        assert ops[j + 1] == op;
      }
      RunFrame(t, ops[1..], ops[0].key);
      assert ops[0].key in t.objects <==> ops[0].key in Run(s, ops).objects;
    } else {
      RunSettles(t, ops[1..], i - 1);
    }
  }

  /** A write is settled in the end, too, when it is the only one that names its object, however often it is made. */
  lemma {:induction false} RunSettlesOnly(s: Store, ops: seq<Op>, op: Op)
    requires Keyed(ops) && op in ops && forall x | x in ops :: x.key == op.key ==> x == op
    ensures Settled(Run(s, ops), op)
    decreases |ops|
  {
    hide Settled;
    var t, rest := Step(s, ops[0]), ops[1..];
    assert ops == [ops[0]] + rest && forall x | x in rest :: x in ops;
    if op in rest {
      RunSettlesOnly(t, rest, op);
    } else {
      StepSettles(s, op);
      RunFrame(t, rest, op.key);
      SettledByObject(t, Run(t, rest), op);
    }
  }

  lemma SettledByObject(s: Store, t: Store, op: Op)
    requires !op.Purge? && s.Find(op.key) == t.Find(op.key) && Settled(s, op)
    ensures Settled(t, op)
  {}

  /** An apply that alone names its object has in a pass the effect it has by itself, resource version aside. */
  lemma {:induction false} RunActs(s: Store, ops: seq<Op>, op: Op)
    requires Keyed(ops) && Distinct(ops) && op in ops && op.Put?
    ensures op.key in Run(s, ops).objects && op.key in Step(s, op).objects
    ensures Run(s, ops).objects[op.key].(version := 0) == Step(s, op).objects[op.key].(version := 0)
    decreases |ops|
  {
    hide Merged;
    var t, rest := Step(s, ops[0]), ops[1..];
    assert forall i | 0 <= i < |rest| :: rest[i] == ops[i + 1];
    var i :| 0 <= i < |ops| && ops[i] == op;
    if i == 0 {
      RunFrame(t, rest, op.key);
      assert Run(t, rest).Find(op.key) == t.Find(op.key);
    } else {
      assert rest[i - 1] == op;
      RunActs(t, rest, op);
      assert t.Find(op.key) == s.Find(op.key);
    }
  }

  lemma {:induction false} RunOfSettled(s: Store, ops: seq<Op>)
    requires forall op | op in ops :: Settled(s, op)
    ensures Run(s, ops) == s
  {
    if ops != [] {
      assert ops[0] in ops;
      SettledMeansDone(s, ops[0]);
      RunOfSettled(s, ops[1..]);
    }
  }

  /** Repeating a pass over distinct objects is the identity, resource versions included. */
  lemma RunTwice(s: Store, ops: seq<Op>)
    requires Keyed(ops) && Distinct(ops)
    ensures Run(Run(s, ops), ops) == Run(s, ops)
  {
    forall op | op in ops ensures Settled(Run(s, ops), op) {
      var i :| 0 <= i < |ops| && ops[i] == op;
      RunSettles(s, ops, i);
    }
    RunOfSettled(Run(s, ops), ops);
  }

  lemma StepKeeps(s: Store, op: Op, k: Key)
    requires k in s.objects && !op.Purge? && op != Remove(k) && op != Discard(k)
    ensures k in Step(s, op).objects
  {}

  /** An object survives any writes that never remove it. */
  lemma {:induction false} RunKeeps(s: Store, ops: seq<Op>, k: Key)
    requires k in s.objects
    requires forall op | op in ops :: !op.Purge? && op != Remove(k) && op != Discard(k)
    ensures k in Run(s, ops).objects
    decreases |ops|
  {
    hide Step;
    if ops != [] {
      assert ops[0] in ops && forall op | op in ops[1..] :: op in ops;
      StepKeeps(s, ops[0], k);
      RunKeeps(Step(s, ops[0]), ops[1..], k);
    }
  }

  /** A created object keeps its content under any later creates. */
  lemma {:induction false} CreatedStays(s: Store, ops: seq<Op>, k: Key)
    requires k in s.objects && forall op | op in ops :: !op.Purge? && (op.key == k ==> op.Create?)
    ensures Run(s, ops).Find(k) == s.Find(k)
    decreases |ops|
  {
    if ops != [] {
      assert ops[0] in ops;
      CreatedStays(Step(s, ops[0]), ops[1..], k);
    }
  }

  lemma SameKeySameWrite(ops: seq<Op>, x: Op, y: Op)
    requires Keyed(ops) && Distinct(ops) && x in ops && y in ops && x.key == y.key
    ensures x == y
  {
    var i :| 0 <= i < |ops| && ops[i] == x;
    var j :| 0 <= j < |ops| && ops[j] == y;
  }

  /** The object is there and has this field with this value. */
  predicate Shows(s: Store, k: Key, p: Path, v: Value) {
    k in s.objects && p in s.objects[k].fields && s.objects[k].fields[p] == v
  }

  /** The text of a field, if there is one. */
  function TextAt(s: Store, k: Key, p: Path): Option<string> {
    if k in s.objects && p in s.objects[k].fields && s.objects[k].fields[p].Text? then Some(s.objects[k].fields[p].text)
    else None
  }

  predicate Touches(op: Op, k: Key) {
    !op.Purge? && op.key == k
  }

  /** The resource's status says it is ready. */
  predicate Ready(s: Store, k: Key) {
    k in s.objects && Status("ready") in s.objects[k].fields && s.objects[k].fields[Status("ready")] == Truth(true)
  }

  lemma NeverReports(s: Store, ops: seq<Op>, k: Key)
    requires !Ready(s, k) && forall op | op in ops :: !op.Purge? && !Touches(op, k)
    ensures !Ready(Run(s, ops), k)
  {
    hide Run;
    RunFrame(s, ops, k);
    assert Run(s, ops).Find(k) == s.Find(k);
  }
}

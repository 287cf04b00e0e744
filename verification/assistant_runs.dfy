/** Runs of an Assistant's life, and the two promises about them: the pin is write-once, the cleanup is complete. */
module AssistantRuns {
  import opened Wrappers
  import opened Kube
  import opened Server
  import opened Resources
  import opened Builders
  import opened SandboxNames
  import opened AssistantValidate
  import opened AssistantObjects
  import opened AssistantPlans
  import opened AssistantApply
  import opened AssistantLife
  import CreateOnce

  /** An object of a purged kind under the Assistant's identity labels. */
  predicate Ours(s: Store, crNs: string, crName: string, k: Key) {
    k in s.objects && k.kind in PURGED_KINDS && MarkedFields(s.objects[k].fields, crNs, crName)
  }

  /**
   `round` is the spec snapshot of a reconcile under way, `pod` the namespace of a live bootstrap pod, `touched` the
   namespaces that have received sandbox objects.
   */
  datatype Life = Life(store: Store, spec: Assistant, round: Option<Assistant>, pod: Option<string>,
                       touched: set<string>)

  datatype Event =
    | Edit(spec: Assistant)
    | Begin | Write(op: Op) | End
    | PodStarts(ns: string) | PodPublishes(op: Op) | PodEnds
    | Others(store: Store)

  predicate Publication(s: Life, op: Op) {
    && op.Put? && op.key.kind.Secret? && s.pod == Some(op.key.ns)
    && MarkedFields(op.want, s.spec.ns, s.spec.name)
  }

  /** Other clients may do anything but forge the identity labels or write this Assistant's status. */
  ghost predicate Tolerated(s: Life, t: Store) {
    && t.Find(StatusKey(s.spec)) == s.store.Find(StatusKey(s.spec))
    && forall k :: Ours(t, s.spec.ns, s.spec.name, k) ==> Ours(s.store, s.spec.ns, s.spec.name, k)
  }

  /**
   A reconcile works on a snapshot of the spec and, with the previous status write in it, passes admission or is
   over.
   */
  ghost predicate Enabled(s: Life, e: Event) {
    match e
    case Edit(b) => b.ns == s.spec.ns && b.name == s.spec.name
    case Begin => s.round.None? && Admitted(s.store, s.spec, PinOf(s.store, s.spec))
    case Write(op) => s.round.Some? && ReconcileOp(s.round.value, op)
    case End => s.round.Some?
    case PodStarts(ns) => s.pod.None?
                          && Ours(s.store, s.spec.ns, s.spec.name,
                                  Key(Job, ns, NameOf(Prefix(s.spec.ns, s.spec.name), Certs)))
    case PodPublishes(op) => Publication(s, op)
    case PodEnds => s.pod.Some?
    case Others(t) => Tolerated(s, t)
  }

  ghost function Next(s: Life, e: Event): Life
    requires Enabled(s, e)
  {
    match e
    case Edit(b) => s.(spec := b)
    case Begin => s.(round := Some(s.spec))
    case Write(op) => s.(store := Step(s.store, op),
                         touched := s.touched + if SandboxOp(s.round.value, op) && !op.Remove? then {op.key.ns} else {})
    case End => s.(round := None)
    case PodStarts(ns) => s.(pod := Some(ns))
    case PodPublishes(op) => s.(store := Step(s.store, op), touched := s.touched + {op.key.ns})
    case PodEnds => s.(pod := None)
    case Others(t) => s.(store := t)
  }

  ghost function Exec(s: Life, es: seq<Event>): Option<Life>
    decreases |es|
  {
    if es == [] then Some(s)
    else match Exec(s, es[..|es| - 1])
      case None => None
      case Some(t) => if Enabled(t, es[|es| - 1]) then Some(Next(t, es[|es| - 1])) else None
  }

  // ----- The pin is write-once -----

  function Pin(s: Life): Option<string> {
    PinOf(s.store, s.spec)
  }

  /** A reconcile under way agrees with whatever is pinned. */
  predicate RoundAgrees(s: Life) {
    s.round.Some? ==>
      && s.round.value.ns == s.spec.ns && s.round.value.name == s.spec.name
      && PinAllows(Pin(s), s.round.value.SandboxNamespace())
  }

  lemma StepKeepsPin(s: Life, e: Event)
    requires RoundAgrees(s) && Enabled(s, e)
    ensures RoundAgrees(Next(s, e))
    ensures Pin(s).Some? ==> Pin(Next(s, e)) == Pin(s)
    ensures Pin(s).None? && Pin(Next(s, e)).Some? ==>
              e.Write? && StatusOp(s.round.value, e.op) && Pin(Next(s, e)) == Some(s.round.value.SandboxNamespace())
  {
    hide AssistantAllowed, MarkedFields, PURGED_KINDS, PIN, NameOf, Prefix, InstanceAiSecret, Ours;
    match e {
      case Write(op) => WriteAndPin(s.store, s.round.value, op);
      case PodPublishes(op) => OtherKey(s.store, s.spec, op);
      case Others(t) =>
      case _ =>
    }
  }

  lemma OtherKey(s: Store, a: Assistant, op: Op)
    requires op.Put? && op.key != StatusKey(a)
    ensures PinOf(Step(s, op), a) == PinOf(s, a)
  {
    assert Step(s, op).Find(StatusKey(a)) == s.Find(StatusKey(a));
  }

  lemma WriteAndPin(s: Store, a: Assistant, op: Op)
    requires ReconcileOp(a, op)
    ensures StatusOp(a, op) ==> PinOf(Step(s, op), a) == Some(a.SandboxNamespace())
    ensures !StatusOp(a, op) ==> PinOf(Step(s, op), a) == PinOf(s, a)
  {
    hide MarkedFields, PIN, InstanceAiSecret;
    if StatusOp(a, op) {
      StepSettles(s, op);
    } else {
      assert Step(s, op).Find(StatusKey(a)) == s.Find(StatusKey(a));
    }
  }

  /**
   The namespace pin is write-once: through any applies, failed or complete, waiting rounds, spec edits and pruning
   status writes, a recorded namespace is never dropped or changed.
   */
  lemma {:induction false} PinIsWriteOnce(s: Life, es: seq<Event>)
    requires RoundAgrees(s) && Exec(s, es).Some?
    ensures RoundAgrees(Exec(s, es).value)
    ensures Pin(s).Some? ==> Pin(Exec(s, es).value) == Pin(s)
    decreases |es|
  {
    hide Enabled, Next, RoundAgrees, Pin;
    if es != [] {
      PinIsWriteOnce(s, es[..|es| - 1]);
      StepKeepsPin(Exec(s, es[..|es| - 1]).value, es[|es| - 1]);
    }
  }

  // ----- The cleanup, on any store -----

  lemma MatchesIsMarked(o: Object, crNs: string, crName: string)
    ensures Matches(o, SandboxSelector(crNs, crName)) <==> MarkedFields(o.fields, crNs, crName)
  {
    LabelKeysDiffer();
    var sel := SandboxSelector(crNs, crName);
    assert ASSISTANT_LABEL in sel && ASSISTANT_NS_LABEL in sel && sel[ASSISTANT_LABEL] == crName
        && sel[ASSISTANT_NS_LABEL] == crNs;
  }

  lemma {:induction false} PurgesExact(s: Store, kinds: seq<Kind>, ns: string, crNs: string, crName: string, k: Key)
    ensures Run(s, PurgeOps(kinds, ns, crNs, crName)).Find(k)
         == if k.ns == ns && k.kind in kinds && k in s.objects && MarkedFields(s.objects[k].fields, crNs, crName)
            then None else s.Find(k)
    decreases |kinds|
  {
    hide MarkedFields, SandboxSelector;
    if kinds != [] {
      var ops := PurgeOps(kinds, ns, crNs, crName);
      var t := Step(s, ops[0]);
      assert ops[1..] == PurgeOps(kinds[1..], ns, crNs, crName);
      assert kinds == [kinds[0]] + kinds[1..];
      PurgesExact(t, kinds[1..], ns, crNs, crName, k);
      if k in s.objects {
        MatchesIsMarked(s.objects[k], crNs, crName);
      }
    }
  }

  /**
   Exactly what a cleanup does to a store: in the home namespace the objects under this Assistant's identity are
   gone, of every kind the operator creates there; every other object is as it was.
   */
  lemma CleanupExact(s: Store, a: Assistant, pin: Option<string>, k: Key)
    ensures Run(s, CleanupOps(a, pin)).Find(k)
         == if Ours(s, a.ns, a.name, k) && k.ns == Home(a, pin) then None else s.Find(k)
  {
    hide Run, PURGED_KINDS, MarkedFields;
    PurgesExact(s, PURGED_KINDS, Home(a, pin), a.ns, a.name, k);
  }

  /** What carries another Assistant's labels when the purge comes survives it. */
  lemma OtherMarksSurvive(s: Store, a: Assistant, pin: Option<string>, otherNs: string, otherName: string, k: Key)
    requires (otherNs, otherName) != (a.ns, a.name)
    requires k in s.objects && MarkedFields(s.objects[k].fields, otherNs, otherName)
    ensures Run(s, CleanupOps(a, pin)).Find(k) == s.Find(k)
  {
    hide Run, PURGED_KINDS;
    CleanupExact(s, a, pin, k);
  }

  // ----- The cleanup, at the end of a run -----

  /** The namespace is only edited once it is pinned, or before a reconcile has begun to build the stack. */
  predicate Careful(s: Life, e: Event) {
    e.Edit? && e.spec.SandboxNamespace() != s.spec.SandboxNamespace() ==>
        Pin(s).Some? || (s.round.None? && s.touched == {})
  }

  ghost predicate CarefulRun(s: Life, es: seq<Event>)
    requires Exec(s, es).Some?
    decreases |es|
  {
    es == [] || (CarefulRun(s, es[..|es| - 1]) && Careful(Exec(s, es[..|es| - 1]).value, es[|es| - 1]))
  }

  function HomeOf(s: Life): string {
    Home(s.spec, Pin(s))
  }

  /** The specs a run goes through. */
  ghost function Versions(s: Life, es: seq<Event>): set<Assistant>
    decreases |es|
  {
    if es == [] then {s.spec}
    else Versions(s, es[..|es| - 1]) + if es[|es| - 1].Edit? then {es[|es| - 1].spec} else {}
  }

  /** The target Secret of one of these specs. */
  ghost predicate TargetOf(specs: set<Assistant>, k: Key) {
    exists b :: b in specs && k == TargetKey(b)
  }

  /** Everything of ours is at home, apart from the target Secrets of the specs so far. */
  ghost predicate Gathered(s: Life, specs: set<Assistant>) {
    && RoundAgrees(s)
    && s.touched <= {HomeOf(s)}
    && (s.round.Some? ==> s.round.value.SandboxNamespace() == HomeOf(s) && s.round.value in specs)
    && (s.pod.Some? ==> s.pod.value in s.touched)
    && s.spec in specs && (forall b | b in specs :: b.ns == s.spec.ns)
    && forall k | Ours(s.store, s.spec.ns, s.spec.name, k) :: k.ns in s.touched || TargetOf(specs, k)
  }

  lemma WrittenKeys(s: Store, op: Op, crNs: string, crName: string, k: Key)
    requires !op.Purge? && Ours(Step(s, op), crNs, crName, k)
    ensures Ours(s, crNs, crName, k) || (op.key == k && !op.Remove?)
  {
    hide MarkedFields, PURGED_KINDS;
    if op.key != k {
      assert Step(s, op).Find(k) == s.Find(k);
    }
  }

  lemma HomeStays(s: Life, e: Event, specs: set<Assistant>)
    requires Gathered(s, specs) && Enabled(s, e) && Careful(s, e)
    ensures HomeOf(Next(s, e)) == HomeOf(s) || (s.touched == {} && s.round.None? && Next(s, e).round.None?)
    ensures RoundAgrees(Next(s, e))
  {
    StepKeepsPin(s, e);
    hide RoundAgrees, Admitted, MarkedFields, PURGED_KINDS, PinOf, Ours, SandboxOp, TargetOp;
    if e.Edit? {
      assert Pin(Next(s, e)) == Pin(s) by { SamePin(s.store, s.spec, e.spec); }
    }
  }

  lemma SamePin(s: Store, a: Assistant, b: Assistant)
    requires a.ns == b.ns && a.name == b.name
    ensures PinOf(s, a) == PinOf(s, b)
  {}

  lemma TouchedAtHome(s: Life, e: Event, specs: set<Assistant>)
    requires Gathered(s, specs) && Enabled(s, e)
    requires HomeOf(Next(s, e)) == HomeOf(s) || (s.touched == {} && s.round.None? && Next(s, e).round.None?)
    ensures Next(s, e).touched <= {HomeOf(Next(s, e))}
    ensures Next(s, e).round.Some? ==> Next(s, e).round.value.SandboxNamespace() == HomeOf(Next(s, e))
  {
    hide RoundAgrees, MarkedFields, PURGED_KINDS, Ours, PinOf, TargetOp, StatusOp, AssistantAllowed;
  }

  lemma OursAtHome(s: Life, e: Event, specs: set<Assistant>, k: Key)
    requires Gathered(s, specs) && Enabled(s, e) && Ours(Next(s, e).store, s.spec.ns, s.spec.name, k)
    ensures k.ns in Next(s, e).touched || TargetOf(specs, k)
  {
    StatusNotPurged();
    hide MarkedFields, PURGED_KINDS, Pin, Admitted, HomeOf, Step;
    match e {
      case Write(op) => WrittenKeys(s.store, op, s.spec.ns, s.spec.name, k);
      case PodPublishes(op) => WrittenKeys(s.store, op, s.spec.ns, s.spec.name, k);
      case _ =>
    }
  }

  lemma StatusNotPurged()
    ensures AssistantResource !in PURGED_KINDS && Namespace !in PURGED_KINDS
  {}

  lemma PodAtHome(s: Life, e: Event, specs: set<Assistant>)
    requires Gathered(s, specs) && Enabled(s, e)
    ensures Next(s, e).pod.Some? ==> Next(s, e).pod.value in Next(s, e).touched
  {
    hide RoundAgrees, MarkedFields, PURGED_KINDS, Pin, Admitted, HomeOf, Step, SandboxOp, TargetOp, StatusOp, Ours,
        NameOf, Prefix;
  }

  lemma StepKeepsGathered(s: Life, e: Event, specs: set<Assistant>)
    requires Gathered(s, specs) && Enabled(s, e) && Careful(s, e)
    ensures Gathered(Next(s, e), specs + if e.Edit? then {e.spec} else {})
  {
    HomeStays(s, e, specs);
    TouchedAtHome(s, e, specs);
    PodAtHome(s, e, specs);
    var t, more := Next(s, e), specs + if e.Edit? then {e.spec} else {};
    assert t.spec.ns == s.spec.ns && t.spec.name == s.spec.name;
    forall k | Ours(t.store, t.spec.ns, t.spec.name, k) ensures k.ns in t.touched || TargetOf(more, k) {
      OursAtHome(s, e, specs, k);
    }
  }

  lemma {:induction false} RunKeepsGathered(s: Life, es: seq<Event>)
    requires Gathered(s, {s.spec}) && Exec(s, es).Some? && CarefulRun(s, es)
    ensures Gathered(Exec(s, es).value, Versions(s, es))
    ensures Exec(s, es).value.spec.ns == s.spec.ns && Exec(s, es).value.spec.name == s.spec.name
    decreases |es|
  {
    hide Gathered, Careful;
    if es != [] {
      RunKeepsGathered(s, es[..|es| - 1]);
      StepKeepsGathered(Exec(s, es[..|es| - 1]).value, es[|es| - 1], Versions(s, es[..|es| - 1]));
    }
  }

  /** Before the operator has seen the resource: nothing of its identity exists. */
  ghost predicate Unborn(s: Life) {
    s.round.None? && s.pod.None? && s.touched == {} && forall k :: !Ours(s.store, s.spec.ns, s.spec.name, k)
  }

  /**
   The cleanup is complete: at the end of every careful run, with no reconcile under way and no bootstrap pod alive, it
   leaves nothing under the Assistant's identity but the target Secrets of the specs of that run, and those only if
   the stack lived in another namespace.
   */
  lemma CleanupComplete(s: Life, es: seq<Event>, k: Key)
    requires Unborn(s) && Exec(s, es).Some? && CarefulRun(s, es)
    requires Exec(s, es).value.round.None? && Exec(s, es).value.pod.None?
    ensures var t := Exec(s, es).value;
            Ours(Run(t.store, CleanupOps(t.spec, Pin(t))), s.spec.ns, s.spec.name, k)
            ==> TargetOf(Versions(s, es), k) && k.ns == s.spec.ns && k.ns != HomeOf(t)
  {
    hide Run, Ours, PURGED_KINDS, Enabled, Next, Pin, Careful, CleanupOps;
    var t := Exec(s, es).value;
    RunKeepsGathered(s, es);
    CleanupExact(t.store, t.spec, Pin(t), k);
    SameObject(t.store, Run(t.store, CleanupOps(t.spec, Pin(t))), s.spec.ns, s.spec.name, k);
  }

  lemma SameObject(s: Store, t: Store, crNs: string, crName: string, k: Key)
    ensures t.Find(k) == s.Find(k) ==> (Ours(t, crNs, crName, k) <==> Ours(s, crNs, crName, k))
    ensures t.Find(k) == None ==> !Ours(t, crNs, crName, k)
  {}

  // ----- What falls outside -----

  lemma Play(s: Life, es: seq<Event>, t: Life, e: Event)
    requires Exec(s, es) == Some(t) && Enabled(t, e)
    ensures Exec(s, es + [e]) == Some(Next(t, e))
  {
    assert (es + [e])[..|es|] == es;
  }

  lemma Start(s: Life)
    ensures Exec(s, []) == Some(s)
  {}

  /** A first round that creates the shared Secret; admission needs an unpinned status and an existing namespace. */
  predicate FirstRound(s: Life, b: Assistant) {
    && Admitted(s.store, s.spec, None) && Pin(s).None? && At(s.spec, Secret, Secrets) !in s.store.objects
    && b.ns == s.spec.ns && b.name == s.spec.name && b.SandboxNamespace() != s.spec.SandboxNamespace()
  }

  lemma FirstWrite(s: Life, b: Assistant, drawn: map<string, string>)
    requires FirstRound(s, b)
    ensures var op := Create(At(s.spec, Secret, Secrets), SharedSecret(s.spec, drawn));
            && SandboxOp(s.spec, op)
            && Ours(Step(s.store, op), b.ns, b.name, op.key) && PinOf(Step(s.store, op), b).None?
            && Step(s.store, op).Find(op.key).Some?
  {
    hide SandboxMeta, SharedSecret, Admitted, AssistantAllowed, NameOf, Prefix, PIN, MarkedFields;
    SecretOps(s.store, s.spec, drawn);
    var op := Create(At(s.spec, Secret, Secrets), SharedSecret(s.spec, drawn));
    assert op in SecretsPart(s.store, s.spec, drawn).ops;
    assert Step(s.store, op).Find(StatusKey(b)) == s.store.Find(StatusKey(b));
  }

  lemma Escapes(s: Store, b: Assistant, k: Key)
    requires Ours(s, b.ns, b.name, k) && PinOf(s, b).None? && k.ns != b.SandboxNamespace()
    ensures Ours(Run(s, CleanupOps(b, PinOf(s, b))), b.ns, b.name, k)
  {
    hide Run, Ours, PURGED_KINDS;
    CleanupExact(s, b, PinOf(s, b), k);
    SameObject(s, Run(s, CleanupOps(b, PinOf(s, b))), b.ns, b.name, k);
  }

  /** A first apply that fails before its status write, then a namespace edit: the cleanup looks in the wrong place. */
  lemma FailedFirstApplyEscapes(s: Life, b: Assistant, drawn: map<string, string>)
    requires Unborn(s) && FirstRound(s, b)
    ensures var k := At(s.spec, Secret, Secrets);
            var es := [Begin] + [Write(Create(k, SharedSecret(s.spec, drawn)))] + [End] + [Edit(b)];
            && Exec(s, es).Some?
            && var t := Exec(s, es).value;
               t.round.None? && t.pod.None? && Ours(Run(t.store, CleanupOps(t.spec, Pin(t))), s.spec.ns, s.spec.name, k)
  {
    hide Run, Ours, Admitted, SandboxOp, PinOf, SharedSecret, At, CleanupOps;
    var op := Create(At(s.spec, Secret, Secrets), SharedSecret(s.spec, drawn));
    FirstWrite(s, b, drawn);
    Start(s);
    Play(s, [], s, Begin);
    var s1 := s.(round := Some(s.spec));
    assert [] + [Begin] == [Begin];
    Play(s, [Begin], s1, Write(op));
    var s2 := Next(s1, Write(op));
    Play(s, [Begin] + [Write(op)], s2, End);
    Play(s, [Begin] + [Write(op)] + [End], s2.(round := None), Edit(b));
    SecretAt(s.spec);
    Escapes(s2.store, b, op.key);
  }

  lemma SecretAt(a: Assistant)
    ensures At(a, Secret, Secrets).ns == a.SandboxNamespace()
  {}

  /** The same happens when the edit comes between the snapshot and the first write of that round. */
  lemma EditDuringFirstRoundEscapes(s: Life, b: Assistant, drawn: map<string, string>)
    requires Unborn(s) && FirstRound(s, b)
    ensures var k := At(s.spec, Secret, Secrets);
            var es := [Begin] + [Edit(b)] + [Write(Create(k, SharedSecret(s.spec, drawn)))] + [End];
            && Exec(s, es).Some?
            && var t := Exec(s, es).value;
               t.round.None? && t.pod.None? && Ours(Run(t.store, CleanupOps(t.spec, Pin(t))), s.spec.ns, s.spec.name, k)
  {
    hide Run, Ours, Admitted, SandboxOp, PinOf, SharedSecret, At, CleanupOps;
    var op := Create(At(s.spec, Secret, Secrets), SharedSecret(s.spec, drawn));
    FirstWrite(s, b, drawn);
    Start(s);
    Play(s, [], s, Begin);
    var s1 := s.(round := Some(s.spec));
    assert [] + [Begin] == [Begin];
    Play(s, [Begin], s1, Edit(b));
    var s2 := s1.(spec := b);
    Play(s, [Begin] + [Edit(b)], s2, Write(op));
    var s3 := Next(s2, Write(op));
    Play(s, [Begin] + [Edit(b)] + [Write(op)], s3, End);
    SecretAt(s.spec);
    Escapes(s3.store, b, op.key);
  }

  /** A bootstrap pod that outlives the purge publishes a Secret nobody removes. */
  lemma LatePublicationSurvives(s: Life, op: Op)
    requires Publication(s, op)
    ensures var purged := Run(s.store, CleanupOps(s.spec, Pin(s)));
            Ours(Step(purged, op), s.spec.ns, s.spec.name, op.key)
  {
    hide Run, MarkedFields, CleanupOps, Pin;
    var purged := Run(s.store, CleanupOps(s.spec, Pin(s)));
    StepSettles(purged, op);
    MarkedAfterPut(purged, op, s.spec.ns, s.spec.name);
  }

  lemma MarkedAfterPut(s: Store, op: Op, crNs: string, crName: string)
    requires op.Put? && MarkedFields(op.want, crNs, crName) && Settled(Step(s, op), op)
    ensures MarkedFields(Step(s, op).objects[op.key].fields, crNs, crName)
  {}

  /** With a snapshot older than the last status write, admission passes and the next status write moves the pin. */
  lemma StaleSnapshotMovesPin(s: Store, a: Assistant, target: Option<string>)
    requires AssistantAllowed(a) && NamespaceKey(a.SandboxNamespace()) in s.objects
    requires PinOf(s, a).Some? && PinOf(s, a).value != a.SandboxNamespace()
    ensures Admitted(s, a, None) && !Admitted(s, a, PinOf(s, a))
    ensures var op := Put(StatusKey(a), StatusFields(WaitingStatus(a.SandboxNamespace(), target)));
            PinOf(Step(s, op), a) == Some(a.SandboxNamespace())
  {
    hide AssistantAllowed, StatusFields;
    StatusOps(a, WaitingStatus(a.SandboxNamespace(), target));
    WriteAndPin(s, a, Put(StatusKey(a), StatusFields(WaitingStatus(a.SandboxNamespace(), target))));
  }

  /** Why every status must carry the pin: one that omits it drops a pin only the operator owns. */
  lemma OmittedPinIsDropped(s: Store, a: Assistant, st: AssistantStatus)
    requires PinOf(s, a).Some? && st.sandboxNamespace.None?
    requires PIN in s.objects[StatusKey(a)].owned && PIN !in s.objects[StatusKey(a)].others
    ensures PinOf(Step(s, Put(StatusKey(a), StatusFields(st))), a).None?
  {
    hide StatusFields, PIN;
    StatusPins(st);
    ApplyPrunes(s, StatusKey(a), StatusFields(st), PIN);
  }
}

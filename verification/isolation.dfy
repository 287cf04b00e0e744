/**
 Several Assistants side by side. Their writes interleave freely; the cleanup of one of them removes what the others
 have written exactly if two of their stacks, or two of their target Secrets, meet in the namespace it purges.
 */
module AssistantIsolation {
  import opened Wrappers
  import opened Kube
  import opened Resources
  import opened Builders
  import opened SandboxNames
  import opened AssistantValidate
  import opened AssistantObjects
  import opened AssistantPlans
  import opened AssistantApply
  import opened AssistantLife
  import opened AssistantRuns
  import InstanceAi

  /** A write of a reconcile, or of a bootstrap pod, over one of these specs. */
  ghost predicate WriteOf(specs: set<Assistant>, op: Op) {
    exists a :: a in specs && ReconcileOp(a, op)
  }

  /** Writes for our specs and for those of others, and purges by anybody, in any order. */
  ghost predicate Interleaved(es: seq<Op>, ours: set<Assistant>, others: set<Assistant>) {
    forall op | op in es :: op.Purge? || WriteOf(ours, op) || WriteOf(others, op)
  }

  /** `ours` are the specs that one Assistant goes through, `others` those of any number of other Assistants. */
  ghost predicate Apart(ours: set<Assistant>, others: set<Assistant>, crNs: string, crName: string) {
    && (forall a | a in ours :: a.ns == crNs && a.name == crName)
    && (forall b | b in others :: b.ns != crNs || b.name != crName)
  }

  /** An object that a reconcile over one of these specs may label with the identity. */
  ghost predicate PlaceIn(specs: set<Assistant>, k: Key) {
    exists a :: a in specs && (SandboxKey(a, k) || k == TargetKey(a))
  }

  /** Nothing has been labelled with the identity yet. */
  ghost predicate Unmarked(s: Store, crNs: string, crName: string) {
    forall k :: !Ours(s, crNs, crName, k)
  }

  // ----- Labels stay where the Assistant writes -----

  lemma OneWriteMarks(s: Store, op: Op, ours: set<Assistant>, others: set<Assistant>, crNs: string, crName: string,
                      k: Key)
    requires Apart(ours, others, crNs, crName) && (op.Purge? || WriteOf(ours, op) || WriteOf(others, op))
    requires Ours(Step(s, op), crNs, crName, k)
    ensures Ours(s, crNs, crName, k) || PlaceIn(ours, k)
  {
    StatusNotPurged();
    hide PURGED_KINDS, MarkedFields, Prefix, NameOf, PIN, InstanceAiSecret, Named;
    if op.Purge? || op.key != k {
      assert Step(s, op).Find(k) == s.Find(k);
    } else if WriteOf(ours, op) {
      var a :| a in ours && ReconcileOp(a, op);
    } else {
      var b :| b in others && ReconcileOp(b, op);
      OthersWrite(s, op, b, crNs, crName);
    }
  }

  /** A write for another Assistant leaves the object under that Assistant's labels, or as it was. */
  lemma OthersWrite(s: Store, op: Op, b: Assistant, crNs: string, crName: string)
    requires SandboxOp(b, op) || TargetOp(b, op)
    requires b.ns != crNs || b.name != crName
    ensures Ours(Step(s, op), crNs, crName, op.key) ==> Ours(s, crNs, crName, op.key)
  {
    hide PURGED_KINDS, Prefix, NameOf, InstanceAiSecret, Named, ASSISTANT_LABEL, ASSISTANT_NS_LABEL;
    if op.Put? {
      StepSettles(s, op);
    }
  }

  lemma {:induction false} MarksStayInPlace(s: Store, es: seq<Op>, ours: set<Assistant>, others: set<Assistant>,
                                            crNs: string, crName: string, k: Key)
    requires Apart(ours, others, crNs, crName) && Interleaved(es, ours, others)
    requires Ours(Run(s, es), crNs, crName, k)
    ensures Ours(s, crNs, crName, k) || PlaceIn(ours, k)
    decreases |es|
  {
    hide Ours, WriteOf, PlaceIn, Step;
    if es != [] {
      assert es[0] in es && forall op | op in es[1..] :: op in es;
      MarksStayInPlace(Step(s, es[0]), es[1..], ours, others, crNs, crName, k);
      if Ours(Step(s, es[0]), crNs, crName, k) {
        OneWriteMarks(s, es[0], ours, others, crNs, crName, k);
      }
    }
  }

  // ----- Where two Assistants meet -----

  /** Both stacks are in `home` under the same generated names, or both write one target Secret, and it is in `home`. */
  predicate Meet(a: Assistant, b: Assistant, home: string) {
    || (Prefix(a.ns, a.name) == Prefix(b.ns, b.name) && a.SandboxNamespace() == home == b.SandboxNamespace())
    || (TargetKey(a) == TargetKey(b) && a.ns == home)
  }

  /** No generated name is a target Secret's. */
  lemma NamesAreNoTargets(prefix: string, part: Part, target: string)
    ensures NameOf(prefix, part) != InstanceAiSecret(target)
  {
    var n, t := NameOf(prefix, part), InstanceAiSecret(target);
    assert t[|t| - 1] == 'i' && t[|t| - 2] == 'a';
    assert n[|n| - 1] == 'i' ==> n[|n| - 2] == 'p';
  }

  lemma CommonPlaceMeets(a: Assistant, b: Assistant, home: string, k: Key)
    requires SandboxKey(a, k) || k == TargetKey(a)
    requires SandboxKey(b, k) || k == TargetKey(b)
    requires k.ns == home
    ensures Meet(a, b, home)
  {
    hide PURGED_KINDS, Prefix, NameOf, InstanceAiSecret;
    if SandboxKey(a, k) {
      var part: Part :| k.name == NameOf(Prefix(a.ns, a.name), part);
      NamesAreNoTargets(Prefix(a.ns, a.name), part, b.targetName);
      var other: Part :| k.name == NameOf(Prefix(b.ns, b.name), other);
      NamesInjective(Prefix(a.ns, a.name), part, Prefix(b.ns, b.name), other);
    } else if SandboxKey(b, k) {
      var part: Part :| k.name == NameOf(Prefix(b.ns, b.name), part);
      NamesAreNoTargets(Prefix(b.ns, b.name), part, a.targetName);
    }
  }

  // ----- Isolation -----

  /** After the interleaving the cleanup removes an object that a write for one of the others has made. */
  ghost predicate Harmed(s: Store, es: seq<Op>, others: set<Assistant>, a: Assistant, pin: Option<string>, k: Key) {
    && (exists op :: op in es && Touches(op, k) && !op.Remove? && WriteOf(others, op))
    && k in Run(s, es).objects && k !in Run(Run(s, es), CleanupOps(a, pin)).objects
  }

  lemma ApartMeansUnharmed(s: Store, es: seq<Op>, ours: set<Assistant>, others: set<Assistant>, a: Assistant,
                           pin: Option<string>, k: Key)
    requires Apart(ours, others, a.ns, a.name)
    requires Unmarked(s, a.ns, a.name) && Interleaved(es, ours, others) && Harmed(s, es, others, a, pin, k)
    ensures exists x, b :: x in ours && b in others && Meet(x, b, Home(a, pin))
  {
    StatusNotPurged();
    hide Run, CleanupOps, PURGED_KINDS, MarkedFields, Prefix, NameOf, Named, Home, PIN, InstanceAiSecret, Meet;
    CleanupExact(Run(s, es), a, pin, k);
    MarksStayInPlace(s, es, ours, others, a.ns, a.name, k);
    var x :| x in ours && (SandboxKey(x, k) || k == TargetKey(x));
    var op :| op in es && Touches(op, k) && !op.Remove? && WriteOf(others, op);
    var b :| b in others && ReconcileOp(b, op);
    CommonPlaceMeets(x, b, Home(a, pin), k);
  }

  /** Our apply over the object of another puts it under our labels, whatever it was before. */
  lemma LastApplyOwns(s: Store, theirs: Op, mine: Op, a: Assistant, pin: Option<string>)
    requires theirs.Put? && mine.Put? && theirs.key == mine.key
    requires MarkedFields(mine.want, a.ns, a.name) && mine.key.kind in PURGED_KINDS && mine.key.ns == Home(a, pin)
    ensures mine.key in Run(s, [theirs, mine]).objects
    ensures mine.key !in Run(Run(s, [theirs, mine]), CleanupOps(a, pin)).objects
  {
    hide CleanupOps, PURGED_KINDS, MarkedFields, Home, Settled, Step;
    var t := Step(Step(s, theirs), mine);
    assert Run(s, [theirs, mine]) == t by { TwoWrites(s, theirs, mine); }
    StepSettles(Step(s, theirs), mine);
    SettledOwns(t, mine, a.ns, a.name);
    CleanupExact(t, a, pin, mine.key);
  }

  lemma TwoWrites(s: Store, x: Op, y: Op)
    ensures Run(s, [x, y]) == Step(Step(s, x), y)
  {
    hide Step;
    assert [x, y][1..] == [y] && [y][1..] == [];
    assert Run(Step(s, x), [y]) == Run(Step(Step(s, x), y), []);
  }

  lemma SettledOwns(s: Store, op: Op, crNs: string, crName: string)
    requires op.Put? && Settled(s, op) && MarkedFields(op.want, crNs, crName) && op.key.kind in PURGED_KINDS
    ensures Ours(s, crNs, crName, op.key)
  {
    hide PURGED_KINDS;
  }

  function ServiceAccountOp(a: Assistant): Op {
    Access(a)[0]
  }

  function TargetSecretOp(a: Assistant, data: map<string, string>): Op {
    Put(TargetKey(a), InstanceAi.TargetFields(a, data))
  }

  lemma ThoseOps(a: Assistant, data: map<string, string>)
    ensures var op := ServiceAccountOp(a);
            && SandboxOp(a, op) && op.Put? && MarkedFields(op.want, a.ns, a.name)
            && op.key == At(a, ServiceAccount, Certs) && op.key.kind.ServiceAccount?
                && op.key.ns == a.SandboxNamespace()
    ensures TargetOp(a, TargetSecretOp(a, data)) && TargetKey(a).kind in PURGED_KINDS && TargetKey(a).ns == a.ns
  {
    hide SandboxMeta, MarkedFields, Prefix, NameOf, InstanceAiSecret, InstanceAi.TargetFields, Named, PURGED_KINDS;
    AccessOps(a);
    TargetMarked(a, data);
    AccountsArePurged();
  }

  lemma PairHarms(theirs: Op, mine: Op, ours: set<Assistant>, others: set<Assistant>, a: Assistant, pin: Option<string>)
    requires theirs.Put? && mine.Put? && theirs.key == mine.key
    requires WriteOf(ours, mine) && WriteOf(others, theirs)
    requires MarkedFields(mine.want, a.ns, a.name) && mine.key.kind in PURGED_KINDS && mine.key.ns == Home(a, pin)
    ensures exists s, es, k ::
            Unmarked(s, a.ns, a.name) && Interleaved(es, ours, others) && Harmed(s, es, others, a, pin, k)
  {
    hide Run, CleanupOps, PURGED_KINDS, MarkedFields, Home, WriteOf;
    var s, es := Store(map[], 0), [theirs, mine];
    LastApplyOwns(s, theirs, mine, a, pin);
    assert theirs in es && Touches(theirs, mine.key);
    assert Harmed(s, es, others, a, pin, mine.key);
    assert Unmarked(s, a.ns, a.name) && Interleaved(es, ours, others);
  }

  lemma MeetingHarms(x: Assistant, b: Assistant, ours: set<Assistant>, others: set<Assistant>, a: Assistant,
                     pin: Option<string>)
    requires Apart(ours, others, a.ns, a.name) && x in ours && b in others && Meet(x, b, Home(a, pin))
    ensures exists s, es, k ::
            Unmarked(s, a.ns, a.name) && Interleaved(es, ours, others) && Harmed(s, es, others, a, pin, k)
  {
    hide Unmarked, Interleaved, Harmed, PURGED_KINDS, MarkedFields, ServiceAccountOp, At, TargetKey, Prefix, NameOf,
         Home, SandboxKey, StatusOp;
    ThoseOps(x, map[]);
    ThoseOps(b, map[]);
    if TargetKey(x) == TargetKey(b) && x.ns == Home(a, pin) {
      assert ReconcileOp(x, TargetSecretOp(x, map[])) && ReconcileOp(b, TargetSecretOp(b, map[]));
      PairHarms(TargetSecretOp(b, map[]), TargetSecretOp(x, map[]), ours, others, a, pin);
    } else {
      assert ReconcileOp(x, ServiceAccountOp(x)) && ReconcileOp(b, ServiceAccountOp(b));
      SamePlace(x, b);
      assert ServiceAccountOp(x).key.kind in PURGED_KINDS by { AccountsArePurged(); }
      PairHarms(ServiceAccountOp(b), ServiceAccountOp(x), ours, others, a, pin);
    }
  }

  lemma AccountsArePurged()
    ensures ServiceAccount in PURGED_KINDS && Secret in PURGED_KINDS
  {
    assert PURGED_KINDS[7] == ServiceAccount && PURGED_KINDS[3] == Secret;
  }

  lemma SamePlace(x: Assistant, b: Assistant)
    requires Prefix(x.ns, x.name) == Prefix(b.ns, b.name) && x.SandboxNamespace() == b.SandboxNamespace()
    ensures At(x, ServiceAccount, Certs) == At(b, ServiceAccount, Certs)
  {}

  /**
   Isolation over interleaved writes: however the writes for one Assistant mix with those for any number of others,
   its cleanup removes nothing that a write for another has made. This holds if and only if, in the namespace the
   cleanup purges, no two stacks share their names and no two specs share a target Secret.
   */
  lemma CleanupIsolated(ours: set<Assistant>, others: set<Assistant>, a: Assistant, pin: Option<string>)
    requires a in ours && Apart(ours, others, a.ns, a.name)
    ensures (forall s, es, k | Unmarked(s, a.ns, a.name) && Interleaved(es, ours, others) ::
               !Harmed(s, es, others, a, pin, k))
       <==> (forall x, b | x in ours && b in others :: !Meet(x, b, Home(a, pin)))
  {
    hide Unmarked, Interleaved, Harmed, Meet, Home;
    forall s, es, k | Unmarked(s, a.ns, a.name) && Interleaved(es, ours, others) && Harmed(s, es, others, a, pin, k)
      ensures exists x, b :: x in ours && b in others && Meet(x, b, Home(a, pin))
    {
      ApartMeansUnharmed(s, es, ours, others, a, pin, k);
    }
    forall x, b | x in ours && b in others && Meet(x, b, Home(a, pin))
      ensures exists s, es, k ::
              Unmarked(s, a.ns, a.name) && Interleaved(es, ours, others) && Harmed(s, es, others, a, pin, k)
    {
      MeetingHarms(x, b, ours, others, a, pin);
    }
  }

  // ----- Two validated pairs that meet -----

  /** Two namespaces whose prefixes coincide: the cleanup of one removes what the other's reconcile wrote first. */
  lemma SharedStackIsRemoved(s: Store, a: Assistant, b: Assistant)
    requires AssistantAllowed(a) && a.ns == "a-b" && a.name == "c" && a.sandboxNs == Some("sandbox")
    requires b == a.(ns := "a", name := "b-c")
    ensures AssistantAllowed(b)
    ensures var k, t := At(b, ServiceAccount, Certs), Run(s, [ServiceAccountOp(b), ServiceAccountOp(a)]);
            k in t.objects && k !in Run(t, CleanupOps(a, Some("sandbox"))).objects
  {
    ValidAssistantsClash(a, b);
    hide Run, CleanupOps, PURGED_KINDS, MarkedFields, Access, At, Prefix, NameOf, AssistantAllowed, Named;
    ThoseOps(a, map[]);
    ThoseOps(b, map[]);
    SamePlace(a, b);
    LastApplyOwns(s, ServiceAccountOp(b), ServiceAccountOp(a), a, Some("sandbox"));
  }

  /**
   Two Assistants of one namespace with the same target: no generated name coincides, yet the cleanup of the one whose
   stack is at home removes the target Secret of the other, whatever was in it.
   */
  lemma SharedTargetIsRemoved(s: Store, a: Assistant, b: Assistant, mine: map<string, string>,
                              theirs: map<string, string>)
    requires a.ns == b.ns && a.name != b.name && a.targetName == b.targetName && a.SandboxNamespace() == a.ns
    ensures Prefix(a.ns, a.name) != Prefix(b.ns, b.name)
    ensures var t := Run(s, [TargetSecretOp(b, theirs), TargetSecretOp(a, mine)]);
            TargetKey(b) in t.objects && TargetKey(b) !in Run(t, CleanupOps(a, Some(a.SandboxNamespace()))).objects
  {
    hide Run, CleanupOps, PURGED_KINDS, MarkedFields, Access, At, NameOf, Named, InstanceAiSecret,
         InstanceAi.TargetFields;
    if Prefix(a.ns, a.name) == Prefix(b.ns, b.name) {
      PrefixInjective(a.ns, a.name, b.ns, b.name);
    }
    ThoseOps(a, mine);
    ThoseOps(b, theirs);
    LastApplyOwns(s, TargetSecretOp(b, theirs), TargetSecretOp(a, mine), a, Some(a.SandboxNamespace()));
  }
}

/**
 Two controllers, one fixpoint: after how many rounds neither the Assistant's nor its target's controller has anything
 left to do, for which specs that holds from every store, and for which it never does.
 */
module Fixpoint {
  import opened Wrappers
  import opened Kube
  import opened Server
  import opened Resources
  import opened Validate
  import opened Builders
  import opened OperatorEnv
  import opened ClusterObjects
  import opened SandboxNames
  import opened AssistantObjects
  import opened AssistantValidate
  import opened Rounds
  import AP = AssistantPlans
  import AssistantLife
  import InstanceAi
  import P = Plans
  import Convergence
  import ClusterRuns
  import SingleRuns
  import Stamps

  /** One apply of the Assistant past the certificates, then one pass of its target. */
  function Round(s: Store, a: Assistant, apiKey: string, target: Target, g: string): Store {
    After(s, a, apiKey, TargetPass(Run(s, AP.StackPart(s, a, apiKey).ops), target, g).ops)
  }

  /** Nothing is left to do: every write either controller would make is settled. */
  ghost predicate Quiet(t: Store, a: Assistant, apiKey: string, target: Target) {
    && (forall op | op in AP.StackPart(t, a, apiKey).ops :: Settled(t, op))
    && (forall h, op | op in TargetPass(t, target, h).ops :: Settled(t, op))
  }

  /** In a quiet store any writes of the two controllers, in any order and number, complete or not, change nothing. */
  lemma QuietStays(t: Store, a: Assistant, apiKey: string, target: Target, es: seq<Op>)
    requires Quiet(t, a, apiKey, target)
    requires forall op | op in es ::
               op in AP.StackPart(t, a, apiKey).ops || exists h :: op in TargetPass(t, target, h).ops
    ensures Run(t, es) == t
  {
    hide AP.StackPart, TargetPass, Settled;
    RunOfSettled(t, es);
  }

  // ----- The two sides of a round -----

  /** The target's controller has nothing left to do after its pass, whatever keys it draws. */
  lemma TargetSettled(s1: Store, target: Target, g: string, h: string, op: Op)
    requires forall x | x in TargetPass(s1, target, g).ops :: Settled(Run(s1, TargetPass(s1, target, g).ops), x)
    requires op in TargetPass(Run(s1, TargetPass(s1, target, g).ops), target, h).ops
    ensures Settled(Run(s1, TargetPass(s1, target, g).ops), op)
  {
    hide P.ClusterPlan, P.SinglePlan, P.Revision, Run, Settled;
    match target
    case ToCluster(c, cloud) =>
      ClusterRuns.PassKeepsRevision(s1, c, g, cloud);
      ClusterRuns.SettledForAnyKey(Run(s1, TargetPass(s1, target, g).ops), c, g, h, cloud,
                                   P.Revision(s1, c.ns, c.name));
    case ToSingle(s, gateway) =>
      SingleRuns.PassKeepsRevision(s1, s, g, gateway);
      SingleRuns.SettledForAnyKey(Run(s1, TargetPass(s1, target, g).ops), s, g, h, gateway,
                                  P.Revision(s1, s.ns, s.name));
  }

  /** The target's Secret is what the user's keys, as they read now, make of it. */
  predicate TargetDone(t: Store, a: Assistant, apiKey: string) {
    Readable(t, a) ==> Settled(t, TargetWrite(a, apiKey, ModelOf(t, a).value, BraveOf(t, a).value))
  }

  /** After a round only the target's Secret can be outstanding. */
  lemma QuietAfterRound(s: Store, a: Assistant, apiKey: string, target: Target, g: string)
    requires Wired(a, target) && NamesApart(a, target)
    ensures Quiet(Round(s, a, apiKey, target, g), a, apiKey, target)
            <==> TargetDone(Round(s, a, apiKey, target, g), a, apiKey)
  {
    hide AP.StackPart, Run, TargetPass, Settled, ModelOf, BraveOf, TargetWrite, Work, Wired, NamesApart, Passive;
    var s1 := Run(s, AP.StackPart(s, a, apiKey).ops);
    var pass := TargetPass(s1, target, g).ops;
    var t := After(s, a, apiKey, pass);
    PassIsPassive(s1, a, target, g);
    StackIs(s, a, apiKey);
    StackIs(t, a, apiKey);
    SameWork(s, a, apiKey, pass);
    forall op | op in Work(s, a) || op in pass ensures Settled(t, op) {
      RoundSettled(s, a, apiKey, pass, op);
    }
    forall h, op | op in TargetPass(t, target, h).ops ensures Settled(t, op) {
      TargetSettled(s1, target, g, h, op);
    }
    if Readable(t, a) {
      assert TargetWrite(a, apiKey, ModelOf(t, a).value, BraveOf(t, a).value) in AP.StackPart(t, a, apiKey).ops;
    }
  }

  // ----- Where a reference takes its contents from -----

  datatype Source = Same | FromModel | FromBrave | Fixed(text: string)

  /** What a reference reads after a round: what it read before, one of the two keys of that round, or a fixed entry. */
  function SourceOf(a: Assistant, apiKey: string, r: Option<SecretKeyRef>): Source {
    if r.None? || !Echoes(a, r.value) then Same
    else if r.value.key == InstanceAi.MODEL_KEY then FromModel
    else if r.value.key == InstanceAi.BRAVE_KEY then FromBrave
    else
      var d := AP.TargetData(a, apiKey, AnyText(a.modelKey), AnyText(a.brave));
      if r.value.key in d then Fixed(d[r.value.key]) else Same
  }

  function Taken(source: Source, now: Option<string>, model: Option<string>, brave: Option<string>): Option<string> {
    match source
    case Same => now
    case FromModel => model
    case FromBrave => brave
    case Fixed(text) => Some(text)
  }

  lemma NextIsTaken(a: Assistant, apiKey: string, r: Option<SecretKeyRef>, now: Option<string>, model: Option<string>,
                    brave: Option<string>)
    requires Contents(a, model, brave) && (now.Some? <==> r.Some?)
    ensures NextValue(a, apiKey, r, now, model, brave) == Taken(SourceOf(a, apiKey, r), now, model, brave)
    ensures NextValue(a, apiKey, r, now, model, brave).Some? <==> r.Some?
  {
    hide AP.TargetData, DataKeys, InstanceAiSecret, InstanceAi.MODEL_KEY, InstanceAi.BRAVE_KEY;
    DataOf(a, apiKey, model, brave);
    DataOf(a, apiKey, AnyText(a.modelKey), AnyText(a.brave));
    if r.Some? && Echoes(a, r.value) && r.value.key != InstanceAi.MODEL_KEY && r.value.key != InstanceAi.BRAVE_KEY {
      FixedEntry(a, apiKey, model, brave, AnyText(a.modelKey), AnyText(a.brave), r.value.key);
    }
  }

  lemma ReadContents(s: Store, a: Assistant)
    requires Readable(s, a)
    ensures Contents(a, ModelOf(s, a).value, BraveOf(s, a).value)
    ensures a.modelKey == a.brave ==> ModelOf(s, a) == BraveOf(s, a)
  {
    hide DataText;
  }

  /** The same as `ReadsOn`, with the contents taken from their source. */
  predicate TakesOn(a: Assistant, apiKey: string, r: Option<SecretKeyRef>, was: Result<Option<string>>,
                    now: Result<Option<string>>, model: Result<Option<string>>, brave: Result<Option<string>>,
                    stays: bool)
  {
    if model.Ok? && brave.Ok? then
      was.Ok? ==>
        && (now.Ok? ==> now.value == Taken(SourceOf(a, apiKey, r), was.value, model.value, brave.value))
        && (stays ==> now.Ok?)
    else was.Err? ==> now.Err?
  }

  lemma OneRead(s: Store, a: Assistant, apiKey: string, pass: seq<Op>, r: Option<SecretKeyRef>)
    requires Passive(a, pass) && (r.Some? ==> r.value.key != "encryption_key")
    ensures TakesOn(a, apiKey, r, AP.ReadKey(s, a.ns, r), AP.ReadKey(After(s, a, apiKey, pass), a.ns, r),
                    ModelOf(s, a), BraveOf(s, a), Stays(s, a, r))
  {
    hide After, Passive, NextValue, SourceOf, Taken, Stays, ModelOf, BraveOf, AP.ReadKey, Contents;
    NextRead(s, a, apiKey, pass, r);
    var was := AP.ReadKey(s, a.ns, r);
    if Readable(s, a) && was.Ok? {
      ReadContents(s, a);
      GivenMeansRead(s, a, r);
      NextIsTaken(a, apiKey, r, was.value, ModelOf(s, a).value, BraveOf(s, a).value);
    }
  }

  lemma GivenMeansRead(s: Store, a: Assistant, r: Option<SecretKeyRef>)
    ensures var was := AP.ReadKey(s, a.ns, r); was.Ok? ==> (was.value.Some? <==> r.Some?)
  {
    hide DataText;
  }

  /** One round's reads from those of the round before, as long as the keys stay readable. */
  lemma RoundReads(s: Store, a: Assistant, apiKey: string, pass: seq<Op>)
    requires Passive(a, pass) && AssistantAllowed(a)
    ensures var t := After(s, a, apiKey, pass);
            && (Readable(t, a) ==> Readable(s, a))
            && (Readable(t, a) ==>
                  var m, b := ModelOf(s, a).value, BraveOf(s, a).value;
                  && ModelOf(t, a).value == Taken(SourceOf(a, apiKey, a.modelKey), m, m, b)
                  && BraveOf(t, a).value == Taken(SourceOf(a, apiKey, a.brave), b, m, b))
            && (Readable(s, a) && Stays(s, a, a.modelKey) && Stays(s, a, a.brave) ==> Readable(t, a))
  {
    hide After, Passive, AssistantAllowed, AP.ReadKey, SourceOf, Taken, Stays;
    KeysAllowed(a);
    OneRead(s, a, apiKey, pass, a.modelKey);
    OneRead(s, a, apiKey, pass, a.brave);
  }

  lemma KeysAllowed(a: Assistant)
    requires AssistantAllowed(a)
    ensures a.modelKey.Some? ==> a.modelKey.value.key != "encryption_key"
    ensures a.brave.Some? ==> a.brave.value.key != "encryption_key"
  {
    hide ModelAllowed, IsDns1123Label;
  }

  // ----- One round -----

  /**
   The references give one-round stability: one that points into the target's own Secret, at an entry the operator
   writes there, points at its own entry, or both references are the same one.
   */
  predicate SelfStable(a: Assistant) {
    && (a.modelKey.Some? && Echoes(a, a.modelKey.value) ==>
          || a.modelKey.value.key == InstanceAi.MODEL_KEY
          || (a.modelKey.value.key == InstanceAi.BRAVE_KEY && a.brave == a.modelKey))
    && (a.brave.Some? && Echoes(a, a.brave.value) ==>
          || a.brave.value.key == InstanceAi.BRAVE_KEY
          || (a.brave.value.key == InstanceAi.MODEL_KEY && a.brave == a.modelKey))
  }

  lemma StableRound(s: Store, a: Assistant, apiKey: string, pass: seq<Op>)
    requires Passive(a, pass) && AssistantAllowed(a) && SelfStable(a)
    ensures TargetDone(After(s, a, apiKey, pass), a, apiKey)
  {
    hide After, Passive, AssistantAllowed, AP.ReadKey, TargetWrite, Settled, DataKeys, AP.StackPart, Work,
         InstanceAiSecret, InstanceAi.MODEL_KEY, InstanceAi.BRAVE_KEY;
    RoundReads(s, a, apiKey, pass);
    if Readable(After(s, a, apiKey, pass), a) {
      ReadContents(s, a);
      StackIs(s, a, apiKey);
      RoundSettled(s, a, apiKey, pass, TargetWrite(a, apiKey, ModelOf(s, a).value, BraveOf(s, a).value));
      BothKeysDiffer();
    }
  }

  lemma BothKeysDiffer()
    ensures InstanceAi.MODEL_KEY != InstanceAi.BRAVE_KEY
  {
    InstanceAi.OptionalNamesDiffer();
  }

  // ----- A store that shows an unstable reference -----

  function ProbeFields(a: Assistant, name: string, m: string, b: string): Fields {
    (if a.modelKey.Some? && a.modelKey.value.name == name then map[Data(a.modelKey.value.key) := Text(m)] else map[])
    + (if a.brave.Some? && a.brave.value.name == name then map[Data(a.brave.value.key) := Text(b)] else map[])
  }

  function ProbeAt(a: Assistant, r: Option<SecretKeyRef>, m: string, b: string): map<Key, Object> {
    if r.None? then map[]
    else
      var f := ProbeFields(a, r.value.name, m, b);
      map[Key(Secret, a.ns, r.value.name) := Object(f, {}, f.Keys, 0)]
  }

  /** Both keys are there, with these contents, written by somebody else. */
  function Probe(a: Assistant, m: string, b: string): Store {
    Store(ProbeAt(a, a.modelKey, m, b) + ProbeAt(a, a.brave, m, b), 0)
  }

  function Given(r: Option<SecretKeyRef>, text: string): Option<string> {
    if r.Some? then Some(text) else None
  }

  lemma ProbeReads(a: Assistant, m: string, b: string)
    requires a.modelKey == a.brave ==> m == b
    ensures ModelOf(Probe(a, m, b), a) == Ok(Given(a.modelKey, m))
            && BraveOf(Probe(a, m, b), a) == Ok(Given(a.brave, b))
    ensures Stays(Probe(a, m, b), a, a.modelKey) && Stays(Probe(a, m, b), a, a.brave)
  {
    hide InstanceAiSecret;
    if a.modelKey.Some? && a.brave.Some? && a.modelKey.value.name == a.brave.value.name
       && a.modelKey.value.key == a.brave.value.key {
      assert a.modelKey == a.brave;
    }
  }

  /** Contents that change in the first round. */
  lemma MovingContents(a: Assistant, apiKey: string) returns (m: string, b: string)
    requires !SelfStable(a)
    ensures a.modelKey == a.brave ==> m == b
    ensures || Taken(SourceOf(a, apiKey, a.modelKey), Given(a.modelKey, m), Given(a.modelKey, m), Given(a.brave, b))
               != Given(a.modelKey, m)
            || Taken(SourceOf(a, apiKey, a.brave), Given(a.brave, b), Given(a.modelKey, m), Given(a.brave, b))
               != Given(a.brave, b)
  {
    hide InstanceAiSecret, AP.TargetData, DataKeys, InstanceAi.MODEL_KEY, InstanceAi.BRAVE_KEY;
    BothKeysDiffer();
    DataOf(a, apiKey, AnyText(a.modelKey), AnyText(a.brave));
    var x, y := SourceOf(a, apiKey, a.modelKey), SourceOf(a, apiKey, a.brave);
    if x.Fixed? {
      m, b := x.text + "!", x.text + "!";
      assert |m| != |x.text|;
    } else if y.Fixed? {
      m, b := y.text + "!", y.text + "!";
      assert |b| != |y.text|;
    } else {
      m, b := "m", "b";
      assert m[0] != b[0];
    }
  }

  /** Two different contents of the target's Secret cannot both be in place. */
  lemma WritesDiffer(t: Store, a: Assistant, apiKey: string, m: Option<string>, b: Option<string>, n: Option<string>,
                     c: Option<string>)
    requires Contents(a, m, b) && Contents(a, n, c)
    requires Settled(t, TargetWrite(a, apiKey, m, b)) && Settled(t, TargetWrite(a, apiKey, n, c))
    ensures m == n && b == c
  {
    hide AP.TargetData, InstanceAi.TargetFields, InstanceAi.MODEL_KEY, InstanceAi.BRAVE_KEY, DataKeys, TargetKey;
    DataOf(a, apiKey, m, b);
    DataOf(a, apiKey, n, c);
    var d, e := AP.TargetData(a, apiKey, m, b), AP.TargetData(a, apiKey, n, c);
    InstanceAi.TargetDataExact(a, d, InstanceAi.MODEL_KEY);
    InstanceAi.TargetDataExact(a, e, InstanceAi.MODEL_KEY);
    InstanceAi.TargetDataExact(a, d, InstanceAi.BRAVE_KEY);
    InstanceAi.TargetDataExact(a, e, InstanceAi.BRAVE_KEY);
  }

  lemma UnstableRound(a: Assistant, apiKey: string, target: Target, g: string)
    requires AssistantAllowed(a) && Wired(a, target) && NamesApart(a, target) && !SelfStable(a)
    ensures exists s :: !TargetDone(Round(s, a, apiKey, target, g), a, apiKey)
  {
    hide Run, AP.StackPart, AP.ReadKey, AssistantAllowed, SelfStable, Settled, TargetWrite, Stays, Probe, SourceOf,
         Taken,
         After, Passive, Wired, NamesApart, TargetPass, Work;
    var m, b := MovingContents(a, apiKey);
    var s := Probe(a, m, b);
    ProbeReads(a, m, b);
    var s1 := Run(s, AP.StackPart(s, a, apiKey).ops);
    var pass := TargetPass(s1, target, g).ops;
    PassIsPassive(s1, a, target, g);
    RoundReads(s, a, apiKey, pass);
    var t := After(s, a, apiKey, pass);
    StackIs(s, a, apiKey);
    RoundSettled(s, a, apiKey, pass, TargetWrite(a, apiKey, ModelOf(s, a).value, BraveOf(s, a).value));
    ReadContents(s, a);
    ReadContents(t, a);
    if TargetDone(t, a, apiKey) {
      WritesDiffer(t, a, apiKey, ModelOf(s, a).value, BraveOf(s, a).value, ModelOf(t, a).value, BraveOf(t, a).value);
    }
    assert !TargetDone(Round(s, a, apiKey, target, g), a, apiKey);
  }

  /**
   One round is enough from every store if and only if the references are stable, and for a Single also its name is
   apart from the sandbox workloads'.
   */
  lemma OneRoundSuffices(a: Assistant, apiKey: string, target: Target)
    requires AssistantAllowed(a) && Wired(a, target)
    requires NamesApart(a, target) || SingleRuns.Acceptable(target.s, target.gateway)
    ensures (forall s, g :: Quiet(Round(s, a, apiKey, target, g), a, apiKey, target))
       <==> SelfStable(a) && NamesApart(a, target)
  {
    hide AssistantAllowed, Wired, NamesApart, Quiet, Round, SelfStable, TargetDone, SingleRuns.Acceptable;
    if !NamesApart(a, target) {
      ClashNeverQuiet(Round(Store(map[], 0), a, apiKey, target, ""), a, apiKey, target);
    } else if SelfStable(a) {
      forall s, g ensures Quiet(Round(s, a, apiKey, target, g), a, apiKey, target) {
        StableTargetRound(s, a, apiKey, target, g);
        QuietAfterRound(s, a, apiKey, target, g);
      }
    } else {
      UnstableRound(a, apiKey, target, "");
      var s :| !TargetDone(Round(s, a, apiKey, target, ""), a, apiKey);
      QuietAfterRound(s, a, apiKey, target, "");
    }
  }

  lemma StableTargetRound(s: Store, a: Assistant, apiKey: string, target: Target, g: string)
    requires AssistantAllowed(a) && Wired(a, target) && NamesApart(a, target) && SelfStable(a)
    ensures TargetDone(Round(s, a, apiKey, target, g), a, apiKey)
  {
    hide AssistantAllowed, Wired, NamesApart, TargetDone, SelfStable, After, TargetPass, Passive, AP.StackPart, Run;
    var s1 := Run(s, AP.StackPart(s, a, apiKey).ops);
    PassIsPassive(s1, a, target, g);
    StableRound(s, a, apiKey, TargetPass(s1, target, g).ops);
  }

  // ----- Any number of rounds -----

  /** One round for each key drawn. */
  function AfterRounds(s: Store, a: Assistant, apiKey: string, target: Target, gs: seq<string>): Store
    decreases |gs|
  {
    if gs == [] then s
    else Round(AfterRounds(s, a, apiKey, target, gs[..|gs| - 1]), a, apiKey, target, gs[|gs| - 1])
  }

  /** Each reference points at the entry that the other one fills. */
  predicate Swapped(a: Assistant) {
    && a.modelKey == Some(SecretKeyRef(InstanceAiSecret(a.targetName), InstanceAi.BRAVE_KEY))
    && a.brave == Some(SecretKeyRef(InstanceAiSecret(a.targetName), InstanceAi.MODEL_KEY))
  }

  lemma SwapIsCrossed(a: Assistant, apiKey: string)
    ensures Swapped(a) <==> SourceOf(a, apiKey, a.modelKey) == FromBrave && SourceOf(a, apiKey, a.brave) == FromModel
  {
    hide AP.TargetData, DataKeys, InstanceAiSecret, InstanceAi.MODEL_KEY, InstanceAi.BRAVE_KEY;
    BothKeysDiffer();
    DataOf(a, "", AnyText(a.modelKey), AnyText(a.brave));
  }

  /** Unless each takes from the other, two contents repeat after two steps. */
  lemma StepsRepeat(x: Source, y: Source, m: Option<string>, b: Option<string>)
    requires !(x == FromBrave && y == FromModel)
    ensures var m1, b1 := Taken(x, m, m, b), Taken(y, b, m, b);
            var m2, b2 := Taken(x, m1, m1, b1), Taken(y, b1, m1, b1);
            Taken(x, m2, m2, b2) == m2 && Taken(y, b2, m2, b2) == b2
  {}

  lemma RoundOf(s: Store, a: Assistant, apiKey: string, target: Target, g: string)
    requires AssistantAllowed(a) && Wired(a, target) && NamesApart(a, target)
    ensures var t := Round(s, a, apiKey, target, g);
            Readable(t, a) ==>
              && Readable(s, a)
              && var m, b := ModelOf(s, a).value, BraveOf(s, a).value;
                 && ModelOf(t, a).value == Taken(SourceOf(a, apiKey, a.modelKey), m, m, b)
                 && BraveOf(t, a).value == Taken(SourceOf(a, apiKey, a.brave), b, m, b)
                 && Settled(t, TargetWrite(a, apiKey, m, b))
  {
    hide AssistantAllowed, Wired, NamesApart, After, TargetPass, Passive, AP.StackPart, Run, AP.ReadKey, Stays,
         SourceOf,
         Taken, Settled, TargetWrite, Work;
    var s1 := Run(s, AP.StackPart(s, a, apiKey).ops);
    var pass := TargetPass(s1, target, g).ops;
    PassIsPassive(s1, a, target, g);
    RoundReads(s, a, apiKey, pass);
    StackIs(s, a, apiKey);
    if Readable(s, a) {
      RoundSettled(s, a, apiKey, pass, TargetWrite(a, apiKey, ModelOf(s, a).value, BraveOf(s, a).value));
    }
  }

  lemma ThreeRounds(s: Store, a: Assistant, apiKey: string, target: Target, g: string, h: string, i: string)
    requires AssistantAllowed(a) && Wired(a, target) && NamesApart(a, target) && !Swapped(a)
    ensures TargetDone(Round(Round(Round(s, a, apiKey, target, g), a, apiKey, target, h), a, apiKey, target, i), a,
                       apiKey)
  {
    hide AssistantAllowed, Wired, NamesApart, Round, AP.ReadKey, ModelOf, BraveOf, Readable, SourceOf, Taken, Settled,
         TargetWrite, Swapped;
    var t1 := Round(s, a, apiKey, target, g);
    var t2 := Round(t1, a, apiKey, target, h);
    var t3 := Round(t2, a, apiKey, target, i);
    RoundOf(s, a, apiKey, target, g);
    RoundOf(t1, a, apiKey, target, h);
    RoundOf(t2, a, apiKey, target, i);
    SwapIsCrossed(a, apiKey);
    if Readable(t3, a) {
      ReadableMeansOk(s, a);
      StepsRepeat(SourceOf(a, apiKey, a.modelKey), SourceOf(a, apiKey, a.brave), ModelOf(s, a).value,
                  BraveOf(s, a).value);
    }
  }

  lemma ReadableMeansOk(s: Store, a: Assistant)
    requires Readable(s, a)
    ensures ModelOf(s, a).Ok? && BraveOf(s, a).Ok?
  {}

  // ----- The swap -----

  /** The target's Secret holds two different keys. */
  predicate TwoKeys(t: Store, a: Assistant) {
    && TargetKey(a) in t.objects
    && DataText(t.objects[TargetKey(a)], InstanceAi.MODEL_KEY).Some?
    && DataText(t.objects[TargetKey(a)], InstanceAi.BRAVE_KEY).Some?
    && DataText(t.objects[TargetKey(a)], InstanceAi.MODEL_KEY)
       != DataText(t.objects[TargetKey(a)], InstanceAi.BRAVE_KEY)
  }

  lemma TwoKeysRead(t: Store, a: Assistant)
    requires Swapped(a)
    ensures TwoKeys(t, a) <==> Readable(t, a) && ModelOf(t, a) != BraveOf(t, a)
  {
    hide InstanceAiSecret, DataText, InstanceAi.MODEL_KEY, InstanceAi.BRAVE_KEY;
  }

  /** A settled target's Secret holds the keys it was written with. */
  lemma WrittenKeys(t: Store, a: Assistant, apiKey: string, m: Option<string>, b: Option<string>)
    requires Settled(t, TargetWrite(a, apiKey, m, b)) && Contents(a, m, b) && m.Some? && b.Some?
    ensures TargetKey(a) in t.objects
    ensures DataText(t.objects[TargetKey(a)], InstanceAi.MODEL_KEY) == m
    ensures DataText(t.objects[TargetKey(a)], InstanceAi.BRAVE_KEY) == b
  {
    hide AP.TargetData, InstanceAi.TargetFields, InstanceAi.MODEL_KEY, InstanceAi.BRAVE_KEY, DataKeys, TargetKey;
    DataOf(a, apiKey, m, b);
    var d := AP.TargetData(a, apiKey, m, b);
    InstanceAi.TargetDataExact(a, d, InstanceAi.MODEL_KEY);
    InstanceAi.TargetDataExact(a, d, InstanceAi.BRAVE_KEY);
  }

  /** Swapped references over two different keys: there is something left to do, whatever else the store holds. */
  lemma TwoKeysNotQuiet(t: Store, a: Assistant, apiKey: string, target: Target)
    requires Swapped(a) && TwoKeys(t, a)
    ensures !Quiet(t, a, apiKey, target)
  {
    hide AP.StackPart, TargetPass, Settled, TargetWrite, Work, InstanceAiSecret, DataText, InstanceAi.MODEL_KEY,
         InstanceAi.BRAVE_KEY;
    TwoKeysRead(t, a);
    ReadContents(t, a);
    StackIs(t, a, apiKey);
    var m, b := ModelOf(t, a).value, BraveOf(t, a).value;
    assert TargetWrite(a, apiKey, m, b) in AP.StackPart(t, a, apiKey).ops;
    if Settled(t, TargetWrite(a, apiKey, m, b)) {
      WrittenKeys(t, a, apiKey, m, b);
    }
  }

  /** A round exchanges the two keys. */
  lemma RoundSwaps(t: Store, a: Assistant, apiKey: string, target: Target, g: string)
    requires Wired(a, target) && NamesApart(a, target) && Swapped(a) && TwoKeys(t, a)
    ensures TwoKeys(Round(t, a, apiKey, target, g), a)
    ensures var u := Round(t, a, apiKey, target, g);
            && DataText(u.objects[TargetKey(a)], InstanceAi.MODEL_KEY)
                == DataText(t.objects[TargetKey(a)], InstanceAi.BRAVE_KEY)
            && DataText(u.objects[TargetKey(a)], InstanceAi.BRAVE_KEY)
                == DataText(t.objects[TargetKey(a)], InstanceAi.MODEL_KEY)
  {
    hide Wired, NamesApart, After, TargetPass, Passive, AP.StackPart, Run, Settled, TargetWrite, Work, InstanceAiSecret,
         DataText, InstanceAi.MODEL_KEY, InstanceAi.BRAVE_KEY;
    var s1 := Run(t, AP.StackPart(t, a, apiKey).ops);
    var pass := TargetPass(s1, target, g).ops;
    PassIsPassive(s1, a, target, g);
    TwoKeysRead(t, a);
    ReadContents(t, a);
    StackIs(t, a, apiKey);
    var m, b := ModelOf(t, a).value, BraveOf(t, a).value;
    RoundSettled(t, a, apiKey, pass, TargetWrite(a, apiKey, m, b));
    WrittenKeys(After(t, a, apiKey, pass), a, apiKey, m, b);
  }

  /** References that swap: as soon as the two keys differ, no number of rounds comes to rest. */
  lemma {:induction false} SwapNeverSettles(s: Store, a: Assistant, apiKey: string, target: Target, gs: seq<string>)
    requires Wired(a, target) && NamesApart(a, target) && Swapped(a) && TwoKeys(s, a)
    ensures TwoKeys(AfterRounds(s, a, apiKey, target, gs), a)
    ensures !Quiet(AfterRounds(s, a, apiKey, target, gs), a, apiKey, target)
    decreases |gs|
  {
    hide Wired, NamesApart, Swapped, TwoKeys, Quiet, Round;
    if gs != [] {
      SwapNeverSettles(s, a, apiKey, target, gs[..|gs| - 1]);
      RoundSwaps(AfterRounds(s, a, apiKey, target, gs[..|gs| - 1]), a, apiKey, target, gs[|gs| - 1]);
    }
    TwoKeysNotQuiet(AfterRounds(s, a, apiKey, target, gs), a, apiKey, target);
  }

  lemma ProbeHasTwoKeys(a: Assistant)
    requires Swapped(a)
    ensures TwoKeys(Probe(a, "m", "b"), a)
  {
    hide Probe, InstanceAiSecret, DataText, InstanceAi.MODEL_KEY, InstanceAi.BRAVE_KEY;
    BothKeysDiffer();
    ProbeReads(a, "m", "b");
    assert "m"[0] != "b"[0];
    TwoKeysRead(Probe(a, "m", "b"), a);
  }

  /** From this store on, the two controllers are at rest after any three or more rounds. */
  ghost predicate RestsFrom(s: Store, a: Assistant, apiKey: string, target: Target) {
    forall gs: seq<string> | |gs| >= 3 :: Quiet(AfterRounds(s, a, apiKey, target, gs), a, apiKey, target)
  }

  /**
   The two controllers come to rest from every store, and then within three rounds, if and only if the two key
   references do not swap, and for a Single also its name is apart from the sandbox workloads'.
   */
  lemma ThreeRoundsSuffice(a: Assistant, apiKey: string, target: Target)
    requires AssistantAllowed(a) && Wired(a, target)
    requires NamesApart(a, target) || SingleRuns.Acceptable(target.s, target.gateway)
    ensures (forall s :: RestsFrom(s, a, apiKey, target)) <==> !Swapped(a) && NamesApart(a, target)
  {
    hide AssistantAllowed, Wired, NamesApart, Quiet, Round, Swapped, TargetDone, TwoKeys, SingleRuns.Acceptable, Probe;
    var some := ["", "", ""];
    if !NamesApart(a, target) {
      ClashNeverQuiet(AfterRounds(Store(map[], 0), a, apiKey, target, some), a, apiKey, target);
      assert !RestsFrom(Store(map[], 0), a, apiKey, target);
    } else if Swapped(a) {
      ProbeHasTwoKeys(a);
      SwapNeverSettles(Probe(a, "m", "b"), a, apiKey, target, some);
      assert !RestsFrom(Probe(a, "m", "b"), a, apiKey, target);
    } else {
      forall s ensures RestsFrom(s, a, apiKey, target) {
        forall gs: seq<string> | |gs| >= 3 ensures Quiet(AfterRounds(s, a, apiKey, target, gs), a, apiKey, target) {
          LastThree(s, a, apiKey, target, gs);
        }
      }
    }
  }

  lemma LastThree(s: Store, a: Assistant, apiKey: string, target: Target, gs: seq<string>)
    requires AssistantAllowed(a) && Wired(a, target) && NamesApart(a, target) && !Swapped(a) && |gs| >= 3
    ensures Quiet(AfterRounds(s, a, apiKey, target, gs), a, apiKey, target)
  {
    hide AssistantAllowed, Wired, NamesApart, Quiet, Round, Swapped, TargetDone;
    var n := |gs|;
    assert gs[..n - 1][..n - 2] == gs[..n - 2] && gs[..n - 2][..n - 3] == gs[..n - 3];
    var t := AfterRounds(s, a, apiKey, target, gs[..n - 3]);
    assert AfterRounds(s, a, apiKey, target, gs[..n - 2]) == Round(t, a, apiKey, target, gs[n - 3]);
    assert AfterRounds(s, a, apiKey, target, gs[..n - 1])
        == Round(AfterRounds(s, a, apiKey, target, gs[..n - 2]), a, apiKey, target, gs[n - 2]);
    ThreeRounds(t, a, apiKey, target, gs[n - 3], gs[n - 2], gs[n - 1]);
    QuietAfterRound(AfterRounds(s, a, apiKey, target, gs[..n - 1]), a, apiKey, target, gs[n - 1]);
  }

  // ----- When the names clash -----

  const NAME_LABEL := "app.kubernetes.io/name"

  lemma StackHasDeployment(t: Store, a: Assistant, apiKey: string, runner: bool)
    ensures exists w :: Put(At(a, Deployment, if runner then Runner else Api), w) in AP.StackPart(t, a, apiKey).ops
                        && Label(NAME_LABEL) in w && w[Label(NAME_LABEL)] == Text("n8n-sandbox")
  {
    hide AP.TargetPart, SandboxMeta, ApiBody, RunnerBody, ServiceBody, DockerBody, Run, At, AP.Revision, NAME_LABEL;
    var tlsApi, tlsRunner := AP.Revision(t, At(a, Secret, TlsApi)), AP.Revision(t, At(a, Secret, TlsRunner));
    AssistantLife.ApiUnlabelled(a, tlsApi);
    AssistantLife.ApiUnlabelled(a, tlsRunner);
    NamedSandbox(a, "sandbox-api", ApiBody(a, tlsApi));
    NamedSandbox(a, "sandbox-runner", RunnerBody(a, tlsRunner));
    var work := AP.Workloads(a, tlsApi, tlsRunner);
    var n := |work|;
    var w := if runner then SandboxMeta(a, "sandbox-runner") + RunnerBody(a, tlsRunner)
             else SandboxMeta(a, "sandbox-api") + ApiBody(a, tlsApi);
    var op := Put(At(a, Deployment, if runner then Runner else Api), w);
    assert work[n - 2] in work && work[n - 4] in work;
    assert op in work && op in AP.StackPart(t, a, apiKey).ops;
  }

  lemma NamedSandbox(a: Assistant, component: string, body: Fields)
    requires Unlabelled(body)
    ensures var w := SandboxMeta(a, component) + body;
            Label(NAME_LABEL) in w && w[Label(NAME_LABEL)] == Text("n8n-sandbox")
  {
    hide CommonAnnotations;
    var l := SandboxLabels(a.ns, a.name, component);
    assert NAME_LABEL[0] == 'a' && ASSISTANT_LABEL[0] == 'n' && ASSISTANT_NS_LABEL[0] == 'n';
    assert |NAME_LABEL| == 22 && |"app.kubernetes.io/component"| == 27 && |"app.kubernetes.io/part-of"| == 25;
    assert |"app.kubernetes.io/managed-by"| == 28 && |"app.kubernetes.io/instance"| == 26;
    assert NAME_LABEL in l && l[NAME_LABEL] == "n8n-sandbox";
    assert Label(NAME_LABEL) in LabelFields(l);
  }

  lemma NamedN8n(s: Single, revision: string)
    ensures var w := SingleDeployment(s, revision);
            Label(NAME_LABEL) in w && w[Label(NAME_LABEL)] == Text("n8n")
  {
    hide DeploymentFields, SingleEnv, KeySecret, DbVolumes, INSTANCE_AI_REVISION, CommonLabels;
    CommonName(s.name, s.image);
    var key := KeySecret(s.encryptionKey, s.name);
    DeploymentLabel(s.name, s.image, "workflow-engine", Some(s.replicas), SingleEnv(s, key),
                    (if s.database.Some? then DbVolumes(s.database.value) else [])
                    + (if s.persistence.Some? then ["n8n-data:" + s.name + "-data"] else []),
                    [], s.pod, s.strategy, Some((s.name, revision)), "Single/" + s.name, NAME_LABEL);
  }

  lemma CommonName(name: string, image: string)
    ensures NAME_LABEL in CommonLabels(name, image, "workflow-engine")
    ensures CommonLabels(name, image, "workflow-engine")[NAME_LABEL] == "n8n"
  {
    hide ImageVersion;
    assert |NAME_LABEL| == 22 && |"app.kubernetes.io/component"| == 27 && |"app.kubernetes.io/part-of"| == 25;
    assert |"app.kubernetes.io/managed-by"| == 28 && |"app.kubernetes.io/instance"| == 26;
    assert |"app.kubernetes.io/version"| == 25;
  }

  /**
   A Single with the name of a sandbox workload, in the sandbox namespace: no store satisfies both controllers, since
   they want different labels on one Deployment.
   */
  lemma ClashNeverQuiet(t: Store, a: Assistant, apiKey: string, target: Target)
    requires Wired(a, target) && !NamesApart(a, target) && SingleRuns.Acceptable(target.s, target.gateway)
    ensures !Quiet(t, a, apiKey, target)
  {
    hide AP.StackPart, P.SinglePlan, SingleRuns.Acceptable, SingleDeployment, P.Revision, NameOf, Prefix, NAME_LABEL;
    var s := target.s;
    var runner := s.name == NameOf(Prefix(a.ns, a.name), Runner);
    var k, at := Key(Deployment, s.ns, s.name), At(a, Deployment, if runner then Runner else Api);
    StackHasDeployment(t, a, apiKey, runner);
    var w :| Put(at, w) in AP.StackPart(t, a, apiKey).ops && Label(NAME_LABEL) in w
             && w[Label(NAME_LABEL)] == Text("n8n-sandbox");
    var revision := P.Revision(t, s.ns, s.name);
    Stamps.SingleIsWritten(s, "", target.gateway, revision);
    NamedN8n(s, revision);
    var mine, theirs := Put(k, SingleDeployment(s, revision)), Put(k, w);
    assert mine in TargetPass(t, target, "").ops;
    assert Settled(t, mine) ==> t.objects[k].fields[Label(NAME_LABEL)] == Text("n8n");
    assert Settled(t, theirs) ==> t.objects[k].fields[Label(NAME_LABEL)] == Text("n8n-sandbox");
    assert "n8n" != "n8n-sandbox" by { assert |"n8n"| == 3 && |"n8n-sandbox"| == 11; }
  }
}

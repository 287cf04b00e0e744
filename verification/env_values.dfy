/**
 What each container sees of each variable, in terms of the spec: the operator's own variables from their own fields,
 and the user layers with the last entry of a name deciding.
 */
module EnvValues {
  import opened Wrappers
  import opened Kube
  import opened Resources
  import opened Rules
  import opened Env
  import opened OperatorEnv
  import opened Validate
  import opened EnvUnique

  // ----- The user layers -----

  /** No later entry has the same name. */
  predicate IsLast(vars: seq<EnvVar>, i: nat) {
    i < |vars| && forall j | i < j < |vars| :: vars[j].name != vars[i].name
  }

  /** The container has the entry's own value: the Secret's key it refers to, or its text. */
  predicate Holds(env: seq<EnvEntry>, e: EnvVar) {
    Lookup(env, e.name) == match e.valueFrom
      case Some(r) => Some(FromSecret(r.name, r.key))
      case None => Some(Inline(if e.value.Some? then e.value.value else ""))
  }

  lemma {:induction false} LastInLayer(vars: seq<EnvVar>, i: nat)
    requires IsLast(vars, i)
    ensures vars[i].name in LayerMap(vars) && LayerMap(vars)[vars[i].name] == vars[i]
  {
    var init := vars[..|vars| - 1];
    if i < |init| {
      LastInLayer(init, i);
    }
  }

  /** The last entry of a name decides, whichever layer it is in; a name of no entry is not there. */
  lemma LastEntryDecides(vars: seq<EnvVar>, i: nat, name: string)
    ensures IsLast(vars, i) ==> Holds(UserEnv(vars), vars[i])
    ensures name !in Names(vars) ==> Lookup(UserEnv(vars), name) == None
  {
    hide UserEnv, LayerMap, FirstNames;
    if IsLast(vars, i) {
      LastInLayer(vars, i);
      LookupUserEnv(vars, vars[i].name);
    }
    if name !in Names(vars) {
      UserEnvNames(vars);
      LookupAbsent(UserEnv(vars), name);
    }
  }

  /** In a container the user layers come last. */
  lemma LayersDecide(slots: seq<Slot>, vars: seq<EnvVar>, i: nat)
    requires IsLast(vars, i)
    ensures Holds(Emit(slots) + UserEnv(vars), vars[i])
  {
    hide UserEnv, Emit;
    LastEntryDecides(vars, i, "");
    LookupConcat(Emit(slots), UserEnv(vars), vars[i].name);
  }

  lemma NameIn(vars: seq<EnvVar>, i: nat)
    requires i < |vars|
    ensures vars[i].name in Names(vars)
  {
    assert Names(vars)[i] == vars[i].name;
  }

  /** The last entry of a name stays the last when the rest does not have the name. */
  lemma LastInConcat(pre: seq<EnvVar>, vars: seq<EnvVar>, post: seq<EnvVar>, i: nat)
    requires IsLast(vars, i) && vars[i].name !in Names(post)
    ensures IsLast(pre + vars + post, |pre| + i) && (pre + vars + post)[|pre| + i] == vars[i]
  {
    hide Names;
    var all, n := pre + vars + post, |pre|;
    forall j | n + i < j < |all| ensures all[j].name != vars[i].name {
      if j < n + |vars| {
        assert all[j] == vars[j - n];
      } else {
        assert all[j] == post[j - n - |vars|];
        NameIn(post, j - n - |vars|);
      }
    }
  }

  /** A role's own last entry of a name holds in its container. */
  lemma RoleEntryHolds(slots: seq<Slot>, d: seq<EnvVar>, cookie: Option<bool>, cluster: seq<EnvVar>, role: seq<EnvVar>,
                       i: nat)
    requires IsLast(role, i)
    ensures Holds(Emit(slots) + UserEnv(Layered(d, cookie, cluster, role)), role[i])
  {
    assert Names([]) == [];
    hide UserEnv, Emit, Holds, IsLast, Names, CookieLayer;
    var pre := d + CookieLayer(cookie) + cluster;
    LastInConcat(pre, role, [], i);
    assert Layered(d, cookie, cluster, role) == pre + role + [];
    LayersDecide(slots, pre + role + [], |pre| + i);
  }

  /** The cluster-wide last entry of a name holds where the role does not set that name. */
  lemma SharedEntryHolds(slots: seq<Slot>, d: seq<EnvVar>, cookie: Option<bool>, cluster: seq<EnvVar>,
                         role: seq<EnvVar>, i: nat)
    requires IsLast(cluster, i) && cluster[i].name !in Names(role)
    ensures Holds(Emit(slots) + UserEnv(Layered(d, cookie, cluster, role)), cluster[i])
  {
    hide UserEnv, Emit, Holds, IsLast, Names, CookieLayer;
    var pre := d + CookieLayer(cookie);
    LastInConcat(pre, cluster, role, i);
    assert Layered(d, cookie, cluster, role) == pre + cluster + role;
    LayersDecide(slots, pre + cluster + role, |pre| + i);
  }

  /** The user's lists decide what they name: the role's last entry of a name first, then the shared list's. */
  predicate UserDecides(env: seq<EnvEntry>, cluster: seq<EnvVar>, role: seq<EnvVar>) {
    && (forall i | 0 <= i < |role| && IsLast(role, i) :: Holds(env, role[i]))
    && (forall i | 0 <= i < |cluster| && IsLast(cluster, i) && cluster[i].name !in Names(role) ::
          Holds(env, cluster[i]))
  }

  lemma ListsDecide(slots: seq<Slot>, d: seq<EnvVar>, cookie: Option<bool>, cluster: seq<EnvVar>, role: seq<EnvVar>)
    ensures UserDecides(Emit(slots) + UserEnv(Layered(d, cookie, cluster, role)), cluster, role)
  {
    hide Emit, UserEnv, Layered, Holds, IsLast;
    forall i | 0 <= i < |role| && IsLast(role, i)
      ensures Holds(Emit(slots) + UserEnv(Layered(d, cookie, cluster, role)), role[i]) {
      RoleEntryHolds(slots, d, cookie, cluster, role, i);
    }
    forall i | 0 <= i < |cluster| && IsLast(cluster, i) && cluster[i].name !in Names(role)
      ensures Holds(Emit(slots) + UserEnv(Layered(d, cookie, cluster, role)), cluster[i])
    {
      SharedEntryHolds(slots, d, cookie, cluster, role, i);
    }
  }

  /** In each container of a Cluster, an `extraEnv` entry has its own value or its own Secret's key. */
  lemma ClusterUserDecides(c: Cluster, key: SecretKeyRef)
    ensures UserDecides(MainEnv(c, key), c.extraEnv, c.main.extraEnv)
    ensures UserDecides(WorkerEnv(c, key), c.extraEnv, c.workers.extraEnv)
    ensures c.webhooks.Some? ==>
              UserDecides(WebhookEnv(c, c.webhooks.value, key), c.extraEnv, c.webhooks.value.extraEnv)
  {
    hide Emit, UserEnv, Layered, UserDecides, RoleDefaults, CommonSlots, BinaryDataSlots;
    ListsDecide(MainSlots(c, key), RoleDefaults(c, c.main.host, c.main.networking), c.secureCookie, c.extraEnv,
                c.main.extraEnv);
    ListsDecide(CommonSlots(c, key) + BinaryDataSlots(c.binaryData) + WorkerSlots(c), RoleDefaults(c, None, None),
                c.secureCookie, c.extraEnv, c.workers.extraEnv);
    if c.webhooks.Some? {
      var wh := c.webhooks.value;
      ListsDecide(CommonSlots(c, key) + BinaryDataSlots(c.binaryData), RoleDefaults(c, wh.host, wh.networking),
                  c.secureCookie, c.extraEnv, wh.extraEnv);
    }
  }

  lemma SingleUserDecides(s: Single, key: SecretKeyRef)
    ensures UserDecides(SingleEnv(s, key), s.extraEnv, [])
  {
    hide Emit, UserEnv, Layered, UserDecides, SingleDefaults;
    ListsDecide(SingleSlots(s, key), SingleDefaults(s), s.secureCookie, s.extraEnv, []);
  }

  // ----- The operator's own variables -----

  lemma {:induction false} EmitLookup(slots: seq<Slot>, i: nat)
    requires i < |slots| && NoRepeats(SlotNames(slots))
    ensures Lookup(Emit(slots), slots[i].name) == slots[i].value
  {
    var n := |slots| - 1;
    var init, last := slots[..n], slots[n];
    var tail: seq<EnvEntry> := if last.value.Some? then [EnvEntry(last.name, last.value.value)] else [];
    assert SlotNames(init) == SlotNames(slots)[..n];
    LookupConcat(Emit(init), tail, slots[i].name);
    if i < n {
      assert SlotNames(slots)[i] != SlotNames(slots)[n];
      EmitLookup(init, i);
    } else {
      assert tail != [] ==> tail[..0] == [];
      forall j | 0 <= j < n ensures SlotNames(init)[j] != last.name {
        assert SlotNames(slots)[j] != SlotNames(slots)[n];
      }
      LastNotBefore(init, last.name);
    }
  }

  lemma LastNotBefore(init: seq<Slot>, name: string)
    requires NoRepeats(SlotNames(init)) && name !in SlotNames(init)
    ensures Lookup(Emit(init), name) == None
  {
    EmitNames(init);
    LookupAbsent(Emit(init), name);
    assert name in EntryNames(Emit(init)) ==> Emitted(init, name);
  }

  /** Variables that the operator emits itself, over defaults that are never among them. */
  predicate Container(env: seq<EnvEntry>, slots: seq<Slot>, d: seq<EnvVar>, cookie: Option<bool>,
                      cluster: seq<EnvVar>, role: seq<EnvVar>)
  {
    && env == Emit(slots) + UserEnv(Layered(d, cookie, cluster, role))
    && NoRepeats(SlotNames(slots)) && (forall n | n in SlotNames(slots) :: !Plain(n))
    && AllPlain(d) && AllPlain(CookieLayer(cookie))
  }

  lemma PlainNames(vars: seq<EnvVar>, n: string)
    requires AllPlain(vars) && !Plain(n)
    ensures n !in Names(vars)
  {
    hide Plain;
    assert forall i | 0 <= i < |vars| :: vars[i] in vars && Names(vars)[i] == vars[i].name;
  }

  /** A variable that is no default and that no list sets is what the operator emits, or is not there. */
  lemma EmittedSeen(env: seq<EnvEntry>, slots: seq<Slot>, d: seq<EnvVar>, cookie: Option<bool>, cluster: seq<EnvVar>,
                    role: seq<EnvVar>, n: string)
    requires Container(env, slots, d, cookie, cluster, role) && !Plain(n) && n !in Names(cluster + role)
    ensures forall i | 0 <= i < |slots| && slots[i].name == n :: Lookup(env, n) == slots[i].value
    ensures n !in SlotNames(slots) ==> Lookup(env, n) == None
  {
    hide Emit, UserEnv, Plain;
    var vars := Layered(d, cookie, cluster, role);
    PlainNames(d, n);
    PlainNames(CookieLayer(cookie), n);
    NamesConcat(cluster, role, n);
    LayeredNames(d, cookie, cluster, role, n);
    LastEntryDecides(vars, 0, n);
    LookupConcat(Emit(slots), UserEnv(vars), n);
    forall i | 0 <= i < |slots| && slots[i].name == n ensures Lookup(env, n) == slots[i].value {
      EmitLookup(slots, i);
    }
    if n !in SlotNames(slots) {
      LastNotBefore(slots, n);
    }
  }

  /** The entry of a layer that counts. */
  function DefaultAt(vars: seq<EnvVar>, n: string): Option<EnvVar> {
    if n in LayerMap(vars) then Some(LayerMap(vars)[n]) else None
  }

  /** A variable that the operator does not emit and that no list sets is the default, or is not there. */
  lemma DefaultSeen(env: seq<EnvEntry>, slots: seq<Slot>, d: seq<EnvVar>, cookie: Option<bool>, cluster: seq<EnvVar>,
                    role: seq<EnvVar>, n: string)
    requires Container(env, slots, d, cookie, cluster, role) && Plain(n) && n !in Names(cluster + role)
    ensures match DefaultAt(d + CookieLayer(cookie), n)
            case Some(e) => e.name == n && Holds(env, e)
            case None => Lookup(env, n) == None
  {
    hide Emit, UserEnv, Plain, CookieLayer;
    var vars, low, user := Layered(d, cookie, cluster, role), d + CookieLayer(cookie), cluster + role;
    assert vars == low + user;
    LayerMapConcat(low, user);
    NamesOfLayer(low);
    NamesOfLayer(user);
    LookupUserEnv(vars, n);
    LastNotBefore(slots, n);
    LookupConcat(Emit(slots), UserEnv(vars), n);
  }

  // ----- Role by role -----

  lemma CommonNotPlain(c: Cluster, key: SecretKeyRef)
    ensures forall n | n in SlotNames(CommonSlots(c, key)) :: CommonNamed(n)
    ensures forall n: string | CommonNamed(n) || n in BINARY_DATA_NAMES || n in ROLE_FLAGS || n in MULTI_MAIN_TIMING ::
              !Plain(n)
  {
    CommonNames(c, key);
    hide CommonSlots, BINARY_DATA_NAMES, MULTI_MAIN_TIMING;
    forall n: string | CommonNamed(n) || n in BINARY_DATA_NAMES || n in ROLE_FLAGS || n in MULTI_MAIN_TIMING
      ensures !Plain(n)
    {
      if n in ROLE_FLAGS {
        FlagReserved(n);
      }
    }
  }

  lemma SlotNamesConcat(a: seq<Slot>, b: seq<Slot>)
    ensures forall n :: n in SlotNames(a + b) <==> n in SlotNames(a) || n in SlotNames(b)
  {
    assert SlotNames(a + b) == SlotNames(a) + SlotNames(b);
  }

  lemma MainContainer(c: Cluster, key: SecretKeyRef)
    ensures Container(MainEnv(c, key), MainSlots(c, key), RoleDefaults(c, c.main.host, c.main.networking),
                      c.secureCookie, c.extraEnv, c.main.extraEnv)
  {
    hide CommonSlots, BinaryDataSlots, MultiMainTuning, Plain, CommonNamed, BINARY_DATA_NAMES, ROLE_FLAGS,
         MULTI_MAIN_TIMING, AllPlain, RoleDefaults, Emit, CookieLayer;
    MainWired(c, key);
    RoleDefaultsPlain(c, c.main.host, c.main.networking);
    CommonNotPlain(c, key);
    BinaryDataNames(c.binaryData);
    RoleFlagNames(c);
    var a, b := CommonSlots(c, key), BinaryDataSlots(c.binaryData);
    SlotNamesConcat(a, b);
    SlotNamesConcat(a + b, [MultiMainFlag(c)]);
    SlotNamesConcat(a + b + [MultiMainFlag(c)], MultiMainTuning(c));
    SlotNamesConcat(a + b + [MultiMainFlag(c)] + MultiMainTuning(c), [WebhookOffloadSlot(c)]);
  }

  lemma WorkerContainer(c: Cluster, key: SecretKeyRef)
    ensures Container(WorkerEnv(c, key), CommonSlots(c, key) + BinaryDataSlots(c.binaryData) + WorkerSlots(c),
                      RoleDefaults(c, None, None), c.secureCookie, c.extraEnv, c.workers.extraEnv)
  {
    CommonNames(c, key);
    hide CommonSlots, BinaryDataSlots, Plain, BINARY_DATA_NAMES, ROLE_FLAGS, MULTI_MAIN_TIMING, AllPlain,
         RoleDefaults, Emit, WorkerSlots, CookieLayer;
    BinaryDataNames(c.binaryData);
    RoleFlagNames(c);
    CommonNotPlain(c, key);
    RoleWired(CommonSlots(c, key), BinaryDataSlots(c.binaryData), WorkerSlots(c));
    RoleDefaultsPlain(c, None, None);
  }

  lemma WebhookContainer(c: Cluster, wh: WebhookConfig, key: SecretKeyRef)
    ensures Container(WebhookEnv(c, wh, key), CommonSlots(c, key) + BinaryDataSlots(c.binaryData),
                      RoleDefaults(c, wh.host, wh.networking), c.secureCookie, c.extraEnv, wh.extraEnv)
  {
    CommonNames(c, key);
    hide CommonSlots, BinaryDataSlots, Plain, BINARY_DATA_NAMES, ROLE_FLAGS, MULTI_MAIN_TIMING, AllPlain,
         RoleDefaults, Emit, CookieLayer;
    BinaryDataNames(c.binaryData);
    CommonNotPlain(c, key);
    var a, b := CommonSlots(c, key), BinaryDataSlots(c.binaryData);
    assert a + b + [] == a + b;
    RoleWired(a, b, []);
    RoleDefaultsPlain(c, wh.host, wh.networking);
  }

  lemma SingleContainer(s: Single, key: SecretKeyRef)
    ensures Container(SingleEnv(s, key), SingleSlots(s, key), SingleDefaults(s), s.secureCookie, s.extraEnv, [])
  {
    hide Emit, SingleDefaults, CookieLayer, AllPlain;
    var head := [EncryptionSlot(key)];
    var db := if s.database.Some? then DbSlots(s.database.value) else [];
    assert SlotNames(head) == ["N8N_ENCRYPTION_KEY"];
    if s.database.Some? {
      DbNames(s.database.value);
    }
    Heads("N8N_ENCRYPTION_KEY");
    SlotsConcat(head, db);
    SingleDefaultsPlain(s);
  }
}

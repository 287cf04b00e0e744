/**
 What a reconcile pass should write (`Plan`), what an actual pass with failing
 API calls may have written (`Conforms`), and the API client itself as a class
 whose methods perform one call each.
 */
module Server {
  import opened Wrappers
  import opened Kube

  /** The writes of a pass in order; `ok` says whether the pass reaches its end or stops in an error. */
  datatype Plan = Plan(ops: seq<Op>, ok: bool)

  function Then(p: Plan, q: Plan): Plan {
    if p.ok then Plan(p.ops + q.ops, q.ok) else p
  }

  /** Writes whose failure always ends the pass: all but the tolerated removals and a DestinationRule. */
  predicate Required(op: Op) {
    !op.Discard? && !op.Purge? && !op.key.kind.DestinationRule?
  }

  /**
   `made` is what a pass over `ops` may have written: the planned writes in order, some tolerated ones missing,
   and on failure (`ok` false) nothing from some point on.
   */
  predicate Thinned(made: seq<Op>, ops: seq<Op>, ok: bool)
    decreases |ops|
  {
    if ops == [] then made == []
    else
      || (made != [] && made[0] == ops[0] && Thinned(made[1..], ops[1..], ok))
      || (!Required(ops[0]) && Thinned(made, ops[1..], ok))
      || (made == [] && !ok)
  }

  /**
   `after` extends the log `before` as a pass over `plan` may: planned writes only and in order, each one reached
   after every required one before it, all required ones on success, and exactly the plan when no call failed.
   */
  ghost predicate Conforms(before: seq<Op>, after: seq<Op>, plan: Plan, ok: bool, clean: bool) {
    && before <= after
    && Thinned(after[|before|..], plan.ops, ok)
    && (ok ==> plan.ok)
    && (clean ==> after == before + plan.ops && ok == plan.ok)
  }

  // ----- Laws of thinned passes -----

  lemma {:induction false} ThinnedConcat(m: seq<Op>, a: seq<Op>, n: seq<Op>, b: seq<Op>, ok: bool)
    requires Thinned(m, a, true) && Thinned(n, b, ok)
    ensures Thinned(m + n, a + b, ok)
    decreases |a|
  {
    if a == [] {
      assert m + n == n && a + b == b;
    } else {
      assert (a + b)[1..] == a[1..] + b;
      if m != [] && m[0] == a[0] && Thinned(m[1..], a[1..], true) {
        assert (m + n)[1..] == m[1..] + n;
        ThinnedConcat(m[1..], a[1..], n, b, ok);
      } else {
        ThinnedConcat(m, a[1..], n, b, ok);
      }
    }
  }

  lemma {:induction false} ThinnedStop(m: seq<Op>, a: seq<Op>, b: seq<Op>)
    requires Thinned(m, a, false)
    ensures Thinned(m, a + b, false)
    decreases |a|
  {
    if a == [] {
      assert a + b == b;
    } else if m != [] {
      assert (a + b)[1..] == a[1..] + b;
      if m[0] == a[0] && Thinned(m[1..], a[1..], false) {
        ThinnedStop(m[1..], a[1..], b);
      } else {
        ThinnedStop(m, a[1..], b);
      }
    }
  }

  lemma {:induction false} ThinnedIgnored(m: seq<Op>, ops: seq<Op>)
    requires Thinned(m, ops, false) && forall op | op in ops :: !Required(op)
    ensures Thinned(m, ops, true)
    decreases |ops|
  {
    if ops != [] {
      assert ops[0] in ops && forall op | op in ops[1..] :: op in ops;
      if m != [] && m[0] == ops[0] && Thinned(m[1..], ops[1..], false) {
        ThinnedIgnored(m[1..], ops[1..]);
      } else if m == [] {
        assert Thinned([], ops[1..], false);
        ThinnedIgnored(m, ops[1..]);
      } else {
        ThinnedIgnored(m, ops[1..]);
      }
    }
  }

  /** Only planned writes are made, and on success every required one. */
  lemma {:induction false} ThinnedWithin(m: seq<Op>, ops: seq<Op>, ok: bool)
    requires Thinned(m, ops, ok)
    ensures forall op | op in m :: op in ops
    ensures ok ==> forall op | op in ops && Required(op) :: op in m
    decreases |ops|
  {
    if ops != [] {
      assert ops == [ops[0]] + ops[1..];
      if m != [] && m[0] == ops[0] && Thinned(m[1..], ops[1..], ok) {
        assert m == [m[0]] + m[1..];
        ThinnedWithin(m[1..], ops[1..], ok);
      } else if m != [] || ok {
        ThinnedWithin(m, ops[1..], ok);
      }
    }
  }

  /** A success without tolerated writes has made the plan in full. */
  lemma {:induction false} ThinnedExact(m: seq<Op>, ops: seq<Op>)
    requires Thinned(m, ops, true) && forall op | op in ops :: Required(op)
    ensures m == ops
    decreases |ops|
  {
    if ops != [] {
      assert ops[0] in ops && forall op | op in ops[1..] :: op in ops;
      ThinnedExact(m[1..], ops[1..]);
      assert m == [m[0]] + m[1..] && ops == [ops[0]] + ops[1..];
    }
  }

  /** The last planned write is made only after every required write before it, and as the last one. */
  lemma {:induction false} ThinnedLast(m: seq<Op>, front: seq<Op>, last: Op, ok: bool)
    requires Thinned(m, front + [last], ok) && last !in front && last in m
    ensures m[|m| - 1] == last && forall op | op in front && Required(op) :: op in m[..|m| - 1]
    decreases |front|
  {
    var ops := front + [last];
    if front == [] {
      assert ops[1..] == [] && m != [];
      assert Thinned(m[1..], [], ok) || Thinned(m, [], ok);
    } else {
      assert ops[1..] == front[1..] + [last] && front == [front[0]] + front[1..];
      if m[0] == ops[0] && Thinned(m[1..], ops[1..], ok) {
        assert m == [m[0]] + m[1..];
        ThinnedLast(m[1..], front[1..], last, ok);
        assert m[..|m| - 1] == [m[0]] + m[1..][..|m| - 2];
      } else {
        ThinnedLast(m, front[1..], last, ok);
      }
    }
  }

  // ----- Laws of conforming passes -----

  lemma ConformsWithin(before: seq<Op>, after: seq<Op>, plan: Plan, ok: bool, clean: bool)
    requires Conforms(before, after, plan, ok, clean)
    ensures before <= after && forall op | op in after[|before|..] :: op in plan.ops
    ensures ok ==> plan.ok && forall op | op in plan.ops && Required(op) :: op in after[|before|..]
  {
    ThinnedWithin(after[|before|..], plan.ops, ok);
  }

  /** One write that may fail, before or after its effect. */
  lemma ConformsWrite(a: seq<Op>, b: seq<Op>, op: Op, ok: bool, clean: bool)
    requires b == a + [op] || (b == a && !ok)
    requires clean ==> ok
    ensures Conforms(a, b, Plan([op], true), ok, clean)
  {}

  lemma ConformsThen(a: seq<Op>, b: seq<Op>, c: seq<Op>, p: Plan, q: Plan, ok: bool, clean1: bool, clean2: bool)
    requires Conforms(a, b, p, true, clean1) && Conforms(b, c, q, ok, clean2)
    ensures Conforms(a, c, Then(p, q), ok, clean1 && clean2)
  {
    hide Thinned;
    assert c[|a|..] == b[|a|..] + c[|b|..];
    ThinnedConcat(b[|a|..], p.ops, c[|b|..], q.ops, ok);
  }

  lemma ConformsStop(a: seq<Op>, b: seq<Op>, p: Plan, q: Plan, clean: bool)
    requires Conforms(a, b, p, false, clean)
    ensures Conforms(a, b, Then(p, q), false, clean)
  {
    hide Thinned;
    ThinnedStop(b[|a|..], p.ops, q.ops);
  }

  /** A call that writes nothing fails after `p`. */
  lemma ConformsIdle(a: seq<Op>, b: seq<Op>, p: Plan, q: Plan, clean: bool)
    requires Conforms(a, b, p, true, clean)
    ensures Conforms(a, b, Then(p, q), false, false)
  {
    ThinnedConcat(b[|a|..], p.ops, [], q.ops, false);
    assert b[|a|..] + [] == b[|a|..];
  }

  lemma ConformsNothing(a: seq<Op>, p: Plan)
    ensures Conforms(a, a, p, false, false)
  {}

  /** The outcome of tolerated writes may be ignored. */
  lemma ConformsIgnored(a: seq<Op>, b: seq<Op>, p: Plan, ok: bool, clean: bool)
    requires Conforms(a, b, p, ok, clean) && p.ok && forall op | op in p.ops :: !Required(op)
    ensures Conforms(a, b, p, true, clean)
  {
    if !ok {
      ThinnedIgnored(b[|a|..], p.ops);
    }
  }

  lemma ThenAssociates(p: Plan, q: Plan, r: Plan)
    ensures Then(Then(p, q), r) == Then(p, Then(q, r))
  {
    assert (p.ops + q.ops) + r.ops == p.ops + (q.ops + r.ops);
  }

  /** One step of a pass: `done` is behind, `p` has just been attempted, `rest` lies ahead. */
  lemma ConformsStep(a: seq<Op>, b: seq<Op>, c: seq<Op>, done: Plan, p: Plan, rest: Plan, ok: bool, clean1: bool,
                     clean2: bool)
    requires Conforms(a, b, done, true, clean1) && Conforms(b, c, p, ok, clean2)
    ensures Conforms(a, c, Then(done, p), ok, clean1 && clean2)
    ensures !ok ==> Conforms(a, c, Then(done, Then(p, rest)), false, clean1 && clean2)
    ensures Then(Then(done, p), rest) == Then(done, Then(p, rest))
  {
    ConformsThen(a, b, c, done, p, ok, clean1, clean2);
    ThenAssociates(done, p, rest);
    if !ok {
      ConformsStop(a, c, Then(done, p), rest, clean1 && clean2);
    }
  }

  // ----- Passes in which every failure is the end -----

  /** `after` extends `before` by the plan in full on success, and by a beginning of it otherwise. */
  ghost predicate Follows(before: seq<Op>, after: seq<Op>, plan: Plan, ok: bool, clean: bool) {
    && before <= after && after[|before|..] <= plan.ops
    && (ok ==> plan.ok && after == before + plan.ops)
    && (clean ==> after == before + plan.ops && ok == plan.ok)
  }

  lemma FollowsThen(a: seq<Op>, b: seq<Op>, c: seq<Op>, p: Plan, q: Plan, ok: bool, clean1: bool, clean2: bool,
                    clean: bool)
    requires Follows(a, b, p, true, clean1) && Follows(b, c, q, ok, clean2) && (clean ==> clean2)
    ensures Follows(a, c, Then(p, q), ok, clean)
  {
    assert c[|a|..] == b[|a|..] + c[|b|..];
  }

  lemma FollowsStop(a: seq<Op>, b: seq<Op>, p: Plan, q: Plan, clean: bool)
    requires Follows(a, b, p, false, clean)
    ensures Follows(a, b, Then(p, q), false, clean)
  {}

  lemma FollowsNothing(a: seq<Op>, p: Plan)
    ensures Follows(a, a, p, false, false)
  {}

  class ApiServer {
    var store: Store
    /** `gateway.networking.k8s.io/v1` and `networking.istio.io/v1` are served. */
    var gateway: bool
    var istio: bool
    /** Failed calls so far, and every write that took effect, in order. */
    ghost var faults: nat
    ghost var log: seq<Op>
    ghost const base: Store

    ghost predicate Valid() reads this { store == Run(base, log) }

    constructor (initial: Store, gateway: bool, istio: bool)
      ensures Valid() && store == initial && log == [] && faults == 0
      ensures this.gateway == gateway && this.istio == istio
    {
      store, this.gateway, this.istio := initial, gateway, istio;
      base, log, faults := initial, [], 0;
    }

    /** A read that may fail. */
    method Get(k: Key) returns (r: Result<Option<Object>>)
      modifies `faults
      ensures faults >= old(faults) && (r.Ok? <==> faults == old(faults))
      ensures r.Ok? ==> r.value == store.Find(k)
    {
      var up: bool := *;
      if up {
        return Ok(store.Find(k));
      }
      faults := faults + 1;
      r := Err(KubeError);
    }

    /** One look at the served API groups; a failed lookup counts as not served. */
    method Discover() returns (gatewayServed: bool, istioServed: bool)
      modifies `faults
      ensures faults >= old(faults)
      ensures gatewayServed ==> gateway
      ensures istioServed ==> istio
      ensures faults == old(faults) ==> gatewayServed == gateway && istioServed == istio
    {
      var up: bool := *;
      if up {
        return gateway, istio;
      }
      faults := faults + 1;
      return false, false;
    }

    /** Publishing an event touches nothing the reconcilers read, but may fail. */
    method Publish() returns (r: Outcome)
      modifies `faults
      ensures faults >= old(faults) && (r.Pass? <==> faults == old(faults))
    {
      var up: bool := *;
      if up {
        return Pass;
      }
      faults := faults + 1;
      r := Fail(KubeError);
    }

    /** A route cannot be written while its API group is not served. */
    predicate Refused(op: Op) reads `gateway {
      op.Put? && op.key.kind.HTTPRoute? && !gateway
    }

    /** One write call: it succeeds, fails without effect, or fails after taking effect. */
    method Write(op: Op) returns (r: Outcome)
      requires Valid()
      modifies `store, `log, `faults
      ensures Valid() && faults >= old(faults)
      ensures Refused(op) ==> r.Fail? && log == old(log) && faults == old(faults)
      ensures !Refused(op) ==> (r.Pass? <==> faults == old(faults))
      ensures (log == old(log) + [op] && store == Step(old(store), op)) || (log == old(log) && r.Fail?)
    {
      var up: bool, effect: bool := *, *;
      if Refused(op) {
        return Fail(KubeError);
      }
      if up || effect {
        RunConcat(base, log, [op]);
        assert Run(store, [op]) == Run(Step(store, op), []);
        store, log := Step(store, op), log + [op];
      }
      if !up {
        faults := faults + 1;
        return Fail(KubeError);
      }
      r := Pass;
    }

    /** Records that there was nothing to delete, which leaves the store as it is. */
    ghost method NoteAbsent(op: Op)
      requires Valid() && (op.Remove? || op.Discard?) && op.key !in store.objects
      modifies `log
      ensures Valid() && log == old(log) + [op]
    {
      RunConcat(base, log, [op]);
      SettledMeansDone(store, op);
      assert Run(store, [op]) == Run(Step(store, op), []);
      log := log + [op];
    }

    /** Records that the object to create exists already, which leaves it as it is. */
    ghost method NotePresent(k: Key, want: Fields)
      requires Valid() && k in store.objects
      modifies `log
      ensures Valid() && log == old(log) + [Create(k, want)]
    {
      RunConcat(base, log, [Create(k, want)]);
      assert Run(store, [Create(k, want)]) == Run(Step(store, Create(k, want)), []);
      log := log + [Create(k, want)];
    }

    /** The deletes of the operator: look first, delete only what is there. */
    method DeleteIfPresent(k: Key) returns (r: Outcome)
      requires Valid()
      modifies `store, `log, `faults
      ensures Valid() && faults >= old(faults)
      ensures r.Pass? <==> faults == old(faults)
      ensures Conforms(old(log), log, Plan([Remove(k)], true), r.Pass?, faults == old(faults))
    {
      var seen := Get(k);
      if seen.Err? {
        return Fail(seen.error);
      }
      if seen.value.Some? {
        r := Write(Remove(k));
      } else {
        NoteAbsent(Remove(k));
        r := Pass;
      }
    }
  }
}

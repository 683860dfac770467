/** Delivery along `then` chains: a promise returned by `then` is settled as
    soon as its source is, with the transformed outcome, however deep in a
    cascade the source settles. */
module ThenChain {
  import opened PromiseTypes
  import opened Semantics
  import opened Cascade
  import opened Chaining

  /** The targets of the `then` registrations in `ls`. */
  ghost function ThenTargets<A>(ls: seq<Listener<A>>): set<nat>
  {
    if ls == [] then {}
    else (if ls[0].ThenStep? then {ls[0].target} else {}) + ThenTargets(ls[1..])
  }

  lemma {:induction false} ThenTargetsHas<A>(ls: seq<Listener<A>>, k: nat)
    requires k < |ls| && ls[k].ThenStep?
    ensures ls[k].target in ThenTargets(ls)
    decreases |ls|
  {
    if k > 0 {
      assert ls[1..][k - 1] == ls[k];
      ThenTargetsHas(ls[1..], k - 1);
    }
  }

  /** Every `then` registration on a settled promise has run: its target is
      settled too. Targets in `owed` are excused while the registration aimed
      at them is still to run further up the cascade. */
  ghost predicate ThenDue<A, E>(s: Snapshot<A, E>, owed: set<nat>)
  {
    forall i, k ::
      (0 <= i < |s.cells| && s.cells[i].state != Pending && 0 <= k < |s.cells[i].listeners|
       && s.cells[i].listeners[k].ThenStep? && s.cells[i].listeners[k].target !in owed) ==>
        && s.cells[i].listeners[k].target < |s.cells|
        && s.cells[s.cells[i].listeners[k].target].state != Pending
  }

  /** Excusing more targets asks less. */
  lemma ThenDueMore<A, E>(s: Snapshot<A, E>, owed: set<nat>, more: set<nat>)
    requires owed <= more && ThenDue(s, owed)
    ensures ThenDue(s, more)
  {
  }

  /** Settling `q`, with the whole cascade it sets off, leaves every `then`
      registration on a settled promise run. `q` itself may be excused
      beforehand: it is settled afterwards. */
  lemma {:induction false} ThenDueSettle<A, E>(s: Snapshot<A, E>, q: nat, r: Result<A, E>, owed: set<nat>)
    requires Consistent(s) && q < |s.cells| && !r.Undefined?
    requires ThenDue(s, owed + {q})
    ensures ThenDue(Settle(s, q, r), owed)
    decreases |s.cells| - q, 2, 0
  {
    if s.cells[q].state == Pending {
      var ls := s.cells[q].listeners;
      var m := Mark(s, q, r);
      assert ThenDue(m, owed + ThenTargets(ls)) by {
        forall i, k | 0 <= i < |m.cells| && m.cells[i].state != Pending && 0 <= k < |m.cells[i].listeners|
          && m.cells[i].listeners[k].ThenStep? && m.cells[i].listeners[k].target !in owed + ThenTargets(ls)
          ensures m.cells[i].listeners[k].target < |m.cells| && m.cells[m.cells[i].listeners[k].target].state != Pending
        {
          if i == q {
            ThenTargetsHas(ls, k);
          } else {
            assert s.cells[i].listeners[k] == m.cells[i].listeners[k];
          }
        }
      }
      ThenDueFire(m, q, r, ls, owed);
    }
  }

  lemma {:induction false} ThenDueFire<A, E>(s: Snapshot<A, E>, p: nat, r: Result<A, E>, ls: seq<Listener<A>>, owed: set<nat>)
    requires Consistent(s) && p < |s.cells| && !r.Undefined? && s.cells[p].result == r
    requires forall k :: 0 <= k < |ls| ==> Fits(ls[k], p, |s.cells|)
    requires ThenDue(s, owed + ThenTargets(ls))
    ensures ThenDue(Fire(s, p, r, ls), owed)
    decreases |s.cells| - p, 1, |ls|
  {
    if ls != [] {
      var l := ls[0];
      var rest := ls[1..];
      assert owed + ThenTargets(ls) == (owed + ThenTargets(rest)) + (if l.ThenStep? then {l.target} else {});
      ThenDueFireOne(s, p, l, r, owed + ThenTargets(rest));
      var s1 := FireOne(s, p, l, r);
      assert Coherent(s.cells[p]);
      ThenDueFire(s1, p, r, rest, owed);
    }
  }

  lemma {:induction false} ThenDueFireOne<A, E>(s: Snapshot<A, E>, p: nat, l: Listener<A>, r: Result<A, E>, owed: set<nat>)
    requires Consistent(s) && p < |s.cells| && !r.Undefined? && s.cells[p].result == r
    requires Fits(l, p, |s.cells|)
    requires ThenDue(s, owed + (if l.ThenStep? then {l.target} else {}))
    ensures ThenDue(FireOne(s, p, l, r), owed)
    decreases |s.cells| - p, 0, 0
  {
    match l
    case ThenStep(q, f, _) =>
      if r.Value? {
        ThenDueSettle(s, q, Value(f(r.value)), owed);
      } else {
        ThenDueSettle(s, q, r, owed);
      }
    case AllStep(q, g) =>
      ThenDueMore(s, owed, owed + {q});
      if r.Error? {
        ThenDueSettle(s, q, r, owed);
      } else if CountFulfilled(s.cells, g) == |g| {
        ThenDueSettle(s, q, Value(List(FlatValues(s.cells, g))), owed);
      }
    case RaceStep(q) =>
      ThenDueMore(s, owed, owed + {q});
      ThenDueSettle(s, q, r, owed);
  }

  /** `q` is the promise `p.then(f)` returned: it is newer than `p`, and the
      only registration aimed at it is one `then(f)` registration on `p`. */
  ghost predicate ThenWired<A, E>(s: Snapshot<A, E>, p: nat, q: nat, f: Val<A> -> Val<A>)
  {
    && p < q < |s.cells|
    && (forall i, k :: 0 <= i < |s.cells| && 0 <= k < |s.cells[i].listeners| && s.cells[i].listeners[k].target == q ==>
          i == p && s.cells[i].listeners[k].ThenStep? && s.cells[i].listeners[k].transform == f)
    && (forall k, k' ::
          (0 <= k < |s.cells[p].listeners| && 0 <= k' < |s.cells[p].listeners|
           && s.cells[p].listeners[k].target == q && s.cells[p].listeners[k'].target == q) ==> k == k')
  }

  /** A settled `q` holds what `then(f)` makes of the settled outcome of `p`. */
  ghost predicate ThenHolds<A, E>(s: Snapshot<A, E>, p: nat, q: nat, f: Val<A> -> Val<A>)
    requires p < q < |s.cells|
  {
    s.cells[q].state != Pending ==>
      s.cells[p].state != Pending && s.cells[q].result == Transformed(f, s.cells[p].result)
  }

  /** While `q` is pending, its registration is still on the chain of `p`. */
  ghost predicate ThenRegistered<A, E>(s: Snapshot<A, E>, p: nat, q: nat)
    requires p < q < |s.cells|
  {
    s.cells[q].state == Pending ==>
      exists k :: 0 <= k < |s.cells[p].listeners| && s.cells[p].listeners[k].target == q
  }

  /** The invariant of a promise `then` returned. */
  ghost predicate ThenInv<A, E>(s: Snapshot<A, E>, p: nat, q: nat, f: Val<A> -> Val<A>)
  {
    ThenWired(s, p, q, f) && ThenHolds(s, p, q, f) && ThenRegistered(s, p, q)
  }

  /** The wiring only depends on the chains. */
  lemma ThenWiredKept<A, E>(s: Snapshot<A, E>, s': Snapshot<A, E>, p: nat, q: nat, f: Val<A> -> Val<A>)
    requires ThenWired(s, p, q, f) && SameShape(s, s')
    ensures ThenWired(s', p, q, f)
  {
    forall i, k | 0 <= i < |s'.cells| && 0 <= k < |s'.cells[i].listeners| && s'.cells[i].listeners[k].target == q
      ensures i == p && s'.cells[i].listeners[k].ThenStep? && s'.cells[i].listeners[k].transform == f
    {
      assert s'.cells[i].listeners[k] == s.cells[i].listeners[k];
    }
  }

  /** The registration stays while `q` is pending, across any step that keeps
      settled promises and drops no registration. */
  lemma ThenRegisteredKept<A, E>(s: Snapshot<A, E>, s': Snapshot<A, E>, p: nat, q: nat)
    requires p < q < |s.cells| <= |s'.cells| && Grows(s, s') && ChainsGrow(s, s')
    requires ThenRegistered(s, p, q)
    ensures ThenRegistered(s', p, q)
  {
    if s'.cells[q].state == Pending {
      assert s.cells[q].state == Pending;
      var k :| 0 <= k < |s.cells[p].listeners| && s.cells[p].listeners[k].target == q;
      assert s.cells[p].listeners <= s'.cells[p].listeners;
      assert s'.cells[p].listeners[k] == s.cells[p].listeners[k];
    }
  }

  /** Settlements keep what a settled `q` holds, provided a settlement of `q`
      itself is the one its registration makes. */
  lemma {:induction false} ThenSettle<A, E>(s: Snapshot<A, E>, x: nat, r: Result<A, E>, p: nat, q: nat, f: Val<A> -> Val<A>)
    requires Consistent(s) && x < |s.cells| && !r.Undefined?
    requires ThenWired(s, p, q, f) && ThenHolds(s, p, q, f)
    requires x == q ==> s.cells[p].state != Pending && r == Transformed(f, s.cells[p].result)
    ensures ThenHolds(Settle(s, x, r), p, q, f)
    decreases |s.cells| - x, 2, 0
  {
    if s.cells[x].state == Pending {
      var m := Mark(s, x, r);
      if x == p {
        assert s.cells[q].state == Pending;
      }
      ThenFire(m, x, r, s.cells[x].listeners, p, q, f);
    }
  }

  lemma {:induction false} ThenFire<A, E>(s: Snapshot<A, E>, x: nat, r: Result<A, E>, ls: seq<Listener<A>>, p: nat, q: nat, f: Val<A> -> Val<A>)
    requires Consistent(s) && x < |s.cells| && !r.Undefined? && s.cells[x].result == r
    requires forall k :: 0 <= k < |ls| ==> Fits(ls[k], x, |s.cells|)
    requires forall k :: 0 <= k < |ls| && ls[k].target == q ==> x == p && ls[k].ThenStep? && ls[k].transform == f
    requires ThenWired(s, p, q, f) && ThenHolds(s, p, q, f)
    ensures ThenHolds(Fire(s, x, r, ls), p, q, f)
    decreases |s.cells| - x, 1, |ls|
  {
    if ls != [] {
      ThenFireOne(s, x, ls[0], r, p, q, f);
      var s1 := FireOne(s, x, ls[0], r);
      ThenWiredKept(s, s1, p, q, f);
      assert Coherent(s.cells[x]);
      ThenFire(s1, x, r, ls[1..], p, q, f);
    }
  }

  lemma {:induction false} ThenFireOne<A, E>(s: Snapshot<A, E>, x: nat, l: Listener<A>, r: Result<A, E>, p: nat, q: nat, f: Val<A> -> Val<A>)
    requires Consistent(s) && x < |s.cells| && !r.Undefined? && s.cells[x].result == r
    requires Fits(l, x, |s.cells|)
    requires l.target == q ==> x == p && l.ThenStep? && l.transform == f
    requires ThenWired(s, p, q, f) && ThenHolds(s, p, q, f)
    ensures ThenHolds(FireOne(s, x, l, r), p, q, f)
    decreases |s.cells| - x, 0, 0
  {
    match l
    case ThenStep(t, g, _) =>
      if t == q {
        assert Coherent(s.cells[x]);
      }
      if r.Value? {
        ThenSettle(s, t, Value(g(r.value)), p, q, f);
      } else {
        ThenSettle(s, t, r, p, q, f);
      }
    case AllStep(t, g) =>
      if r.Error? {
        ThenSettle(s, t, r, p, q, f);
      } else if CountFulfilled(s.cells, g) == |g| {
        ThenSettle(s, t, Value(List(FlatValues(s.cells, g))), p, q, f);
      }
    case RaceStep(t) =>
      ThenSettle(s, t, r, p, q, f);
  }

  /** The registration that created `q` is the only one aimed at it, which is
      what `Cascade.DeliveredThen` asks of a derived promise. */
  lemma ThenWiredIsSole<A, E>(s: Snapshot<A, E>, p: nat, q: nat, f: Val<A> -> Val<A>, k: nat)
    requires ThenWired(s, p, q, f)
    requires k < |s.cells[p].listeners| && s.cells[p].listeners[k].target == q
    ensures s.cells[p].listeners[k].ThenStep? && s.cells[p].listeners[k].transform == f
    ensures forall i, j :: 0 <= i < |s.cells| && 0 <= j < |s.cells[i].listeners| && (i != p || j != k) ==>
      s.cells[i].listeners[j].target != q
  {
    forall i, j | 0 <= i < |s.cells| && 0 <= j < |s.cells[i].listeners| && (i != p || j != k)
      ensures s.cells[i].listeners[j].target != q
    {
      if s.cells[i].listeners[j].target == q {
        assert false;
      }
    }
  }

  /** `then` returns a promise that has the invariant. */
  lemma ThenOnEstablishes<A, E>(s: Snapshot<A, E>, p: nat, f: Val<A> -> Val<A>, observed: bool)
    requires Consistent(s) && p < |s.cells|
    ensures ThenInv(ThenOn(s, p, f, observed), p, |s.cells|, f)
  {
    var n := |s.cells|;
    var s' := ThenOn(s, p, f, observed);
    forall i, k | 0 <= i < |s'.cells| && 0 <= k < |s'.cells[i].listeners| && (i != p || k != |s.cells[p].listeners|)
      ensures s'.cells[i].listeners[k].target != n
    {
      if i < n {
        assert s'.cells[i].listeners[k] == s.cells[i].listeners[k];
        assert Fits(s.cells[i].listeners[k], i, n);
      }
    }
    if s.cells[p].state == Pending {
      assert s'.cells[p].listeners[|s.cells[p].listeners|].target == n;
    } else {
      assert Coherent(s.cells[p]);
    }
  }

  /** `catch` returns a promise that has the invariant, with the identity as
      its transform. */
  lemma CatchOnEstablishes<A, E>(s: Snapshot<A, E>, p: nat)
    requires Consistent(s) && p < |s.cells|
    ensures ThenInv(CatchOn(s, p), p, |s.cells|, Identity)
  {
    ThenOnEstablishes(s, p, Identity, true);
  }

  /** Creating a promise keeps the invariant and keeps registrations run. */
  lemma ThenKeptByCreate<A, E>(s: Snapshot<A, E>, p: nat, q: nat, f: Val<A> -> Val<A>)
    requires Consistent(s) && ThenInv(s, p, q, f) && ThenDue(s, {})
    ensures ThenInv(Create(s), p, q, f) && ThenDue(Create(s), {})
  {
    var s' := Create(s);
    assert forall i :: 0 <= i < |s.cells| ==> s'.cells[i] == s.cells[i];
  }

  /** A settlement keeps the invariant and keeps registrations run, provided a
      settlement of `q` itself comes when `p` has settled. */
  lemma ThenKeptBySettle<A, E>(s: Snapshot<A, E>, x: nat, r: Result<A, E>, p: nat, q: nat, f: Val<A> -> Val<A>)
    requires Consistent(s) && x < |s.cells| && !r.Undefined?
    requires ThenInv(s, p, q, f) && ThenDue(s, {})
    requires x == q ==> s.cells[p].state != Pending
    ensures ThenInv(Settle(s, x, r), p, q, f) && ThenDue(Settle(s, x, r), {})
  {
    var s' := Settle(s, x, r);
    ThenDueMore(s, {}, {x});
    ThenDueSettle(s, x, r, {});
    ThenWiredKept(s, s', p, q, f);
    SettleChainsGrow(s, x, r);
    ThenRegisteredKept(s, s', p, q);
    if x == q {
      if s.cells[q].state == Pending {
        assert false;
      }
    } else {
      ThenSettle(s, x, r, p, q, f);
    }
  }

  /** A registration aimed at another promise keeps the invariant and keeps
      registrations run, including a registration run at once. */
  lemma ThenKeptByRegister<A, E>(s: Snapshot<A, E>, x: nat, l: Listener<A>, p: nat, q: nat, f: Val<A> -> Val<A>)
    requires Consistent(s) && x < |s.cells| && Fits(l, x, |s.cells|) && l.target != q
    requires ThenInv(s, p, q, f) && ThenDue(s, {})
    ensures ThenInv(Register(s, x, l), p, q, f) && ThenDue(Register(s, x, l), {})
  {
    var s' := Register(s, x, l);
    RegisterChainsGrow(s, x, l);
    ThenRegisteredKept(s, s', p, q);
    if s.cells[x].state == Pending {
      forall i, k | 0 <= i < |s'.cells| && 0 <= k < |s'.cells[i].listeners| && s'.cells[i].listeners[k].target == q
        ensures i == p && s'.cells[i].listeners[k].ThenStep? && s'.cells[i].listeners[k].transform == f
      {
        assert s'.cells[i].listeners[k] == s.cells[i].listeners[k];
      }
      assert ThenDue(s', {}) by {
        forall i, k | 0 <= i < |s'.cells| && s'.cells[i].state != Pending && 0 <= k < |s'.cells[i].listeners|
          && s'.cells[i].listeners[k].ThenStep? && s'.cells[i].listeners[k].target !in {}
          ensures s'.cells[i].listeners[k].target < |s'.cells| && s'.cells[s'.cells[i].listeners[k].target].state != Pending
        {
          assert s'.cells[i].listeners[k] == s.cells[i].listeners[k];
        }
      }
    } else {
      ThenDueMore(s, {}, if l.ThenStep? then {l.target} else {});
      ThenDueFireOne(s, x, l, s.cells[x].result, {});
      ThenWiredKept(s, s', p, q, f);
      ThenFireOne(s, x, l, s.cells[x].result, p, q, f);
    }
  }

  /** Registering a listener aimed at another promise on each of `ps` keeps the
      invariant and keeps registrations run. */
  lemma {:induction false} ThenKeptByRegisterEach<A, E>(s: Snapshot<A, E>, ps: seq<nat>, l: Listener<A>, p: nat, q: nat, f: Val<A> -> Val<A>)
    requires Consistent(s) && Aims(l, |s.cells|) && (forall j :: 0 <= j < |ps| ==> ps[j] < l.target) && l.target != q
    requires ThenInv(s, p, q, f) && ThenDue(s, {})
    ensures ThenInv(RegisterEach(s, ps, l), p, q, f) && ThenDue(RegisterEach(s, ps, l), {})
    decreases |ps|
  {
    if ps != [] {
      ThenKeptByRegister(s, ps[0], l, p, q, f);
      ThenKeptByRegisterEach(Register(s, ps[0], l), ps[1..], l, p, q, f);
    }
  }

  /** `then`, `catch`, `all`, `race`, `resolve`, `reject` and `Promise(x)` keep
      the invariant and keep registrations run. */
  lemma ThenKeptByOperations<A, E>(s: Snapshot<A, E>, x: nat, g: Val<A> -> Val<A>, observed: bool, other: seq<nat>, r: Result<A, E>, p: nat, q: nat, f: Val<A> -> Val<A>)
    requires Consistent(s) && x < |s.cells| && Exist(s, other) && (r.Value? || r.Error?)
    requires ThenInv(s, p, q, f) && ThenDue(s, {})
    ensures ThenInv(ThenOn(s, x, g, observed), p, q, f) && ThenDue(ThenOn(s, x, g, observed), {})
    ensures ThenInv(CatchOn(s, x), p, q, f) && ThenDue(CatchOn(s, x), {})
    ensures ThenInv(AllOf(s, other), p, q, f) && ThenDue(AllOf(s, other), {})
    ensures ThenInv(RaceOf(s, other), p, q, f) && ThenDue(RaceOf(s, other), {})
    ensures r.Value? ==> ThenInv(Resolve(s, r.value), p, q, f) && ThenDue(Resolve(s, r.value), {})
    ensures r.Error? ==> ThenInv(Reject(s, r.error), p, q, f) && ThenDue(Reject(s, r.error), {})
    ensures s.cells[x].state != Pending ==> ThenInv(CopyOf(s, x), p, q, f) && ThenDue(CopyOf(s, x), {})
  {
    var s0 := Create(s);
    var n := |s.cells|;
    ThenKeptByCreate(s, p, q, f);
    ThenKeptByRegister(s0, x, ThenStep(n, g, observed), p, q, f);
    ThenKeptByRegister(s0, x, ThenStep(n, Identity, true), p, q, f);
    ThenKeptByRegisterEach(s0, other, AllStep(n, other), p, q, f);
    ThenKeptByRegisterEach(s0, other, RaceStep(n), p, q, f);
    ThenKeptBySettle(s0, n, r, p, q, f);
    if s.cells[x].state != Pending {
      assert Coherent(s.cells[x]);
      ThenKeptBySettle(s0, n, s.cells[x].result, p, q, f);
    }
  }

  /** Whatever cascade a settlement sets off, once it is over a promise `then`
      returned is settled as soon as its source is, with the transformed
      outcome. The settled promise may be any promise: a source reached deep in
      the cascade counts too. */
  lemma ThenOutcomeAfterSettle<A, E>(s: Snapshot<A, E>, x: nat, r: Result<A, E>, p: nat, q: nat, f: Val<A> -> Val<A>)
    requires Consistent(s) && x < |s.cells| && !r.Undefined?
    requires ThenInv(s, p, q, f) && ThenDue(s, {})
    requires x == q ==> s.cells[p].state != Pending
    ensures var s' := Settle(s, x, r);
      && ThenInv(s', p, q, f) && ThenDue(s', {})
      && (s'.cells[p].state != Pending ==>
            && s'.cells[q].result == Transformed(f, s'.cells[p].result)
            && s'.cells[q].state == s'.cells[p].state)
  {
    var s' := Settle(s, x, r);
    ThenKeptBySettle(s, x, r, p, q, f);
    if s'.cells[p].state != Pending {
      if s'.cells[q].state == Pending {
        assert false;
      }
      assert Coherent(s'.cells[q]) && Coherent(s'.cells[p]);
    }
  }

  /** `p.then(f).then(g)` with `p` pending, before `p` settles: both derived
      promises have the invariant and every registration on a settled promise
      has run. */
  lemma ThenChainWorld<A, E>(s: Snapshot<A, E>, p: nat, f: Val<A> -> Val<A>, g: Val<A> -> Val<A>)
    requires Consistent(s) && ThenDue(s, {}) && p < |s.cells| && s.cells[p].state == Pending
    ensures var n := |s.cells|;
      var s2 := ThenOn(ThenOn(s, p, f, false), n, g, false);
      && |s2.cells| == n + 2 && Consistent(s2) && s2.cells[p].state == Pending
      && ThenInv(s2, p, n, f) && ThenInv(s2, n, n + 1, g) && ThenDue(s2, {})
  {
    var n := |s.cells|;
    var s1 := ThenOn(s, p, f, false);
    ThenOnEstablishes(s, p, f, false);
    ThenDueKeptByThen(s, p, f, false);
    ThenOnEstablishes(s1, n, g, false);
    ThenKeptByCreate(s1, p, n, f);
    ThenKeptByRegister(Create(s1), n, ThenStep(n + 1, g, false), p, n, f);
  }

  /** `p.then(f).then(g)` with `p` pending: settling `p` with `r` settles the
      second derived promise with `g` applied after `f`, or with the same error,
      though only the first derived promise is settled by `p`'s own
      registration. */
  lemma ThenChainDelivers<A, E>(s: Snapshot<A, E>, p: nat, f: Val<A> -> Val<A>, g: Val<A> -> Val<A>, r: Result<A, E>)
    requires Consistent(s) && ThenDue(s, {}) && p < |s.cells| && s.cells[p].state == Pending && !r.Undefined?
    ensures var n := |s.cells|;
      var s3 := Settle(ThenOn(ThenOn(s, p, f, false), n, g, false), p, r);
      && s3.cells[n].result == Transformed(f, r)
      && s3.cells[n + 1].result == Transformed(g, Transformed(f, r))
      && s3.cells[n + 1].state == StateOf(r)
  {
    var n := |s.cells|;
    ThenChainWorld(s, p, f, g);
    ThenChainOutcome(ThenOn(ThenOn(s, p, f, false), n, g, false), p, n, f, g, r);
  }

  /** In any world where `q` is `p.then(f)` and `q'` is `q.then(g)`, settling
      `p` with `r` leaves `q'` holding `g` after `f` applied to `r`. */
  lemma ThenChainOutcome<A, E>(s: Snapshot<A, E>, p: nat, q: nat, f: Val<A> -> Val<A>, g: Val<A> -> Val<A>, r: Result<A, E>)
    requires Consistent(s) && p < |s.cells| && s.cells[p].state == Pending && !r.Undefined?
    requires q + 1 < |s.cells| && ThenInv(s, p, q, f) && ThenInv(s, q, q + 1, g) && ThenDue(s, {})
    ensures var s' := Settle(s, p, r);
      && s'.cells[q].result == Transformed(f, r)
      && s'.cells[q + 1].result == Transformed(g, Transformed(f, r))
      && s'.cells[q + 1].state == StateOf(r)
  {
    ThenOutcomeAfterSettle(s, p, r, p, q, f);
    ThenOutcomeAfterSettle(s, p, r, q, q + 1, g);
    var s' := Settle(s, p, r);
    assert s'.cells[p].result == r;
  }

  /** `then` and `catch` keep registrations run. */
  lemma ThenDueKeptByThen<A, E>(s: Snapshot<A, E>, x: nat, g: Val<A> -> Val<A>, observed: bool)
    requires Consistent(s) && x < |s.cells| && ThenDue(s, {})
    ensures ThenDue(ThenOn(s, x, g, observed), {})
  {
    var n := |s.cells|;
    var s0 := Create(s);
    var l := ThenStep(n, g, observed);
    var s' := ThenOn(s, x, g, observed);
    assert forall i :: 0 <= i < n ==> s0.cells[i] == s.cells[i];
    if s.cells[x].state == Pending {
      forall i, k | 0 <= i < |s'.cells| && s'.cells[i].state != Pending && 0 <= k < |s'.cells[i].listeners|
        && s'.cells[i].listeners[k].ThenStep? && s'.cells[i].listeners[k].target !in {}
        ensures s'.cells[i].listeners[k].target < |s'.cells| && s'.cells[s'.cells[i].listeners[k].target].state != Pending
      {
        assert i != x && i < n;
        assert s'.cells[i].listeners[k] == s.cells[i].listeners[k];
      }
    } else {
      ThenDueMore(s0, {}, {n});
      ThenDueFireOne(s0, x, l, s.cells[x].result, {});
    }
  }
}
